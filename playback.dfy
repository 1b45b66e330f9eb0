/** The playback controller (`useAudioPlayer`): a position in the queue, the
    play intent, and the one audio output whose source follows the position. */
module Playback {
  import opened Tracks

  /** Position after `next`: `(i + 1) % len`. */
  function NextIndex(i: nat, len: nat): (r: nat)
    requires len > 0
    ensures r < len
    ensures i < len ==> r == if i == len - 1 then 0 else i + 1
  {
    (i + 1) % len
  }

  /** Position after `prev`: `(i - 1 + len) % len`. */
  function PrevIndex(i: nat, len: nat): (r: nat)
    requires len > 0
    ensures r < len
    ensures i < len ==> r == if i == 0 then len - 1 else i - 1
  {
    (i - 1 + len) % len
  }

  lemma PrevUndoesNext(i: nat, len: nat)
    requires i < len
    ensures PrevIndex(NextIndex(i, len), len) == i
  {
  }

  lemma NextUndoesPrev(i: nat, len: nat)
    requires i < len
    ensures NextIndex(PrevIndex(i, len), len) == i
  {
  }

  /** The position after `k` calls of `next`. */
  function Advance(i: nat, len: nat, k: nat): (r: nat)
    requires len > 0
    decreases k
  {
    if k == 0 then i else Advance(NextIndex(i, len), len, k - 1)
  }

  /** `a` steps followed by `b` steps are `a + b` steps. */
  lemma {:induction false} AdvanceCompose(i: nat, len: nat, a: nat, b: nat)
    requires len > 0
    ensures Advance(Advance(i, len, a), len, b) == Advance(i, len, a + b)
    decreases a
  {
    if a > 0 {
      AdvanceCompose(NextIndex(i, len), len, a - 1, b);
    }
  }

  /** Away from the end of the queue, `k` steps move `k` places. */
  lemma {:induction false} AdvanceWithin(i: nat, len: nat, k: nat)
    requires i + k < len
    ensures Advance(i, len, k) == i + k
    decreases k
  {
    if k > 0 {
      AdvanceWithin(i + 1, len, k - 1);
    }
  }

  /** From position `i`, `len - i` steps land on the first track. */
  lemma AdvanceToStart(i: nat, len: nat)
    requires i < len
    ensures Advance(i, len, len - i) == 0
  {
    AdvanceWithin(i, len, len - 1 - i);
    AdvanceCompose(i, len, len - 1 - i, 1);
  }

  /** Full-cycle law: `len` calls of `next` return to the starting position. */
  lemma FullCycle(i: nat, len: nat)
    requires i < len
    ensures Advance(i, len, len) == i
  {
    AdvanceToStart(i, len);
    AdvanceCompose(i, len, len - i, i);
    AdvanceWithin(0, len, i);
  }

  /** The audio element, reduced to its source locator and whether it is
      producing sound (last told to play and not stopped since). */
  datatype AudioOutput = AudioOutput(src: string, playing: bool)

  class Player {
    var tracks: seq<Track>
    var index: nat
    var isPlaying: bool
    var audio: AudioOutput
    /** The current track's URL as the source-sync step last saw it
        (`None`: there was no current track). */
    var syncedUrl: Option<string>

    /** `tracks[index]` is defined. */
    predicate HasCurrent()
      reads this
    {
      index < |tracks|
    }

    /** `current?.audio_url`. */
    function CurrentUrl(): Option<string>
      reads this
    {
      if index < |tracks| then Some(tracks[index].audioUrl) else None
    }

    /** The audio output holds the URL the source-sync step last loaded. */
    ghost predicate Valid()
      reads this
    {
      syncedUrl.Some? ==> audio.src == syncedUrl.value
    }

    /** Source-synchronisation: the output's source is the current track's URL. */
    ghost predicate Synced()
      reads this
    {
      Valid() && syncedUrl == CurrentUrl()
    }

    /** Mount: position 0, paused, a fresh audio output, and the first run of
        the source-sync step. */
    constructor (ts: seq<Track>)
      ensures Valid() && Synced()
      ensures tracks == ts && index == 0 && !isPlaying
      ensures audio == AudioOutput(if ts == [] then "" else ts[0].audioUrl, false)
    {
      tracks := ts;
      index := 0;
      isPlaying := false;
      audio := AudioOutput("", false);
      syncedUrl := None;
      new;
      SyncSource();
    }

    /** The queue handed to the controller changes (the catalog was loaded). */
    method SetQueue(ts: seq<Track>)
      requires Valid()
      modifies this`tracks
      ensures Valid()
      ensures tracks == ts
    {
      tracks := ts;
    }

    /** The source-sync effect: when `current?.audio_url` differs from what it
        last saw, load the current track's URL and resume only if playing.
        An unchanged URL reloads nothing. */
    method SyncSource()
      requires Valid()
      modifies this`audio, this`syncedUrl
      ensures Valid() && Synced()
      ensures old(CurrentUrl()) == old(syncedUrl) ==> audio == old(audio)
      ensures !HasCurrent() ==> audio == old(audio)
      ensures old(CurrentUrl()) != old(syncedUrl) && HasCurrent() ==>
        audio == AudioOutput(tracks[index].audioUrl, isPlaying)
    {
      var url := CurrentUrl();
      if url != syncedUrl {
        syncedUrl := url;
        if HasCurrent() {
          // assigning the source reloads the element, which stops it
          audio := AudioOutput(tracks[index].audioUrl, false);
          if isPlaying {
            audio := audio.(playing := true);
          }
        }
      }
    }

    /** `play`: nothing without a current track; otherwise the output is told
        to play and the intent becomes playing, whatever the output does. */
    method Play()
      requires Valid()
      modifies this`audio, this`isPlaying
      ensures Valid()
      ensures old(Synced()) ==> Synced()
      ensures HasCurrent() ==> isPlaying && audio == old(audio).(playing := true)
      ensures !HasCurrent() ==> isPlaying == old(isPlaying) && audio == old(audio)
    {
      if !HasCurrent() {
        return;
      }
      audio := audio.(playing := true);
      isPlaying := true;
    }

    /** `pause`: always stops the output and clears the intent. */
    method Pause()
      requires Valid()
      modifies this`audio, this`isPlaying
      ensures Valid()
      ensures old(Synced()) ==> Synced()
      ensures !isPlaying && audio == old(audio).(playing := false)
    {
      audio := audio.(playing := false);
      isPlaying := false;
    }

    /** `toggle`: `pause` when playing, else `play`. */
    method Toggle()
      requires Valid()
      modifies this`audio, this`isPlaying
      ensures Valid()
      ensures old(Synced()) ==> Synced()
      ensures isPlaying == (!old(isPlaying) && HasCurrent())
      ensures old(isPlaying) ==> audio == old(audio).(playing := false)
      ensures !old(isPlaying) && HasCurrent() ==> audio == old(audio).(playing := true)
      ensures !old(isPlaying) && !HasCurrent() ==> audio == old(audio)
    {
      if isPlaying {
        Pause();
      } else {
        Play();
      }
    }

    /** `next`: one place forward, wrapping from the last track to the first. */
    method Next()
      requires Valid() && |tracks| > 0
      modifies this`index
      ensures Valid()
      ensures index == NextIndex(old(index), |tracks|)
    {
      index := NextIndex(index, |tracks|);
    }

    /** `prev`: one place back, wrapping from the first track to the last. */
    method Prev()
      requires Valid() && |tracks| > 0
      modifies this`index
      ensures Valid()
      ensures index == PrevIndex(old(index), |tracks|)
    {
      index := PrevIndex(index, |tracks|);
    }

    /** `setIndex`: the caller picks a position inside the queue. */
    method SetIndex(i: nat)
      requires Valid() && i < |tracks|
      modifies this`index
      ensures Valid()
      ensures index == i
    {
      index := i;
    }

    /** The output's `ended` event: the output has stopped at the end of its
        source, and the listener runs the `next` transition; the play intent
        is kept. */
    method Ended()
      requires Valid() && |tracks| > 0
      modifies this`index, this`audio
      ensures Valid()
      ensures index == NextIndex(old(index), |tracks|)
      ensures isPlaying == old(isPlaying)
      ensures audio == old(audio).(playing := false)
    {
      audio := audio.(playing := false);
      Next();
    }
  }

  /** Three tracks, playing from the first; the end-of-track event fires twice. */
  method EndedTwiceKeepsPlaying(t0: Track, t1: Track, t2: Track)
    requires t0.audioUrl != t1.audioUrl && t1.audioUrl != t2.audioUrl
  {
    var p := new Player([t0, t1, t2]);
    p.Play();
    assert p.isPlaying;
    p.Ended();
    p.SyncSource();
    p.Ended();
    p.SyncSource();
    assert p.index == 2 && p.isPlaying;
    assert p.audio == AudioOutput(t2.audioUrl, true);
  }

  /** Selecting a track while paused loads its source and does not start it. */
  method SelectWhilePaused(t0: Track, t1: Track, t2: Track)
    requires t0.audioUrl != t1.audioUrl
  {
    var p := new Player([t0, t1, t2]);
    p.SetIndex(1);
    p.SyncSource();
    assert !p.isPlaying && p.audio == AudioOutput(t1.audioUrl, false);
  }

  /** With a single track, the model's end-of-track event (which runs `next`
      over the current queue) wraps to the same position; the URL is
      unchanged, so the source is not reloaded and the output stays stopped
      although the intent is still playing. */
  method SingleTrackEnds(t: Track)
  {
    var p := new Player([t]);
    p.Play();
    p.Ended();
    p.SyncSource();
    assert p.index == 0 && p.isPlaying && !p.audio.playing;
  }
}
