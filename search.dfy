/** The search view over the catalog: the `filtered` memo of the app, an
    order-preserving filter on a case-insensitive substring match. */
module Search {
  import opened Tracks
  import opened Text

  /** What the search reads for the album: an absent album reads as "". */
  function AlbumText(t: Track): string {
    if t.album.Some? then t.album.value else ""
  }

  /** A track is kept when the folded query occurs in its folded title,
      artist or album text. */
  predicate Matches(t: Track, q: string) {
    var lq := Lower(q);
    Includes(Lower(t.title), lq) || Includes(Lower(t.artist), lq) || Includes(Lower(AlbumText(t)), lq)
  }

  /** The match stated as occurrences: the folded query occurs somewhere in
      the folded title, artist or album text. */
  lemma MatchesIffOccurs(t: Track, q: string)
    ensures Matches(t, q) <==>
      (exists i :: OccursAt(Lower(t.title), Lower(q), i)) ||
      (exists i :: OccursAt(Lower(t.artist), Lower(q), i)) ||
      (exists i :: OccursAt(Lower(AlbumText(t)), Lower(q), i))
  {
    IncludesIffOccurs(Lower(t.title), Lower(q));
    IncludesIffOccurs(Lower(t.artist), Lower(q));
    IncludesIffOccurs(Lower(AlbumText(t)), Lower(q));
  }

  /** `tracks.filter(t => ...)`: keeps the matching tracks, left to right. */
  function Filter(ts: seq<Track>, q: string): (r: seq<Track>)
    ensures |r| <= |ts|
    ensures forall t :: t in r <==> t in ts && Matches(t, q)
  {
    if ts == [] then []
    else
      var rest := Filter(ts[1..], q);
      assert forall t :: t in ts <==> t == ts[0] || t in ts[1..];
      if Matches(ts[0], q) then [ts[0]] + rest else rest
  }

  /** `idx` lists, in strictly increasing order, positions of `b` that spell out `a`. */
  predicate Embeds(idx: seq<nat>, a: seq<Track>, b: seq<Track>) {
    && |idx| == |a|
    && (forall k :: 0 <= k < |idx| ==> idx[k] < |b| && a[k] == b[idx[k]])
    && (forall k, l :: 0 <= k < l < |idx| ==> idx[k] < idx[l])
  }

  ghost predicate IsSubsequence(a: seq<Track>, b: seq<Track>) {
    exists idx :: Embeds(idx, a, b)
  }

  function Shift(idx: seq<nat>): (r: seq<nat>)
    ensures |r| == |idx| && forall k :: 0 <= k < |idx| ==> r[k] == idx[k] + 1
  {
    seq(|idx|, k requires 0 <= k < |idx| => idx[k] + 1)
  }

  /** An embedding into the tail of `b` is one into `b`, one place further on. */
  lemma EmbedsSkip(idx: seq<nat>, a: seq<Track>, b: seq<Track>)
    requires b != [] && Embeds(idx, a, b[1..])
    ensures Embeds(Shift(idx), a, b)
  {
  }

  /** ... and it extends to `b[0]` placed in front of `a`. */
  lemma EmbedsKeep(idx: seq<nat>, a: seq<Track>, b: seq<Track>)
    requires b != [] && Embeds(idx, a, b[1..])
    ensures Embeds([0] + Shift(idx), [b[0]] + a, b)
  {
    EmbedsSkip(idx, a, b);
  }

  /** The filtered view keeps the catalog's order: it is a subsequence of it. */
  lemma {:induction false} FilterIsSubsequence(ts: seq<Track>, q: string)
    ensures IsSubsequence(Filter(ts, q), ts)
  {
    if ts == [] {
      assert Embeds([], Filter(ts, q), ts);
    } else {
      FilterIsSubsequence(ts[1..], q);
      var rest := Filter(ts[1..], q);
      var idx :| Embeds(idx, rest, ts[1..]);
      if Matches(ts[0], q) {
        EmbedsKeep(idx, rest, ts);
        assert Embeds([0] + Shift(idx), Filter(ts, q), ts);
      } else {
        EmbedsSkip(idx, rest, ts);
        assert Embeds(Shift(idx), Filter(ts, q), ts);
      }
    }
  }

  /** Every occurrence of a matching track is kept and no other track is:
      the filtered view holds each track as often as the catalog does when
      it matches, and never when it does not. */
  lemma {:induction false} FilterCounts(ts: seq<Track>, q: string, t: Track)
    ensures multiset(Filter(ts, q))[t] == if Matches(t, q) then multiset(ts)[t] else 0
  {
    if ts != [] {
      FilterCounts(ts[1..], q, t);
      assert ts == [ts[0]] + ts[1..];
      assert multiset(ts) == multiset([ts[0]]) + multiset(ts[1..]);
      if Matches(ts[0], q) {
        assert Filter(ts, q) == [ts[0]] + Filter(ts[1..], q);
        assert multiset(Filter(ts, q)) == multiset([ts[0]]) + multiset(Filter(ts[1..], q));
      }
    }
  }

  /** Every track matches the empty query. */
  lemma EmptyQueryMatches(t: Track)
    ensures Matches(t, "")
  {
  }

  /** An empty query leaves the catalog as it is. */
  lemma {:induction false} FilterEmptyQuery(ts: seq<Track>)
    ensures Filter(ts, "") == ts
  {
    if ts != [] {
      EmptyQueryMatches(ts[0]);
      FilterEmptyQuery(ts[1..]);
    }
  }

  /** Filtering the filtered view again with the same query changes nothing. */
  lemma {:induction false} FilterIdempotent(ts: seq<Track>, q: string)
    ensures Filter(Filter(ts, q), q) == Filter(ts, q)
  {
    if ts != [] {
      FilterIdempotent(ts[1..], q);
      if Matches(ts[0], q) {
        var r := Filter(ts, q);
        assert r == [ts[0]] + Filter(ts[1..], q);
        assert r[1..] == Filter(ts[1..], q);
      }
    }
  }

  /** The match is case-insensitive: queries that differ only in the case of
      their letters select the same tracks. */
  lemma {:induction false} FilterIgnoresCase(ts: seq<Track>, q1: string, q2: string)
    requires SameUpToCase(q1, q2)
    ensures Filter(ts, q1) == Filter(ts, q2)
  {
    LowerEqIffSameUpToCase(q1, q2);
    if ts != [] {
      FilterIgnoresCase(ts[1..], q1, q2);
    }
  }

  /** A query and its lower-case select the same tracks. */
  lemma FilterFoldedQuery(ts: seq<Track>, q: string)
    ensures Filter(ts, q) == Filter(ts, Lower(q))
  {
    LowerIdempotent(q);
    LowerEqIffSameUpToCase(q, Lower(q));
    FilterIgnoresCase(ts, q, Lower(q));
  }

  /** A title "Blue Monday" is found by "blue", "BLUE" and "Mon". */
  lemma BlueMondayIsFound(t: Track)
    requires t.title == "Blue Monday"
    ensures Matches(t, "blue") && Matches(t, "BLUE") && Matches(t, "Mon")
  {
    var lt := Lower(t.title);
    assert lt == "blue monday";
    assert Lower("blue") == "blue" && Lower("BLUE") == "blue" && Lower("Mon") == "mon";
    assert OccursAt(lt, "blue", 0);
    assert OccursAt(lt, "mon", 5);
    IncludesIffOccurs(lt, "blue");
    IncludesIffOccurs(lt, "mon");
  }
}
