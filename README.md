# Music player core: playback controller, catalog loader, search filter

A Dafny model of the logic inside `src/App.jsx` of a browser music player. The
React component and the browser are abstracted away. Three pieces remain.

- **Playback controller** (`useAudioPlayer`, module `Playback`). The class
  `Player` holds the queue `tracks`, the position `index`, the play intent
  `isPlaying`, and the audio element. The element is reduced to a record
  `AudioOutput(src, playing)`. Transport operations (`Play`, `Pause`, `Toggle`,
  `Next`, `Prev`, `SetIndex`) and the element's `ended` event (`Ended`) are
  methods. The source-sync effect is the method `SyncSource`, which a caller
  runs after the position or the queue changes. The field `syncedUrl` records
  the current track's URL as the effect last saw it. This is the value React
  compares to decide whether the effect runs again.
- **Search filter** (the `filtered` memo, module `Search`). `Filter` is a pure,
  order-preserving filter. A track is kept when the lower-cased query occurs
  in its lower-cased title, artist or album. A missing album reads as `""`.
  Module `Text` holds the case folding and the substring test.
- **Catalog loader** (`load`, module `Loader`). The class `App` holds the
  catalog `tracks`, the `query`, the `loading` indicator, and counters of
  `GET /tracks` and `POST /seed` requests. `Load` receives the network's
  answer to each request in order as a parameter: the first GET, the seed
  POST, and the refetch GET. Each answer is a reply or a thrown error.

The model follows the code in three places where a reader might expect
something else:

- `setIndex` has no bounds check. One might expect an out-of-range selection
  to be rejected; the code stores it unchecked. The model puts the bound in
  `SetIndex`'s precondition.
- With a single-track queue, `next` keeps position 0, and so does the model's
  `Ended`, which runs `next` over the current queue. The URL does not change,
  so the source-sync effect does not run and nothing restarts the track.
  `SingleTrackEnds` shows this: the intent stays playing and the output stays
  stopped. The code's `ended` listener does not behave like this at first.
  The listener installed at mount holds the mount-time queue, which is empty,
  and it is replaced only when the index changes. With one track, `next`,
  `prev` and a click on the only card all give 0, so the index never changes
  and that listener is still in place when the track first ends. It then
  computes `% 0`: the index becomes NaN and no track is current. A click on
  the card afterwards moves the index from NaN to 0 and re-registers the
  listener over the loaded queue; from then on the code behaves as
  `SingleTrackEnds` shows (see "## Left out").
- The refetch after seeding never checks the reply's `ok` flag. Any parsable
  list it returns becomes the catalog. The seed reply is not inspected at all.

## Model

| member | source | states |
|---|---|---|
| Text.Lower | src/App.jsx:76-80 | lower-casing keeps the length, turns each ASCII capital into its small letter (code point + 32), and leaves every other character as it is |
| Text.LowerEqIffSameUpToCase | src/App.jsx:76-80 | two strings lower-case to the same text exactly when they have the same length and each pair of characters is equal or an ASCII capital and its small letter |
| Text.LowerIdempotent | src/App.jsx:76-80 | lower-casing an already lower-cased string changes nothing |
| Text.LowerFixedPoints | src/App.jsx:76-80 | a string is its own lower-case exactly when it has no upper-case letter |
| Text.IncludesIffOccurs | src/App.jsx:78-80 | the left-to-right `includes` scan succeeds exactly when the needle occurs at some position of the haystack |
| Text.IncludesEmpty | src/App.jsx:78-80 | the empty string is included in every string |
| Search.MatchesIffOccurs | src/App.jsx:76-80 | a track matches exactly when the folded query occurs in its folded title, artist, or album (absent album read as "") |
| Search.Filter | src/App.jsx:75-82 | the view is no longer than the catalog and holds a track exactly when the catalog holds it and it matches the query |
| Search.FilterIsSubsequence | src/App.jsx:77-81 | the view is a subsequence of the catalog: its tracks sit at strictly increasing catalog positions |
| Search.FilterCounts | src/App.jsx:77-81 | each matching track appears in the view exactly as often as in the catalog; a non-matching track never appears |
| Search.EmptyQueryMatches | src/App.jsx:76-80 | every track matches the empty query |
| Search.FilterEmptyQuery | src/App.jsx:75-82 | the empty query returns the catalog unchanged |
| Search.FilterIdempotent | src/App.jsx:75-82 | filtering the view again with the same query returns the same view |
| Search.FilterIgnoresCase | src/App.jsx:76-80 | two queries that differ only in the case of their letters select the same view |
| Search.FilterFoldedQuery | src/App.jsx:76 | a query and its lower-case select the same view |
| Search.BlueMondayIsFound | src/App.jsx:76-80 | a track titled "Blue Monday" matches "blue", "BLUE" and "Mon" |
| Playback.NextIndex | src/App.jsx:37 | the next position lies in [0, len); inside the queue it is one further, and the last position wraps to 0 (so len 1 keeps 0) |
| Playback.PrevIndex | src/App.jsx:38 | the previous position lies in [0, len); inside the queue it is one back, and 0 wraps to len - 1 |
| Playback.PrevUndoesNext | src/App.jsx:37-38 | `prev` after `next` restores every in-range position |
| Playback.NextUndoesPrev | src/App.jsx:37-38 | `next` after `prev` restores every in-range position |
| Playback.AdvanceCompose | src/App.jsx:37 | `a` calls of `next` followed by `b` calls equal `a + b` calls |
| Playback.AdvanceWithin | src/App.jsx:37 | while the end is not passed, `k` calls of `next` move exactly `k` places |
| Playback.AdvanceToStart | src/App.jsx:37 | from position `i`, `len - i` calls of `next` land on position 0 |
| Playback.FullCycle | src/App.jsx:37 | `len` calls of `next` return to the starting position |
| Playback.Player.constructor | src/App.jsx:7-9 | mount: position 0, not playing, a fresh output, whose source after the first sync is the first track's URL (or empty with no tracks) |
| Playback.Player.SetQueue | src/App.jsx:47 | the controller's queue becomes the given catalog; position, intent and output are untouched |
| Playback.Player.SyncSource | src/App.jsx:19-24 | afterwards the output's source is the current track's URL; on a URL change it is reloaded and plays exactly when the intent is playing; an unchanged URL or no current track leaves the output alone |
| Playback.Player.Play | src/App.jsx:26-31 | with no current track nothing changes; otherwise the output is told to play and the intent becomes playing |
| Playback.Player.Pause | src/App.jsx:32-35 | the output stops and the intent becomes paused, always |
| Playback.Player.Toggle | src/App.jsx:36 | the new intent is playing exactly when it was paused and there is a current track; the output follows `pause` or `play` accordingly |
| Playback.Player.Next | src/App.jsx:37 | the position becomes `NextIndex` of the old one; nothing else changes |
| Playback.Player.Prev | src/App.jsx:38 | the position becomes `PrevIndex` of the old one; nothing else changes |
| Playback.Player.SetIndex | src/App.jsx:40 | the position becomes the selected in-range index; intent and output are untouched until the sync |
| Playback.Player.Ended | src/App.jsx:14 | the end-of-track event performs the `next` transition, keeps the play intent, and leaves the output stopped on its old source |
| Loader.App.constructor | src/App.jsx:44-46 | initial app state: empty catalog, empty query, loading, no requests made |
| Loader.App.Filtered | src/App.jsx:75-82 | the app's search view is no longer than the catalog and holds only catalog tracks, so an index picked in it (src/App.jsx:118) is in range for the controller's queue |
| Loader.App.SetQuery | src/App.jsx:102 | the query becomes the typed text |
| Loader.App.Load | src/App.jsx:50-71 | loading is cleared on every exit; at most one seed POST and two GETs; an ok empty list leads to seed and refetch, whose parsable body becomes the catalog; an ok non-empty list becomes the catalog; a first reply that is not ok, an unparsable body or a thrown step leaves the catalog unchanged (a refetch that is not ok but carries a parsable list does become the catalog) |

## Left out

- Rendering, styling and icons (src/App.jsx:84-161): presentation only.
- React scheduling: when effects and memos run, dependency arrays, and re-render
  order. The effects are explicit method calls (`SyncSource`, `Load`). The caller
  decides when to run them.
- Listener registration (src/App.jsx:12-17): the `ended` listener is re-registered
  only when `index` changes, so its `next` uses the queue length of that render.
  `Player.Ended` uses the current queue. After the catalog first loads, a track
  that ends before the position ever changed would compute `% 0` in the code;
  the model does not capture this stale closure.
- `fetch`, `res.json()`, the `API_BASE` lookup and `console.error`: the network is
  the three `Attempt` parameters of `Load`, and logging is dropped.
- A response body that parses to JSON other than an array is not modelled: the
  code would store it as the catalog. `Body` is a list of tracks or unparsable.
- A track without `audio_url` is not modelled: `Track.audioUrl` is always present.
- The audio element's internals and the asynchronous `play()` promise: `playing`
  records that the element was told to play. Assigning a source reloads the
  element, which stops it; reaching the end stops it.
- Unicode `toLowerCase`: `Text.Lower` folds ASCII letters only.
- `Next`, `Prev`, `Ended` on an empty queue: the code computes `% 0` (NaN); the
  methods require a non-empty queue.
- `SetIndex` with an out-of-range index: the code stores it unchecked; the method
  requires an in-range index.
- The click handler passes an index into the filtered view (src/App.jsx:118), while
  the controller's queue is the full catalog (src/App.jsx:47). The model keeps the
  controller on the full catalog, as the code does.
