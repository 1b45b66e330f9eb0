/** The catalog loader (`load` in the app's mount effect) and the app state it
    fills: the track list, the search query and the loading indicator. */
module Loader {
  import opened Tracks
  import Search

  /** What `res.json()` yields: a list of tracks, or a failure to parse. */
  datatype Body = List(items: seq<Track>) | Unparsable

  datatype Reply = Reply(ok: bool, body: Body)

  /** The outcome of one `fetch`: a reply, or a thrown network error. */
  datatype Attempt = Answered(reply: Reply) | NetworkError

  /** An ok reply whose body is the empty list: the cue to seed. */
  predicate IsEmptyCatalog(a: Attempt) {
    a.Answered? && a.reply.ok && a.reply.body == List([])
  }

  /** A reply whose body parses. */
  predicate Readable(a: Attempt) {
    a.Answered? && a.reply.body.List?
  }

  class App {
    var tracks: seq<Track>
    var query: string
    var loading: bool
    /** Requests issued so far: `GET /tracks` and `POST /seed`. */
    var gets: nat
    var posts: nat

    constructor ()
      ensures tracks == [] && query == "" && loading
      ensures gets == 0 && posts == 0
    {
      tracks := [];
      query := "";
      loading := true;
      gets := 0;
      posts := 0;
    }

    /** The search box's view of the catalog. It is never longer than the
        catalog, so an index picked in it is an index into the catalog. */
    function Filtered(): (r: seq<Track>)
      reads this
      ensures |r| <= |tracks|
      ensures forall t :: t in r ==> t in tracks
    {
      Search.Filter(tracks, query)
    }

    method SetQuery(q: string)
      modifies this`query
      ensures query == q
    {
      query := q;
    }

    /** `load`: fetch the track list; an ok empty list triggers one seed POST
        and one refetch whose parsed body becomes the catalog; any other ok
        list becomes the catalog; a first reply that is not ok, an unparsable
        body or a thrown error leaves the catalog as it was (the refetch's ok
        flag is not checked). `first`, `seed` and
        `refetch` are what the network answers to the requests in order. */
    method Load(first: Attempt, seed: Attempt, refetch: Attempt)
      modifies this`tracks, this`loading, this`gets, this`posts
      ensures !loading
      ensures posts <= old(posts) + 1 && gets <= old(gets) + 2
      ensures posts == old(posts) + (if IsEmptyCatalog(first) then 1 else 0)
      ensures gets == old(gets) + (if IsEmptyCatalog(first) && seed.Answered? then 2 else 1)
      ensures IsEmptyCatalog(first) ==>
        tracks == if seed.Answered? && Readable(refetch) then refetch.reply.body.items else old(tracks)
      ensures !IsEmptyCatalog(first) ==>
        tracks == if Readable(first) && first.reply.ok then first.reply.body.items else old(tracks)
    {
      loading := true;
      gets := gets + 1;
      if first.Answered? && first.reply.ok {
        if first.reply.body.List? {
          var data := first.reply.body.items;
          if |data| == 0 {
            posts := posts + 1;
            // the seed reply is not inspected; only a thrown error stops here
            if seed.Answered? {
              gets := gets + 1;
              // the refetch's ok flag is not inspected either
              if refetch.Answered? && refetch.reply.body.List? {
                tracks := refetch.reply.body.items;
              }
            }
          } else {
            tracks := data;
          }
        }
      }
      loading := false;
    }
  }

  /** An empty catalog is seeded once and refetched once; the refetched list
      becomes the catalog and the indicator is cleared. */
  method EmptyCatalogIsSeeded(t0: Track)
  {
    var app := new App();
    app.Load(Answered(Reply(true, List([]))), Answered(Reply(true, Unparsable)),
             Answered(Reply(true, List([t0]))));
    assert app.tracks == [t0] && !app.loading;
    assert app.posts == 1 && app.gets == 2;
  }

  /** A refetch that is empty again is not retried: the catalog stays empty. */
  method EmptyAfterSeedIsFinal()
  {
    var app := new App();
    app.Load(Answered(Reply(true, List([]))), Answered(Reply(true, Unparsable)),
             Answered(Reply(true, List([]))));
    assert app.tracks == [] && !app.loading;
    assert app.posts == 1 && app.gets == 2;
  }
}
