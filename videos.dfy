/** Rows of the `videos` and `watch_histories` tables, and the query shapes
    the backend runs over them: filter, then `limit`. */
module Videos {
  import opened Wrappers

  /** A row of `videos`. A NULL `board` or `topic` is the empty string: every
      use of those columns treats NULL and "" alike (both are falsy and
      neither equals a non-empty keyword). */
  datatype Video = Video(id: int, title: string, description: string, tags: string, board: string, topic: string)

  /** A row of `watch_histories`; `progress` and `focus` are nullable. */
  datatype WatchEntry = WatchEntry(userId: int, videoId: int, progress: Option<real>, focus: Option<real>)

  /** Primary keys: no two rows share an id. */
  predicate UniqueIds(vs: seq<Video>) {
    forall i, j :: 0 <= i < j < |vs| ==> vs[i].id != vs[j].id
  }

  function IdSet(vs: seq<Video>): set<int> {
    set v | v in vs :: v.id
  }

  /** `[v for _, v in ps]`: the videos of a list of `(score, video)` pairs, in order. */
  function VideosOf<S>(ps: seq<(S, Video)>): (vs: seq<Video>)
    ensures |vs| == |ps|
    ensures forall i :: 0 <= i < |ps| ==> vs[i] == ps[i].1
  {
    seq(|ps|, i requires 0 <= i < |ps| => ps[i].1)
  }

  /** `query.limit(n)`: SQLite reads a negative limit as no limit. */
  function Take<T>(s: seq<T>, n: int): (r: seq<T>)
    ensures r <= s
    ensures n < 0 ==> r == s
    ensures n >= 0 ==> |r| <= n && (|r| == n || r == s)
  {
    if n < 0 || n >= |s| then s else s[..n]
  }

  /** Python's `s[:k]`: a negative `k` counts from the end. */
  function Prefix<T>(s: seq<T>, k: int): (r: seq<T>)
    ensures r <= s
    ensures k >= 0 ==> |r| == if k <= |s| then k else |s|
    ensures k < 0 ==> |r| == if |s| + k >= 0 then |s| + k else 0
  {
    if k >= 0 then (if k <= |s| then s[..k] else s)
    else (if |s| + k >= 0 then s[..|s| + k] else [])
  }

  /** `filter(p)` over the rows, keeping their order. */
  function FilterVideos(vs: seq<Video>, p: Video -> bool): (r: seq<Video>)
    ensures |r| <= |vs|
    ensures forall v :: v in r <==> v in vs && p(v)
  {
    if vs == [] then []
    else
      var rest := FilterVideos(vs[1..], p);
      assert vs == [vs[0]] + vs[1..];
      if p(vs[0]) then [vs[0]] + rest else rest
  }

  /** `Video.query.filter_by(id=id).first()` */
  function Lookup(catalog: seq<Video>, id: int): (r: Option<Video>)
    ensures r.Some? ==> r.value.id == id
  {
    if catalog == [] then None
    else if catalog[0].id == id then Some(catalog[0])
    else Lookup(catalog[1..], id)
  }

  /** The row found is a row of the table, and there is one exactly when some
      row carries the id. */
  lemma {:induction false} LookupFound(catalog: seq<Video>, id: int)
    ensures Lookup(catalog, id).Some? ==> Lookup(catalog, id).value in catalog
    ensures Lookup(catalog, id).None? <==> id !in IdSet(catalog)
  {
    if catalog != [] && catalog[0].id != id {
      LookupFound(catalog[1..], id);
      assert catalog == [catalog[0]] + catalog[1..];
    }
  }

  lemma TakeUnique(vs: seq<Video>, n: int)
    requires UniqueIds(vs)
    ensures UniqueIds(Take(vs, n))
  {
  }

  /** Filtering keeps the rows in order, so their ids stay distinct. */
  lemma {:induction false} FilterUnique(vs: seq<Video>, p: Video -> bool)
    requires UniqueIds(vs)
    ensures UniqueIds(FilterVideos(vs, p))
  {
    if vs != [] {
      FilterUnique(vs[1..], p);
      var rest := FilterVideos(vs[1..], p);
      if p(vs[0]) {
        forall k | 0 <= k < |rest| ensures rest[k].id != vs[0].id {
          assert rest[k] in vs[1..];
        }
      }
    }
  }

  /** In a table with unique ids, the row found for an id is the only row
      carrying it. */
  lemma LookupUnique(catalog: seq<Video>, v: Video)
    requires UniqueIds(catalog) && v in catalog
    ensures Lookup(catalog, v.id) == Some(v)
  {
    var r := Lookup(catalog, v.id);
    LookupFound(catalog, v.id);
    var i :| 0 <= i < |catalog| && catalog[i] == v;
    var j :| 0 <= j < |catalog| && catalog[j] == r.value;
    assert i == j;
  }

  lemma IdSetAppend(vs: seq<Video>, ws: seq<Video>)
    ensures IdSet(vs + ws) == IdSet(vs) + IdSet(ws)
  {
    assert forall v :: v in vs + ws <==> v in vs || v in ws;
  }

  lemma IdSetSnoc(vs: seq<Video>, v: Video)
    ensures IdSet(vs + [v]) == IdSet(vs) + {v.id}
  {
    IdSetAppend(vs, [v]);
    assert IdSet([v]) == {v.id};
  }

  /** Two id-unique lists with no id in common concatenate to an id-unique
      list. */
  lemma UniqueAppend(vs: seq<Video>, ws: seq<Video>)
    requires UniqueIds(vs) && UniqueIds(ws)
    requires forall w :: w in ws ==> w.id !in IdSet(vs)
    ensures UniqueIds(vs + ws)
  {
    var s := vs + ws;
    forall i, j | 0 <= i < j < |s| ensures s[i].id != s[j].id {
      if i < |vs| && j >= |vs| {
        assert s[j] in ws;
        assert s[i] in vs;
      }
    }
  }
}
