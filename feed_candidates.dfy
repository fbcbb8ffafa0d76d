/** Steps 3 and 4 of the personalised feed: candidates gathered from the
    top-topic query and one query per tendency keyword, then scored with
    integers and ranked by a stable descending sort. */
module FeedCandidates {
  import opened Wrappers
  import opened Dicts
  import opened Text
  import opened Sorting
  import opened Videos

  // ---------------------------------------------------------------------
  // The two queries

  /** `Video.topic == top_topic, ~Video.id.in_(watched_video_ids)` */
  function TopicFilter(top: string, watched: set<int>): Video -> bool {
    (v: Video) => v.topic == top && v.id !in watched
  }

  /** The top-topic query, limited to `3 * limit` rows. */
  function TopicQuery(catalog: seq<Video>, top: string, watched: set<int>, limit: int): (r: seq<Video>)
    ensures forall v :: v in r ==> v in catalog && v.topic == top && v.id !in watched
  {
    var f := FilterVideos(catalog, TopicFilter(top, watched));
    var r := Take(f, 3 * limit);
    assert forall v :: v in r ==> v in f;
    r
  }

  /** One keyword's `or_(...)`: a case-insensitive `LIKE '%kw%'` on tags,
      title or description, or an exact match of board or topic. */
  predicate KeywordMatch(v: Video, kw: string) {
    || Contains(Lower(v.tags), Lower(kw))
    || Contains(Lower(v.title), Lower(kw))
    || Contains(Lower(v.description), Lower(kw))
    || v.board == kw
    || v.topic == kw
  }

  function KeywordFilter(kw: string, watched: set<int>): Video -> bool {
    (v: Video) => KeywordMatch(v, kw) && v.id !in watched
  }

  /** One keyword's query, limited to 10 rows. */
  function KeywordQuery(catalog: seq<Video>, kw: string, watched: set<int>): (r: seq<Video>)
    ensures |r| <= 10
    ensures forall v :: v in r ==> v in catalog && KeywordMatch(v, kw) && v.id !in watched
  {
    Take(FilterVideos(catalog, KeywordFilter(kw, watched)), 10)
  }

  // ---------------------------------------------------------------------
  // `add_candidates`

  /** The candidates: video id to (video, base score), in first-seen order. */
  type Candidates = Dict<int, (Video, int)>

  /** `candidates.get(id, (None, 0))[1]` */
  function BaseOf(c: Candidates, id: int): int {
    if id in c.values then c.values[id].1 else 0
  }

  /** One iteration of `add_candidates`: a watched video is skipped, any
      other keeps the larger of its old and the new base score. */
  function AddOne(c: Candidates, vid: Video, base: int, watched: set<int>): (r: Candidates)
    requires Valid(c)
    ensures Valid(r)
  {
    if vid.id in watched then c
    else Put(c, vid.id, (vid, if BaseOf(c, vid.id) >= base then BaseOf(c, vid.id) else base))
  }

  function AddAll(c: Candidates, objs: seq<Video>, base: int, watched: set<int>): (r: Candidates)
    requires Valid(c)
    ensures Valid(r)
  {
    if objs == [] then c
    else AddOne(AddAll(c, objs[..|objs| - 1], base, watched), objs[|objs| - 1], base, watched)
  }

  /** `add_candidates(objs, base_score)` */
  method AddCandidates(c: Candidates, objs: seq<Video>, base: int, watched: set<int>) returns (r: Candidates)
    requires Valid(c)
    ensures r == AddAll(c, objs, base, watched)
  {
    r := c;
    var i := 0;
    while i < |objs|
      invariant 0 <= i <= |objs|
      invariant r == AddAll(c, objs[..i], base, watched)
    {
      var vid := objs[i];
      assert objs[..i + 1][..i] == objs[..i];
      if vid.id !in watched {
        var score := BaseOf(r, vid.id);
        r := Put(r, vid.id, (vid, if score >= base then score else base));
      }
      i := i + 1;
    }
    assert objs[..i] == objs;
  }

  /** Every stored video carries the id it is stored under. */
  ghost predicate Coherent(c: Candidates) {
    forall id :: id in c.values ==> c.values[id].0.id == id
  }

  /** After `add_candidates`, an id is a candidate when it was one or is an
      unwatched id of `objs`; its base is then the larger of the old base and
      the new one. */
  lemma {:induction false} AddAllGet(c: Candidates, objs: seq<Video>, base: int, watched: set<int>, id: int)
    requires Valid(c)
    ensures var r := AddAll(c, objs, base, watched);
      && (id in r.values <==> id in c.values || (id in IdSet(objs) && id !in watched))
      && BaseOf(r, id) == (if id in IdSet(objs) && id !in watched then Max(BaseOf(c, id), base) else BaseOf(c, id))
      && (Coherent(c) ==> Coherent(r))
  {
    if objs != [] {
      var init := objs[..|objs| - 1];
      var last := objs[|objs| - 1];
      AddAllGet(c, init, base, watched, id);
      assert IdSet(objs) == IdSet(init) + {last.id} by {
        assert objs == init + [last];
      }
      if Coherent(c) {
        AddAllGet(c, init, base, watched, last.id);
      }
    }
  }

  function Max(a: int, b: int): int {
    if a >= b then a else b
  }

  // ---------------------------------------------------------------------
  // Gathering the candidates

  /** The top-topic seeds: none when there is no top topic. */
  function TopicSeeds(catalog: seq<Video>, watched: set<int>, top: Option<string>, limit: int): seq<Video> {
    if top.Some? && top.value != [] then TopicQuery(catalog, top.value, watched, limit) else []
  }

  /** The keyword loop: each keyword's rows added with base score 3. */
  function KeywordPass(c: Candidates, catalog: seq<Video>, watched: set<int>, kws: seq<string>): (r: Candidates)
    requires Valid(c)
    ensures Valid(r)
  {
    if kws == [] then c
    else AddAll(KeywordPass(c, catalog, watched, kws[..|kws| - 1]), KeywordQuery(catalog, kws[|kws| - 1], watched), 3, watched)
  }

  /** `kw_to_vids` */
  function KwToVids(catalog: seq<Video>, watched: set<int>, kws: seq<string>): (r: Dict<string, seq<Video>>)
    ensures Valid(r)
  {
    if kws == [] then Empty()
    else
      var kw := kws[|kws| - 1];
      Put(KwToVids(catalog, watched, kws[..|kws| - 1]), kw, KeywordQuery(catalog, kw, watched))
  }

  /** The candidate dict after both passes. */
  function AllCandidates(catalog: seq<Video>, watched: set<int>, top: Option<string>, kws: seq<string>, limit: int): (r: Candidates)
    ensures Valid(r)
  {
    KeywordPass(AddAll(Empty(), TopicSeeds(catalog, watched, top, limit), 5, watched), catalog, watched, kws)
  }

  /** Step 3: the two queries and `add_candidates`. */
  method CollectCandidates(catalog: seq<Video>, watched: set<int>, top: Option<string>, kws: seq<string>, limit: int)
    returns (candidates: Candidates, kwToVids: Dict<string, seq<Video>>)
    ensures candidates == AllCandidates(catalog, watched, top, kws, limit)
    ensures kwToVids == KwToVids(catalog, watched, kws)
  {
    candidates := Empty();
    if top.Some? && top.value != [] {
      var topicVideos := TopicQuery(catalog, top.value, watched, limit);
      candidates := AddCandidates(candidates, topicVideos, 5, watched);
    } else {
      candidates := AddCandidates(candidates, [], 5, watched);
    }
    candidates, kwToVids := KeywordCandidates(candidates, catalog, watched, kws);
  }

  /** The keyword loop of step 3, from the seeded dict. */
  method KeywordCandidates(seeded: Candidates, catalog: seq<Video>, watched: set<int>, kws: seq<string>)
    returns (candidates: Candidates, kwToVids: Dict<string, seq<Video>>)
    requires Valid(seeded)
    ensures candidates == KeywordPass(seeded, catalog, watched, kws)
    ensures kwToVids == KwToVids(catalog, watched, kws)
  {
    candidates := seeded;
    kwToVids := Empty();
    var i := 0;
    while i < |kws|
      invariant 0 <= i <= |kws|
      invariant Valid(candidates)
      invariant candidates == KeywordPass(seeded, catalog, watched, kws[..i])
      invariant kwToVids == KwToVids(catalog, watched, kws[..i])
    {
      var kw := kws[i];
      assert kws[..i + 1][..i] == kws[..i];
      var kwVideos := KeywordQuery(catalog, kw, watched);
      candidates := AddCandidates(candidates, kwVideos, 3, watched);
      kwToVids := Put(kwToVids, kw, kwVideos);
      i := i + 1;
    }
    assert kws[..i] == kws;
  }

  /** Whether some keyword's query returned the id. */
  predicate KeywordHit(catalog: seq<Video>, watched: set<int>, kws: seq<string>, id: int) {
    kws != [] &&
    (KeywordHit(catalog, watched, kws[..|kws| - 1], id) || id in IdSet(KeywordQuery(catalog, kws[|kws| - 1], watched)))
  }

  lemma {:induction false} KeywordPassGet(c: Candidates, catalog: seq<Video>, watched: set<int>, kws: seq<string>, id: int)
    requires Valid(c)
    ensures var r := KeywordPass(c, catalog, watched, kws);
      && (id in r.values <==> id in c.values || (KeywordHit(catalog, watched, kws, id) && id !in watched))
      && BaseOf(r, id) == (if KeywordHit(catalog, watched, kws, id) && id !in watched then Max(BaseOf(c, id), 3) else BaseOf(c, id))
      && (Coherent(c) ==> Coherent(r))
  {
    if kws != [] {
      var init := kws[..|kws| - 1];
      KeywordPassGet(c, catalog, watched, init, id);
      var prev := KeywordPass(c, catalog, watched, init);
      AddAllGet(prev, KeywordQuery(catalog, kws[|kws| - 1], watched), 3, watched, id);
    }
  }

  /** Watched ids never become candidates; a candidate's base score is the
      largest of its seeds (5 from the top-topic query, 3 from a keyword
      query), never their sum; each stored video carries its own id. */
  lemma CandidateBase(catalog: seq<Video>, watched: set<int>, top: Option<string>, kws: seq<string>, limit: int, id: int)
    ensures var c := AllCandidates(catalog, watched, top, kws, limit);
      var topical := id in IdSet(TopicSeeds(catalog, watched, top, limit));
      && (id in c.values <==> id !in watched && (topical || KeywordHit(catalog, watched, kws, id)))
      && (id in c.values ==> c.values[id].1 == (if topical then 5 else 3))
      && Coherent(c)
  {
    var seeds := TopicSeeds(catalog, watched, top, limit);
    var c0: Candidates := Empty();
    AddAllGet(c0, seeds, 5, watched, id);
    var c1 := AddAll(c0, seeds, 5, watched);
    KeywordPassGet(c1, catalog, watched, kws, id);
    forall v | v in seeds ensures v.id !in watched {
    }
  }

  /** `kw_to_vids.get(kw)` is that keyword's query result, or nothing for a
      keyword that is not in the list. */
  lemma {:induction false} KwToVidsGet(catalog: seq<Video>, watched: set<int>, kws: seq<string>, kw: string)
    ensures Get(KwToVids(catalog, watched, kws), kw) == if kw in kws then Some(KeywordQuery(catalog, kw, watched)) else None
  {
    if kws != [] {
      var init := kws[..|kws| - 1];
      KwToVidsGet(catalog, watched, init, kw);
      assert kws == init + [kws[|kws| - 1]];
    }
  }

  // ---------------------------------------------------------------------
  // Scoring

  /** `sum(1 for kw in tendency_keywords if kw in tags_lower or kw == bt or kw == tp)` */
  function MatchCount(v: Video, kws: seq<string>): (n: nat)
    ensures n <= |kws|
  {
    if kws == [] then 0
    else
      var kw := kws[|kws| - 1];
      MatchCount(v, kws[..|kws| - 1])
      + (if Contains(Lower(v.tags), kw) || kw == Lower(v.board) || kw == Lower(v.topic) then 1 else 0)
  }

  /** The score of one candidate: its base, 2 more for the top topic, and
      up to 3 more for keyword matches. */
  function Score(v: Video, base: int, top: Option<string>, kws: seq<string>): (s: int)
    ensures base <= s <= base + 5
    ensures kws == [] ==> s == base || s == base + 2
  {
    base
    + (if top.Some? && top.value != [] && v.topic == top.value then 2 else 0)
    + (if kws != [] then (if MatchCount(v, kws) <= 3 then MatchCount(v, kws) else 3) else 0)
  }

  /** `scored`: one `(score, video)` pair per candidate, in dict order. */
  function ScoredSpec(c: Candidates, ids: seq<int>, top: Option<string>, kws: seq<string>): (r: seq<(int, Video)>)
    requires forall id :: id in ids ==> id in c.values
    ensures |r| == |ids|
  {
    if ids == [] then []
    else
      var id := ids[|ids| - 1];
      ScoredSpec(c, ids[..|ids| - 1], top, kws) + [(Score(c.values[id].0, c.values[id].1, top, kws), c.values[id].0)]
  }

  /** The scoring loop over `candidates.values()`. */
  method ScoreCandidates(c: Candidates, top: Option<string>, kws: seq<string>) returns (scored: seq<(int, Video)>)
    requires Valid(c)
    ensures scored == ScoredSpec(c, c.keys, top, kws)
  {
    scored := [];
    var i := 0;
    while i < |c.keys|
      invariant 0 <= i <= |c.keys|
      invariant scored == ScoredSpec(c, c.keys[..i], top, kws)
    {
      var (vid, base) := c.values[c.keys[i]];
      assert c.keys[..i + 1][..i] == c.keys[..i];
      scored := scored + [(Score(vid, base, top, kws), vid)];
      i := i + 1;
    }
    assert c.keys[..i] == c.keys;
  }

  function ScoreKey(p: (int, Video)): real {
    p.0 as real
  }

  function PairId(p: (int, Video)): int {
    p.1.id
  }

  /** `scored.sort(key=lambda x: x[0], reverse=True)` */
  function Ranked(c: Candidates, top: Option<string>, kws: seq<string>): seq<(int, Video)>
    requires Valid(c)
  {
    SortDesc(ScoredSpec(c, c.keys, top, kws), ScoreKey)
  }

  lemma {:induction false} ScoredSpecPairs(c: Candidates, ids: seq<int>, top: Option<string>, kws: seq<string>)
    requires forall id :: id in ids ==> id in c.values
    ensures forall k :: 0 <= k < |ids| ==>
      ScoredSpec(c, ids, top, kws)[k] == (Score(c.values[ids[k]].0, c.values[ids[k]].1, top, kws), c.values[ids[k]].0)
  {
    if ids != [] {
      ScoredSpecPairs(c, ids[..|ids| - 1], top, kws);
    }
  }

  /** The ranked list holds one pair per candidate: distinct ids, each with
      its stored video and the score of that video, highest scores first. */
  lemma RankedPairs(c: Candidates, top: Option<string>, kws: seq<string>)
    requires Valid(c) && Coherent(c)
    ensures var r := Ranked(c, top, kws);
      && Descending(r, ScoreKey)
      && DistinctBy(r, PairId)
      && (forall p :: p in r ==>
            && p.1.id in c.values && p.1 == c.values[p.1.id].0
            && p.0 == Score(p.1, c.values[p.1.id].1, top, kws))
      && (forall id :: id in c.values ==> exists p :: p in r && p.1.id == id)
  {
    var s := ScoredSpec(c, c.keys, top, kws);
    var r := Ranked(c, top, kws);
    ScoredFacts(c, top, kws);
    SortDescDistinct(s, ScoreKey, PairId);
    forall p | p in r
      ensures p.1.id in c.values && p.1 == c.values[p.1.id].0 && p.0 == Score(p.1, c.values[p.1.id].1, top, kws)
    {
      assert p in multiset(s);
    }
    forall id | id in c.values ensures exists p :: p in r && p.1.id == id {
      var p :| p in s && p.1.id == id;
      assert p in multiset(r);
    }
  }

  /** Before sorting: one pair per candidate key, in key order. */
  lemma ScoredFacts(c: Candidates, top: Option<string>, kws: seq<string>)
    requires Valid(c) && Coherent(c)
    ensures var s := ScoredSpec(c, c.keys, top, kws);
      && DistinctBy(s, PairId)
      && (forall p :: p in s ==>
            && p.1.id in c.values && p.1 == c.values[p.1.id].0
            && p.0 == Score(p.1, c.values[p.1.id].1, top, kws))
      && (forall id :: id in c.values ==> exists p :: p in s && p.1.id == id)
  {
    var s := ScoredSpec(c, c.keys, top, kws);
    ScoredSpecPairs(c, c.keys, top, kws);
    assert DistinctBy(s, PairId) by {
      forall i, j | 0 <= i < j < |s| ensures PairId(s[i]) != PairId(s[j]) {
        assert PairId(s[i]) == c.keys[i] && PairId(s[j]) == c.keys[j];
      }
    }
    forall p | p in s
      ensures p.1.id in c.values && p.1 == c.values[p.1.id].0 && p.0 == Score(p.1, c.values[p.1.id].1, top, kws)
    {
      var k :| 0 <= k < |s| && s[k] == p;
      assert c.keys[k] in c.values;
    }
    forall id | id in c.values ensures exists p :: p in s && p.1.id == id {
      var k :| 0 <= k < |c.keys| && c.keys[k] == id;
      assert s[k] in s;
    }
  }

  /** `score_map.get(id, 0)` with `score_map = {vid.id: s for s, vid in scored}`:
      the last pair for the id wins. */
  function ScoreOf(scored: seq<(int, Video)>, id: int): int {
    if scored == [] then 0
    else if scored[|scored| - 1].1.id == id then scored[|scored| - 1].0
    else ScoreOf(scored[..|scored| - 1], id)
  }

  /** With distinct ids, the score map gives each video its own score. */
  lemma {:induction false} ScoreOfPair(scored: seq<(int, Video)>, k: nat)
    requires DistinctBy(scored, PairId) && k < |scored|
    ensures ScoreOf(scored, scored[k].1.id) == scored[k].0
  {
    if k < |scored| - 1 {
      var init := scored[..|scored| - 1];
      assert PairId(scored[k]) != PairId(scored[|scored| - 1]);
      assert init[k] == scored[k];
      ScoreOfPair(init, k);
    }
  }
}
