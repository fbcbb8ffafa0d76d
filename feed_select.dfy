/** Steps 5 and 6 of the personalised feed: `limit` split into personalised
    and random slots, the coverage and fill passes, the random pass and the
    two-stage backfill. Each random draw `getRecommendedVideos(n)` is
    `Take(sample, n)` for a sample order given as input. */
module FeedSelect {
  import opened Wrappers
  import opened Dicts
  import opened Sorting
  import opened Videos
  import opened FeedCandidates

  function Min(a: int, b: int): int {
    if a <= b then a else b
  }

  // ---------------------------------------------------------------------
  // The split of `limit`

  /** `r` stands for `int(round(limit * ratio))` with the ratio clamped to
      [0, 0.5]: it lies between 0 and `limit`, whatever the sign of `limit`. */
  predicate RoundedShare(limit: int, r: int) {
    0 <= r <= limit || limit <= r <= 0
  }

  /** `random_target`: at least one random slot and at least one personalised
      slot once `limit >= 5`. */
  function RandomTarget(limit: int, r: int): int {
    if limit >= 5 then Max(1, Min(r, Max(0, limit - 1))) else Min(r, limit)
  }

  /** `base_target` */
  function BaseTarget(limit: int, rt: int): int {
    Max(0, limit - rt)
  }

  lemma SplitBounds(limit: int, r: int)
    requires RoundedShare(limit, r)
    ensures var rt := RandomTarget(limit, r);
      var bt := BaseTarget(limit, rt);
      && (limit >= 5 ==> 1 <= rt <= limit - 1 && bt == limit - rt && bt >= 1)
      && (0 <= limit < 5 ==> 0 <= rt <= limit && bt == limit - rt)
      && (limit < 0 ==> rt == limit && bt == 0)
  {
  }

  // ---------------------------------------------------------------------
  // The coverage pass

  /** `score_map.get(v.id, 0)`, the key of the coverage sort. */
  function CoverKey(scored: seq<(int, Video)>): Video -> real {
    (v: Video) => ScoreOf(scored, v.id) as real
  }

  /** `[v for v in vids if v.id not in selected_ids]` */
  function Unselected(vids: seq<Video>, selected: set<int>): seq<Video> {
    FilterVideos(vids, (v: Video) => v.id !in selected)
  }

  /** `kw_to_vids.get(kw) or []` */
  function KeywordVideos(kwToVids: Dict<string, seq<Video>>, kw: string): seq<Video> {
    Get(kwToVids, kw).GetOr([])
  }

  /** One keyword's turn: stop at `base_target`, else add the head of the
      stably sorted unselected videos, if any. */
  function CoverStep(cov: seq<Video>, vids: seq<Video>, scored: seq<(int, Video)>, bt: int): seq<Video> {
    if |cov| >= bt then cov
    else
      var unsel := Unselected(vids, IdSet(cov));
      if unsel == [] then cov else cov + [SortDesc(unsel, CoverKey(scored))[0]]
  }

  /** `coverage` after the keywords `kws`. */
  function Coverage(kws: seq<string>, kwToVids: Dict<string, seq<Video>>, scored: seq<(int, Video)>, bt: int): seq<Video> {
    if kws == [] then []
    else CoverStep(Coverage(kws[..|kws| - 1], kwToVids, scored, bt), KeywordVideos(kwToVids, kws[|kws| - 1]), scored, bt)
  }

  /** Once `base_target` videos are covered, later keywords change nothing:
      this is what makes the `break` safe. */
  lemma {:induction false} CoverageSaturated(kws: seq<string>, kwToVids: Dict<string, seq<Video>>, scored: seq<(int, Video)>, bt: int, i: nat)
    requires i <= |kws| && |Coverage(kws[..i], kwToVids, scored, bt)| >= bt
    ensures Coverage(kws, kwToVids, scored, bt) == Coverage(kws[..i], kwToVids, scored, bt)
  {
    if i < |kws| {
      var init := kws[..|kws| - 1];
      assert init[..i] == kws[..i];
      CoverageSaturated(init, kwToVids, scored, bt, i);
    } else {
      assert kws[..i] == kws;
    }
  }

  lemma CoverageStep(kws: seq<string>, kwToVids: Dict<string, seq<Video>>, scored: seq<(int, Video)>, bt: int, i: nat)
    requires i < |kws|
    ensures Coverage(kws[..i + 1], kwToVids, scored, bt) ==
      CoverStep(Coverage(kws[..i], kwToVids, scored, bt), KeywordVideos(kwToVids, kws[i]), scored, bt)
  {
    assert kws[..i + 1][..i] == kws[..i];
  }

  /** One keyword's turn of the coverage loop, below `base_target`. */
  method CoverKeyword(coverage: seq<Video>, selected: set<int>, vids: seq<Video>, scored: seq<(int, Video)>, bt: int)
    returns (coverage': seq<Video>, selected': set<int>)
    requires selected == IdSet(coverage) && |coverage| < bt
    ensures coverage' == CoverStep(coverage, vids, scored, bt)
    ensures selected' == IdSet(coverage')
  {
    coverage', selected' := coverage, selected;
    var vidsSorted := SortDesc(Unselected(vids, selected), CoverKey(scored));
    if vidsSorted != [] {
      var v := vidsSorted[0];
      IdSetSnoc(coverage, v);
      coverage' := coverage + [v];
      selected' := selected + {v.id};
    }
  }

  /** The coverage loop. */
  method SelectCoverage(kws: seq<string>, kwToVids: Dict<string, seq<Video>>, scored: seq<(int, Video)>, bt: int)
    returns (coverage: seq<Video>, selected: set<int>)
    ensures coverage == Coverage(kws, kwToVids, scored, bt)
    ensures selected == IdSet(coverage)
  {
    coverage := [];
    selected := {};
    if kws != [] && bt > 0 {
      var i := 0;
      while i < |kws|
        invariant 0 <= i <= |kws|
        invariant coverage == Coverage(kws[..i], kwToVids, scored, bt)
        invariant selected == IdSet(coverage)
      {
        if |coverage| >= bt {
          CoverageSaturated(kws, kwToVids, scored, bt, i);
          return;
        }
        CoverageStep(kws, kwToVids, scored, bt, i);
        coverage, selected := CoverKeyword(coverage, selected, KeywordVideos(kwToVids, kws[i]), scored, bt);
        i := i + 1;
      }
      assert kws[..i] == kws;
    } else if bt <= 0 {
      CoverageSaturated(kws, kwToVids, scored, bt, 0);
    }
  }

  /** A keyword adds nothing once `base_target` videos are covered or when all
      its videos are selected; otherwise it adds exactly one of its videos
      that is not yet selected, with the highest score among those, and the
      first such in the keyword's list on ties. */
  lemma CoverPick(cov: seq<Video>, vids: seq<Video>, scored: seq<(int, Video)>, bt: int)
    ensures var unsel := Unselected(vids, IdSet(cov));
      var r := CoverStep(cov, vids, scored, bt);
      && (|cov| >= bt || unsel == [] ==> r == cov)
      && (|cov| < bt && unsel != [] ==>
            var m := FirstArgMax(unsel, CoverKey(scored));
            && r == cov + [unsel[m]]
            && unsel[m] in vids && unsel[m].id !in IdSet(cov)
            && (forall w :: w in vids && w.id !in IdSet(cov) ==> ScoreOf(scored, w.id) <= ScoreOf(scored, unsel[m].id))
            && (forall j :: 0 <= j < m ==> ScoreOf(scored, unsel[j].id) < ScoreOf(scored, unsel[m].id)))
  {
    var unsel := Unselected(vids, IdSet(cov));
    if |cov| < bt && unsel != [] {
      var key := CoverKey(scored);
      var m := FirstArgMax(unsel, key);
      SortHeadIsFirstMax(unsel, key);
      forall w | w in vids && w.id !in IdSet(cov)
        ensures ScoreOf(scored, w.id) <= ScoreOf(scored, unsel[m].id)
      {
        assert w in unsel;
        var j :| 0 <= j < |unsel| && unsel[j] == w;
        assert key(unsel[j]) <= key(unsel[m]);
      }
      forall j | 0 <= j < m ensures ScoreOf(scored, unsel[j].id) < ScoreOf(scored, unsel[m].id) {
        assert key(unsel[j]) < key(unsel[m]);
      }
    }
  }

  /** Coverage adds at most one video per keyword and never more than
      `base_target`; its ids are distinct and each video comes from some
      keyword's query. */
  lemma {:induction false} CoverageShape(kws: seq<string>, kwToVids: Dict<string, seq<Video>>, scored: seq<(int, Video)>, bt: int)
    ensures var cov := Coverage(kws, kwToVids, scored, bt);
      && |cov| <= |kws| && |cov| <= Max(bt, 0)
      && UniqueIds(cov)
      && (forall v :: v in cov ==> exists kw :: kw in kws && v in KeywordVideos(kwToVids, kw))
  {
    if kws != [] {
      var init := kws[..|kws| - 1];
      var kw := kws[|kws| - 1];
      CoverageShape(init, kwToVids, scored, bt);
      var cov := Coverage(init, kwToVids, scored, bt);
      var vids := KeywordVideos(kwToVids, kw);
      CoverPick(cov, vids, scored, bt);
      var unsel := Unselected(vids, IdSet(cov));
      if |cov| < bt && unsel != [] {
        var v := unsel[FirstArgMax(unsel, CoverKey(scored))];
        forall w | w in cov ensures w.id != v.id {
        }
        UniqueAppend(cov, [v]);
        forall w | w in cov + [v] ensures exists k :: k in kws && w in KeywordVideos(kwToVids, k) {
          if w == v {
            assert kw in kws;
          } else {
            assert w in cov;
            var k :| k in init && w in KeywordVideos(kwToVids, k);
            assert k in kws;
          }
        }
      } else {
        forall w | w in cov ensures exists k :: k in kws && w in KeywordVideos(kwToVids, k) {
          var k :| k in init && w in KeywordVideos(kwToVids, k);
          assert k in kws;
        }
      }
    }
  }

  // ---------------------------------------------------------------------
  // The fill pass and the random pass

  /** A greedy pass over `pool`: ids in `excluded` or already taken are
      skipped, and the pass stops once `need` videos are taken. */
  function Greedy(pool: seq<Video>, excluded: set<int>, need: int): seq<Video> {
    if pool == [] then []
    else
      var g := Greedy(pool[..|pool| - 1], excluded, need);
      var v := pool[|pool| - 1];
      if |g| >= need || v.id in excluded || v.id in IdSet(g) then g else g + [v]
  }

  lemma {:induction false} GreedySaturated(pool: seq<Video>, excluded: set<int>, need: int, i: nat)
    requires i <= |pool| && |Greedy(pool[..i], excluded, need)| >= need
    ensures Greedy(pool, excluded, need) == Greedy(pool[..i], excluded, need)
  {
    if i < |pool| {
      var init := pool[..|pool| - 1];
      assert init[..i] == pool[..i];
      GreedySaturated(init, excluded, need, i);
    } else {
      assert pool[..i] == pool;
    }
  }

  /** One more video of the pool: taken unless the pass is full, or its id
      is excluded or already taken. */
  lemma GreedyStep(pool: seq<Video>, excluded: set<int>, need: int, i: nat)
    requires i < |pool|
    ensures var g := Greedy(pool[..i], excluded, need);
      var v := pool[i];
      Greedy(pool[..i + 1], excluded, need) ==
        if |g| >= need || v.id in excluded || v.id in IdSet(g) then g else g + [v]
  {
    assert pool[..i + 1][..i] == pool[..i];
  }

  /** The greedy pass takes at most `need` videos, with distinct ids, all from
      the pool and none excluded; when it falls short, every video of the pool
      was excluded or taken. */
  lemma {:induction false} GreedyShape(pool: seq<Video>, excluded: set<int>, need: int)
    ensures var g := Greedy(pool, excluded, need);
      && |g| <= Max(need, 0)
      && UniqueIds(g)
      && (forall v :: v in g ==> v in pool && v.id !in excluded)
      && (|g| < need ==> forall v :: v in pool ==> v.id in excluded || v.id in IdSet(g))
  {
    if pool != [] {
      var init := pool[..|pool| - 1];
      var v := pool[|pool| - 1];
      GreedyShape(init, excluded, need);
      var g := Greedy(init, excluded, need);
      if !(|g| >= need || v.id in excluded || v.id in IdSet(g)) {
        forall w | w in g ensures w.id != v.id {
        }
        UniqueAppend(g, [v]);
        IdSetAppend(g, [v]);
      }
      forall w | w in pool ensures w in init || w == v {
        var k :| 0 <= k < |pool| && pool[k] == w;
        if k < |init| {
          assert init[k] == w;
        }
      }
    }
  }

  /** `top_personalized`: the coverage, then the best-ranked videos not yet
      selected up to `base_target`. */
  function Personal(kws: seq<string>, kwToVids: Dict<string, seq<Video>>, scored: seq<(int, Video)>, bt: int): seq<Video> {
    var cov := Coverage(kws, kwToVids, scored, bt);
    cov + Greedy(VideosOf(scored), IdSet(cov), bt - |cov|)
  }

  /** The fill loop over `scored`. */
  method FillPersonal(coverage: seq<Video>, selected0: set<int>, scored: seq<(int, Video)>, bt: int)
    returns (top: seq<Video>, selected: set<int>)
    requires selected0 == IdSet(coverage)
    ensures top == coverage + Greedy(VideosOf(scored), IdSet(coverage), bt - |coverage|)
    ensures selected == IdSet(top)
  {
    var remaining := Max(0, bt - |coverage|);
    var pool := VideosOf(scored);
    var need := bt - |coverage|;
    top := coverage;
    selected := selected0;
    if remaining > 0 {
      ghost var taken: seq<Video> := [];
      var i := 0;
      while i < |scored|
        invariant 0 <= i <= |scored|
        invariant taken == Greedy(pool[..i], IdSet(coverage), need)
        invariant top == coverage + taken
        invariant selected == IdSet(coverage) + IdSet(taken)
      {
        if |top| >= bt {
          GreedySaturated(pool, IdSet(coverage), need, i);
          IdSetAppend(coverage, taken);
          return;
        }
        taken, top, selected := FillOne(pool, i, coverage, need, taken, top, selected);
        i := i + 1;
      }
      assert pool[..i] == pool;
      IdSetAppend(coverage, taken);
    } else {
      GreedySaturated(pool, IdSet(coverage), need, 0);
    }
  }

  /** One turn of the fill loop below `base_target`: the video is taken
      unless its id is already selected. */
  method FillOne(pool: seq<Video>, i: nat, coverage: seq<Video>, need: int, ghost taken: seq<Video>,
                 top: seq<Video>, selected: set<int>)
    returns (ghost taken': seq<Video>, top': seq<Video>, selected': set<int>)
    requires i < |pool| && |taken| < need
    requires taken == Greedy(pool[..i], IdSet(coverage), need)
    requires top == coverage + taken && selected == IdSet(coverage) + IdSet(taken)
    ensures taken' == Greedy(pool[..i + 1], IdSet(coverage), need)
    ensures top' == coverage + taken' && selected' == IdSet(coverage) + IdSet(taken')
  {
    GreedyStep(pool, IdSet(coverage), need, i);
    var v := pool[i];
    taken', top', selected' := taken, top, selected;
    if v.id !in selected {
      IdSetSnoc(taken, v);
      taken' := taken + [v];
      top' := top + [v];
      selected' := selected + {v.id};
    }
  }

  /** `random_needed` */
  function RandomNeeded(limit: int, rt: int, taken: int): int {
    if rt == 0 then Max(0, limit - taken) else Min(rt, Max(0, limit - taken))
  }

  /** The random pool `getRecommendedVideos(random_needed * 3)`. */
  function RandomPicks(sample: seq<Video>, excluded: set<int>, needed: int): seq<Video> {
    if needed > 0 then Greedy(Take(sample, 3 * needed), excluded, needed) else []
  }

  /** The random loop: watched and selected ids are skipped, and the loop
      stops once `random_needed` picks are made. */
  method PickRandom(sample: seq<Video>, selected0: set<int>, needed: int)
    returns (picks: seq<Video>, selected: set<int>)
    ensures picks == RandomPicks(sample, selected0, needed)
    ensures selected == selected0 + IdSet(picks)
  {
    picks := [];
    selected := selected0;
    if needed > 0 {
      var pool := Take(sample, 3 * needed);
      var i := 0;
      while i < |pool|
        invariant 0 <= i <= |pool|
        invariant picks == Greedy(pool[..i], selected0, needed)
        invariant selected == selected0 + IdSet(picks)
        invariant |picks| < needed
      {
        picks, selected := PickOne(pool, i, selected0, needed, picks, selected);
        i := i + 1;
        if |picks| >= needed {
          GreedySaturated(pool, selected0, needed, i);
          return;
        }
      }
      assert pool[..i] == pool;
    }
  }

  /** One draw of the random loop: kept unless its id is already selected. */
  method PickOne(pool: seq<Video>, i: nat, selected0: set<int>, needed: int, picks: seq<Video>, selected: set<int>)
    returns (picks': seq<Video>, selected': set<int>)
    requires i < |pool| && |picks| < needed
    requires picks == Greedy(pool[..i], selected0, needed)
    requires selected == selected0 + IdSet(picks)
    ensures picks' == Greedy(pool[..i + 1], selected0, needed)
    ensures selected' == selected0 + IdSet(picks')
  {
    var v := pool[i];
    GreedyStep(pool, selected0, needed, i);
    picks', selected' := picks, selected;
    if v.id !in selected {
      IdSetSnoc(picks, v);
      picks' := picks + [v];
      selected' := selected + {v.id};
    }
  }

  // ---------------------------------------------------------------------
  // The backfill

  /** Python's `s[a:b]` for `0 <= a <= b`: clipped to the list. */
  function Slice<T>(s: seq<T>, a: int, b: int): (r: seq<T>)
    requires 0 <= a <= b
    ensures |r| == if a >= |s| then 0 else Min(b, |s|) - a
    ensures forall i :: 0 <= i < |r| ==> a + i < |s| && r[i] == s[a + i]
  {
    s[Min(a, |s|)..Min(b, |s|)]
  }

  /** The videos of `vs` whose id is neither in `taken` nor watched. */
  function Fresh(vs: seq<Video>, taken: seq<Video>, watched: set<int>): seq<Video> {
    FilterVideos(vs, (v: Video) => v.id !in IdSet(taken) && v.id !in watched)
  }

  /** The first backfill stage: ranked videos after `base_target`. */
  function BackfillRanked(videos: seq<Video>, scored: seq<(int, Video)>, bt: int, limit: int, watched: set<int>): seq<Video>
    requires bt >= 0
  {
    if |videos| < limit then videos + Fresh(Slice(VideosOf(scored), bt, bt + (limit - |videos|)), videos, watched)
    else videos
  }

  /** The second backfill stage: a second random draw. */
  function BackfillRandom(videos: seq<Video>, limit: int, sample: seq<Video>, watched: set<int>): seq<Video> {
    if |videos| < limit then videos + Fresh(Take(sample, limit - |videos|), videos, watched) else videos
  }

  /** The two backfill stages. */
  function Backfill(videos: seq<Video>, scored: seq<(int, Video)>, bt: int, limit: int, sample: seq<Video>, watched: set<int>): seq<Video>
    requires bt >= 0
  {
    BackfillRandom(BackfillRanked(videos, scored, bt, limit, watched), limit, sample, watched)
  }

  /** The whole selection, before the final shuffle. */
  function Selection(kws: seq<string>, kwToVids: Dict<string, seq<Video>>, scored: seq<(int, Video)>,
                     watched: set<int>, limit: int, r: int, sample1: seq<Video>, sample2: seq<Video>): seq<Video>
  {
    var rt := RandomTarget(limit, r);
    var bt := BaseTarget(limit, rt);
    var top := Personal(kws, kwToVids, scored, bt);
    var picks := RandomPicks(sample1, IdSet(top) + watched, RandomNeeded(limit, rt, |top|));
    Backfill(top + picks, scored, bt, limit, sample2, watched)
  }

  /** The two `if len(videos) < limit` stages. */
  method BackfillVideos(videos0: seq<Video>, scored: seq<(int, Video)>, bt: int, limit: int, sample: seq<Video>, watched: set<int>)
    returns (videos: seq<Video>)
    requires bt >= 0
    ensures videos == Backfill(videos0, scored, bt, limit, sample, watched)
  {
    videos := BackfillFromRanked(videos0, scored, bt, limit, watched);
    videos := BackfillFromDraw(videos, limit, sample, watched);
  }

  /** The first `if len(videos) < limit` stage. */
  method BackfillFromRanked(videos0: seq<Video>, scored: seq<(int, Video)>, bt: int, limit: int, watched: set<int>)
    returns (videos: seq<Video>)
    requires bt >= 0
    ensures videos == BackfillRanked(videos0, scored, bt, limit, watched)
  {
    videos := videos0;
    if |videos| < limit {
      var remainingNeeded := limit - |videos|;
      videos := videos + Fresh(Slice(VideosOf(scored), bt, bt + remainingNeeded), videos, watched);
    }
  }

  /** The second `if len(videos) < limit` stage. */
  method BackfillFromDraw(videos0: seq<Video>, limit: int, sample: seq<Video>, watched: set<int>)
    returns (videos: seq<Video>)
    ensures videos == BackfillRandom(videos0, limit, sample, watched)
  {
    videos := videos0;
    if |videos| < limit {
      videos := videos + Fresh(Take(sample, limit - |videos|), videos, watched);
    }
  }

  /** Steps 5 and 6 as the feed runs them. */
  method SelectFeed(kws: seq<string>, kwToVids: Dict<string, seq<Video>>, scored: seq<(int, Video)>,
                    watched: set<int>, limit: int, r: int, sample1: seq<Video>, sample2: seq<Video>)
    returns (videos: seq<Video>)
    ensures videos == Selection(kws, kwToVids, scored, watched, limit, r, sample1, sample2)
  {
    var randomTarget := RandomTarget(limit, r);
    var baseTarget := BaseTarget(limit, randomTarget);
    var coverage, selected := SelectCoverage(kws, kwToVids, scored, baseTarget);
    var topPersonalized;
    topPersonalized, selected := FillPersonal(coverage, selected, scored, baseTarget);
    assert topPersonalized == Personal(kws, kwToVids, scored, baseTarget);
    selected := selected + watched;
    var randomNeeded := RandomNeeded(limit, randomTarget, |topPersonalized|);
    var randomPicks;
    randomPicks, selected := PickRandom(sample1, selected, randomNeeded);
    assert randomPicks == RandomPicks(sample1, IdSet(topPersonalized) + watched, randomNeeded);
    videos := BackfillVideos(topPersonalized + randomPicks, scored, baseTarget, limit, sample2, watched);
  }

  // ---------------------------------------------------------------------
  // What the selection guarantees

  /** The personalised list starts with the coverage, holds at most
      `base_target` videos with distinct ids, and each of them comes from a
      keyword's query or from the ranked candidates. */
  lemma PersonalShape(kws: seq<string>, kwToVids: Dict<string, seq<Video>>, scored: seq<(int, Video)>, bt: int)
    requires bt >= 0
    ensures var cov := Coverage(kws, kwToVids, scored, bt);
      var top := Personal(kws, kwToVids, scored, bt);
      && cov <= top
      && |top| <= bt
      && UniqueIds(top)
      && (forall v :: v in top ==> (exists kw :: kw in kws && v in KeywordVideos(kwToVids, kw)) || v in VideosOf(scored))
  {
    var cov := Coverage(kws, kwToVids, scored, bt);
    var g := Greedy(VideosOf(scored), IdSet(cov), bt - |cov|);
    CoverageShape(kws, kwToVids, scored, bt);
    GreedyShape(VideosOf(scored), IdSet(cov), bt - |cov|);
    JoinShape(kws, kwToVids, VideosOf(scored), bt, cov, g);
  }

  /** The coverage followed by a fill pass over `pool` that skips its ids. */
  lemma JoinShape(kws: seq<string>, kwToVids: Dict<string, seq<Video>>, pool: seq<Video>, bt: int,
                  cov: seq<Video>, g: seq<Video>)
    requires bt >= 0 && |cov| <= bt && |g| <= Max(bt - |cov|, 0)
    requires UniqueIds(cov) && UniqueIds(g)
    requires forall v :: v in cov ==> exists kw :: kw in kws && v in KeywordVideos(kwToVids, kw)
    requires forall v :: v in g ==> v in pool && v.id !in IdSet(cov)
    ensures cov <= cov + g && |cov + g| <= bt && UniqueIds(cov + g)
    ensures forall v :: v in cov + g ==> (exists kw :: kw in kws && v in KeywordVideos(kwToVids, kw)) || v in pool
  {
    UniqueAppend(cov, g);
    forall v | v in cov + g
      ensures (exists kw :: kw in kws && v in KeywordVideos(kwToVids, kw)) || v in pool
    {
      if v !in cov {
        assert v in g;
      }
    }
  }

  /** Fresh videos have distinct ids when the list they come from does, and
      share no id with the taken list or the watched set. */
  lemma FreshShape(vs: seq<Video>, taken: seq<Video>, watched: set<int>)
    requires UniqueIds(vs) && UniqueIds(taken)
    ensures var f := Fresh(vs, taken, watched);
      && |f| <= |vs|
      && UniqueIds(taken + f)
      && (forall v :: v in f ==> v.id !in watched)
  {
    var f := Fresh(vs, taken, watched);
    FilterUnique(vs, (v: Video) => v.id !in IdSet(taken) && v.id !in watched);
    UniqueAppend(taken, f);
  }

  lemma SliceUnique(vs: seq<Video>, a: int, b: int)
    requires UniqueIds(vs) && 0 <= a <= b
    ensures UniqueIds(Slice(vs, a, b))
  {
  }

  /** The ranked videos of a list with distinct ids have distinct ids. */
  lemma RankedUnique(scored: seq<(int, Video)>)
    requires DistinctBy(scored, PairId)
    ensures UniqueIds(VideosOf(scored))
  {
    var vs := VideosOf(scored);
    forall i, j | 0 <= i < j < |vs| ensures vs[i].id != vs[j].id {
      assert PairId(scored[i]) != PairId(scored[j]);
    }
  }

  /** The backfill keeps what it is given as a prefix and adds only videos
      with new, unwatched ids, never going past `limit`. */
  lemma BackfillSafe(videos: seq<Video>, scored: seq<(int, Video)>, bt: int, limit: int, sample: seq<Video>, watched: set<int>)
    requires bt >= 0
    requires UniqueIds(videos) && (forall v :: v in videos ==> v.id !in watched)
    requires DistinctBy(scored, PairId) && UniqueIds(sample)
    ensures var vs := Backfill(videos, scored, bt, limit, sample, watched);
      && videos <= vs
      && UniqueIds(vs)
      && (forall v :: v in vs ==> v.id !in watched)
      && |vs| <= Max(limit, |videos|)
  {
    RankedStageSafe(videos, scored, bt, limit, watched);
    RandomStageSafe(BackfillRanked(videos, scored, bt, limit, watched), limit, sample, watched);
  }

  /** The first backfill stage keeps the list safe. */
  lemma RankedStageSafe(videos: seq<Video>, scored: seq<(int, Video)>, bt: int, limit: int, watched: set<int>)
    requires bt >= 0
    requires UniqueIds(videos) && (forall v :: v in videos ==> v.id !in watched)
    requires DistinctBy(scored, PairId)
    ensures var v1 := BackfillRanked(videos, scored, bt, limit, watched);
      && videos <= v1
      && UniqueIds(v1)
      && (forall v :: v in v1 ==> v.id !in watched)
      && |v1| <= Max(limit, |videos|)
  {
    if |videos| < limit {
      var ranked := VideosOf(scored);
      RankedUnique(scored);
      SliceUnique(ranked, bt, bt + (limit - |videos|));
      FreshShape(Slice(ranked, bt, bt + (limit - |videos|)), videos, watched);
    }
  }

  /** The second backfill stage keeps the list safe. */
  lemma RandomStageSafe(videos: seq<Video>, limit: int, sample: seq<Video>, watched: set<int>)
    requires UniqueIds(videos) && (forall v :: v in videos ==> v.id !in watched)
    requires UniqueIds(sample)
    ensures var v2 := BackfillRandom(videos, limit, sample, watched);
      && videos <= v2
      && UniqueIds(v2)
      && (forall v :: v in v2 ==> v.id !in watched)
      && |v2| <= Max(limit, |videos|)
  {
    if |videos| < limit {
      TakeUnique(sample, limit - |videos|);
      FreshShape(Take(sample, limit - |videos|), videos, watched);
    }
  }

  /** The personalised list and the random picks together: distinct ids, no
      watched id, at most `max(limit, 0)` videos. */
  lemma PersonalAndRandom(kws: seq<string>, kwToVids: Dict<string, seq<Video>>, scored: seq<(int, Video)>,
                          watched: set<int>, limit: int, r: int, sample1: seq<Video>)
    requires forall kw, v :: v in KeywordVideos(kwToVids, kw) ==> v.id !in watched
    requires forall p :: p in scored ==> p.1.id !in watched
    requires RoundedShare(limit, r)
    ensures var rt := RandomTarget(limit, r);
      var top := Personal(kws, kwToVids, scored, BaseTarget(limit, rt));
      var both := top + RandomPicks(sample1, IdSet(top) + watched, RandomNeeded(limit, rt, |top|));
      && UniqueIds(both)
      && (forall v :: v in both ==> v.id !in watched)
      && |both| <= Max(limit, 0)
      && (limit >= 5 ==> |top| <= limit - 1)
  {
    var rt := RandomTarget(limit, r);
    var bt := BaseTarget(limit, rt);
    SplitBounds(limit, r);
    var top := Personal(kws, kwToVids, scored, bt);
    PersonalShape(kws, kwToVids, scored, bt);
    var ranked := VideosOf(scored);
    forall v | v in top ensures v.id !in watched {
      if v in ranked {
        var i :| 0 <= i < |ranked| && ranked[i] == v;
        assert scored[i] in scored;
      }
    }
    var needed := RandomNeeded(limit, rt, |top|);
    var picks := RandomPicks(sample1, IdSet(top) + watched, needed);
    if needed > 0 {
      GreedyShape(Take(sample1, 3 * needed), IdSet(top) + watched, needed);
    }
    UniqueAppend(top, picks);
  }

  /** Given keyword queries and ranked candidates free of watched ids, ranked
      ids that are distinct and a second draw with distinct ids, the feed has
      distinct ids, no watched id, at most `max(limit, 0)` videos, and starts
      with the personalised list, which leaves a slot free for a random video
      once `limit >= 5`. */
  lemma SelectionSafe(kws: seq<string>, kwToVids: Dict<string, seq<Video>>, scored: seq<(int, Video)>,
                      watched: set<int>, limit: int, r: int, sample1: seq<Video>, sample2: seq<Video>)
    requires forall kw, v :: v in KeywordVideos(kwToVids, kw) ==> v.id !in watched
    requires DistinctBy(scored, PairId)
    requires forall p :: p in scored ==> p.1.id !in watched
    requires UniqueIds(sample2)
    requires RoundedShare(limit, r)
    ensures var vs := Selection(kws, kwToVids, scored, watched, limit, r, sample1, sample2);
      var top := Personal(kws, kwToVids, scored, BaseTarget(limit, RandomTarget(limit, r)));
      && UniqueIds(vs)
      && (forall v :: v in vs ==> v.id !in watched)
      && |vs| <= Max(limit, 0)
      && top <= vs
      && (limit >= 5 ==> |top| <= limit - 1)
  {
    var rt := RandomTarget(limit, r);
    var bt := BaseTarget(limit, rt);
    var top := Personal(kws, kwToVids, scored, bt);
    var both := top + RandomPicks(sample1, IdSet(top) + watched, RandomNeeded(limit, rt, |top|));
    PersonalAndRandom(kws, kwToVids, scored, watched, limit, r, sample1);
    BackfillSafe(both, scored, bt, limit, sample2, watched);
    assert top <= both;
  }
}
