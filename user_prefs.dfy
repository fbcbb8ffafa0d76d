/** `getRecommendedVideosForUser`: every video is scored from the user's
    tendency keywords, their watch statistics per board and topic scaled by
    their focus level, and a novelty bonus; the best `limit` are returned. */
module UserPrefs {
  import opened Wrappers
  import opened Text
  import opened Sorting
  import opened Videos
  import opened Users
  import Feed

  // ---------------------------------------------------------------------
  // Per-board and per-topic statistics

  /** `{'count': ..., 'sum_prog': ..., 'sum_focus': ...}` */
  datatype Stats = Stats(count: nat, sumProg: real, sumFocus: real)

  /** The row's progress, 0.0 when NULL. */
  function Prog(h: WatchEntry): real {
    if h.progress.Some? then h.progress.value else 0.0
  }

  /** The row's focus sample, its progress when NULL. */
  function Foc(h: WatchEntry): real {
    if h.focus.Some? then h.focus.value else Prog(h)
  }

  function BoardOf(v: Video): string {
    v.board
  }

  function TopicOf(v: Video): string {
    v.topic
  }

  /** The statistics key a row contributes to: the lower-cased field of its
      video, or nothing when the video is missing or the field is empty. */
  function StatKey(catalog: seq<Video>, h: WatchEntry, field: Video -> string): Option<string> {
    var v := Lookup(catalog, h.videoId);
    if v.Some? && field(v.value) != [] then Some(Lower(field(v.value))) else None
  }

  /** `stats.setdefault(key, zero)` and the three increments. */
  function AddStat(stats: map<string, Stats>, key: string, h: WatchEntry): map<string, Stats> {
    var s := if key in stats then stats[key] else Stats(0, 0.0, 0.0);
    stats[key := Stats(s.count + 1, s.sumProg + Prog(h), s.sumFocus + Foc(h))]
  }

  /** The statistics after one more row: the row counts under its key, if it has one. */
  function AddRow(stats: map<string, Stats>, catalog: seq<Video>, h: WatchEntry, field: Video -> string): map<string, Stats> {
    var k := StatKey(catalog, h, field);
    if k.Some? then AddStat(stats, k.value, h) else stats
  }

  /** The statistics after the rows `hs`, in order. */
  function StatsOf(catalog: seq<Video>, hs: seq<WatchEntry>, field: Video -> string): map<string, Stats> {
    if hs == [] then map[]
    else AddRow(StatsOf(catalog, hs[..|hs| - 1], field), catalog, hs[|hs| - 1], field)
  }

  /** The loop over the user's rows that fills `board_stats` and `topic_stats`. */
  method AggregateHistory(catalog: seq<Video>, hs: seq<WatchEntry>)
    returns (boardStats: map<string, Stats>, topicStats: map<string, Stats>)
    ensures boardStats == StatsOf(catalog, hs, BoardOf)
    ensures topicStats == StatsOf(catalog, hs, TopicOf)
  {
    boardStats, topicStats := map[], map[];
    var i := 0;
    while i < |hs|
      invariant 0 <= i <= |hs|
      invariant boardStats == StatsOf(catalog, hs[..i], BoardOf)
      invariant topicStats == StatsOf(catalog, hs[..i], TopicOf)
    {
      assert hs[..i + 1][..i] == hs[..i];
      boardStats, topicStats := AggregateRow(catalog, hs[i], boardStats, topicStats);
      i := i + 1;
    }
    assert hs[..i] == hs;
  }

  /** One iteration: a row whose video is missing is skipped; otherwise its
      progress (0.0 when NULL) and focus (the progress when NULL) are added
      under the lower-cased board and topic, when those are non-empty. */
  method AggregateRow(catalog: seq<Video>, h: WatchEntry, boardStats: map<string, Stats>, topicStats: map<string, Stats>)
    returns (boardStats': map<string, Stats>, topicStats': map<string, Stats>)
    ensures boardStats' == AddRow(boardStats, catalog, h, BoardOf)
    ensures topicStats' == AddRow(topicStats, catalog, h, TopicOf)
  {
    boardStats', topicStats' := boardStats, topicStats;
    var v := Lookup(catalog, h.videoId);
    if v.None? {
      return;
    }
    var prog := if h.progress.Some? then h.progress.value else 0.0;
    var foc := if h.focus.Some? then h.focus.value else prog;
    if v.value.board != [] {
      var key := Lower(v.value.board);
      var s := if key in boardStats' then boardStats'[key] else Stats(0, 0.0, 0.0);
      boardStats' := boardStats'[key := Stats(s.count + 1, s.sumProg + prog, s.sumFocus + foc)];
    }
    if v.value.topic != [] {
      var key := Lower(v.value.topic);
      var s := if key in topicStats' then topicStats'[key] else Stats(0, 0.0, 0.0);
      topicStats' := topicStats'[key := Stats(s.count + 1, s.sumProg + prog, s.sumFocus + foc)];
    }
  }

  /** The rows that count towards key `k`. */
  function HitCount(catalog: seq<Video>, hs: seq<WatchEntry>, field: Video -> string, k: string): nat {
    if hs == [] then 0
    else HitCount(catalog, hs[..|hs| - 1], field, k) + (if StatKey(catalog, hs[|hs| - 1], field) == Some(k) then 1 else 0)
  }

  /** Their progress, summed. */
  function HitProg(catalog: seq<Video>, hs: seq<WatchEntry>, field: Video -> string, k: string): real {
    if hs == [] then 0.0
    else HitProg(catalog, hs[..|hs| - 1], field, k) + (if StatKey(catalog, hs[|hs| - 1], field) == Some(k) then Prog(hs[|hs| - 1]) else 0.0)
  }

  /** Their focus samples, summed. */
  function HitFocus(catalog: seq<Video>, hs: seq<WatchEntry>, field: Video -> string, k: string): real {
    if hs == [] then 0.0
    else HitFocus(catalog, hs[..|hs| - 1], field, k) + (if StatKey(catalog, hs[|hs| - 1], field) == Some(k) then Foc(hs[|hs| - 1]) else 0.0)
  }

  /** A key is present exactly when some row counts towards it, and its
      entry holds the number of those rows and their two sums. */
  lemma {:induction false} StatsOfGet(catalog: seq<Video>, hs: seq<WatchEntry>, field: Video -> string, k: string)
    ensures k in StatsOf(catalog, hs, field) <==> HitCount(catalog, hs, field, k) > 0
    ensures k in StatsOf(catalog, hs, field) ==>
      StatsOf(catalog, hs, field)[k] == Stats(HitCount(catalog, hs, field, k), HitProg(catalog, hs, field, k), HitFocus(catalog, hs, field, k))
    ensures HitCount(catalog, hs, field, k) == 0 ==> HitProg(catalog, hs, field, k) == 0.0 && HitFocus(catalog, hs, field, k) == 0.0
  {
    if hs != [] {
      StatsOfGet(catalog, hs[..|hs| - 1], field, k);
    }
  }

  /** A row whose stored values lie in [0, 1], as `recordWatchHistory` writes them. */
  predicate ClampedRow(h: WatchEntry) {
    && (h.progress.Some? ==> 0.0 <= h.progress.value <= 1.0)
    && (h.focus.Some? ==> 0.0 <= h.focus.value <= 1.0)
  }

  /** Every entry has at least one row, and its sums lie between 0 and the count. */
  ghost predicate StatsBounded(stats: map<string, Stats>) {
    forall k :: k in stats ==>
      && stats[k].count > 0
      && 0.0 <= stats[k].sumProg <= stats[k].count as real
      && 0.0 <= stats[k].sumFocus <= stats[k].count as real
  }

  lemma {:induction false} StatsOfBounded(catalog: seq<Video>, hs: seq<WatchEntry>, field: Video -> string)
    requires forall h :: h in hs ==> ClampedRow(h)
    ensures StatsBounded(StatsOf(catalog, hs, field))
  {
    if hs != [] {
      StatsOfBounded(catalog, hs[..|hs| - 1], field);
      assert ClampedRow(hs[|hs| - 1]);
    }
  }

  /** `pref_score`: the blend 0.6 * mean progress + 0.4 * mean focus of the
      lower-cased key, 0.0 for a key never seen. */
  function PrefScore(stats: map<string, Stats>, key: string): real {
    var k := Lower(key);
    if k in stats && stats[k].count > 0 then
      var n := stats[k].count as real;
      0.6 * (stats[k].sumProg / n) + 0.4 * (stats[k].sumFocus / n)
    else 0.0
  }

  lemma MeanBound(sum: real, n: real)
    requires n > 0.0 && 0.0 <= sum <= n
    ensures 0.0 <= sum / n <= 1.0
  {
    assert (sum / n) * n == sum;
  }

  /** Over clamped rows the preference lies in [0, 1]. */
  lemma PrefScoreBounds(stats: map<string, Stats>, key: string)
    requires StatsBounded(stats)
    ensures 0.0 <= PrefScore(stats, key) <= 1.0
  {
    var k := Lower(key);
    if k in stats {
      MeanBound(stats[k].sumProg, stats[k].count as real);
      MeanBound(stats[k].sumFocus, stats[k].count as real);
    }
  }

  /** The preference read from the history is the blend of the means over
      the rows whose video has that field, compared without regard to case;
      a value never watched scores 0. */
  lemma PrefScoreOfHistory(catalog: seq<Video>, hs: seq<WatchEntry>, field: Video -> string, key: string)
    ensures var n := HitCount(catalog, hs, field, Lower(key));
      PrefScore(StatsOf(catalog, hs, field), key) ==
        if n == 0 then 0.0
        else 0.6 * (HitProg(catalog, hs, field, Lower(key)) / n as real) + 0.4 * (HitFocus(catalog, hs, field, Lower(key)) / n as real)
  {
    StatsOfGet(catalog, hs, field, Lower(key));
  }

  // ---------------------------------------------------------------------
  // Scoring

  /** The comma-joined non-empty tags, board, topic and title, lower-cased. */
  function MatchText(v: Video): string {
    Lower(Join(NonEmpty([v.tags, v.board, v.topic, v.title]), ','))
  }

  /** The keywords found in `text`. */
  function KeywordHits(kws: seq<string>, text: string): (n: nat)
    ensures n <= |kws|
  {
    if kws == [] then 0
    else KeywordHits(kws[..|kws| - 1], text) + (if kws[|kws| - 1] != [] && Contains(text, kws[|kws| - 1]) then 1 else 0)
  }

  /** Every keyword is found exactly when the count reaches the number of keywords. */
  lemma {:induction false} KeywordHitsAll(kws: seq<string>, text: string)
    ensures KeywordHits(kws, text) == |kws| <==> forall k :: 0 <= k < |kws| ==> kws[k] != [] && Contains(text, kws[k])
    ensures KeywordHits(kws, text) == 0 <==> forall k :: 0 <= k < |kws| ==> !(kws[k] != [] && Contains(text, kws[k]))
  {
    if kws != [] {
      var init := kws[..|kws| - 1];
      KeywordHitsAll(init, text);
      assert forall k :: 0 <= k < |init| ==> init[k] == kws[k];
    }
  }

  /** `base_match`: the share of keywords found, capped at 1.0; 0.0 without keywords. */
  function BaseMatch(kws: seq<string>, v: Video): (r: real)
    ensures 0.0 <= r <= 1.0
  {
    if kws == [] then 0.0
    else
      var m := KeywordHits(kws, MatchText(v)) as real / |kws| as real;
      MeanBound(KeywordHits(kws, MatchText(v)) as real, |kws| as real);
      if m < 1.0 then m else 1.0
  }

  /** With keywords, the match is full exactly when every keyword occurs in
      the video's text, and zero exactly when none does. */
  lemma BaseMatchExtremes(kws: seq<string>, v: Video)
    requires kws != []
    ensures BaseMatch(kws, v) == 1.0 <==> forall k :: 0 <= k < |kws| ==> kws[k] != [] && Contains(MatchText(v), kws[k])
    ensures BaseMatch(kws, v) == 0.0 <==> forall k :: 0 <= k < |kws| ==> !(kws[k] != [] && Contains(MatchText(v), kws[k]))
  {
    KeywordHitsAll(kws, MatchText(v));
    ShareFacts(KeywordHits(kws, MatchText(v)), |kws|);
  }

  lemma ShareFacts(n: nat, d: nat)
    requires 0 < d && n <= d
    ensures n as real / d as real < 1.0 <==> n < d
    ensures n as real / d as real == 0.0 <==> n == 0
  {
    var m := n as real / d as real;
    assert m * d as real == n as real;
  }

  /** Everything the score of one video depends on besides the video. */
  datatype Context = Context(kws: seq<string>, boardStats: map<string, Stats>, topicStats: map<string, Stats>,
                             focus: real, watched: set<int>)

  /** `history_pref`: the mean of the board and topic preferences, scaled by
      `0.5 + 0.5 * focus_level`. */
  function HistoryPref(ctx: Context, v: Video): real {
    (0.5 * PrefScore(ctx.boardStats, v.board) + 0.5 * PrefScore(ctx.topicStats, v.topic)) * (0.5 + 0.5 * ctx.focus)
  }

  /** 1.0 for a video the user never watched. */
  function Novelty(ctx: Context, v: Video): real {
    if v.id !in ctx.watched then 1.0 else 0.0
  }

  /** `score = 0.5 * base_match + 0.4 * history_pref + 0.1 * novelty` */
  function UserScore(ctx: Context, v: Video): real {
    0.5 * BaseMatch(ctx.kws, v) + 0.4 * HistoryPref(ctx, v) + 0.1 * Novelty(ctx, v)
  }

  lemma ScaleBound(x: real, f: real)
    requires 0.0 <= x <= 1.0 && 0.0 <= f <= 1.0
    ensures 0.0 <= x * (0.5 + 0.5 * f) <= x
  {
    assert x * (1.0 - f) >= 0.0;
    assert x * f >= 0.0;
    assert x * (0.5 + 0.5 * f) == 0.5 * x + 0.5 * (x * f);
    assert x * f == x - x * (1.0 - f);
  }

  /** With statistics from clamped rows and a focus level in [0, 1], every
      score lies in [0, 1], and an unwatched video scores at least 0.1. */
  lemma UserScoreBounds(ctx: Context, v: Video)
    requires StatsBounded(ctx.boardStats) && StatsBounded(ctx.topicStats)
    requires 0.0 <= ctx.focus <= 1.0
    ensures 0.0 <= UserScore(ctx, v) <= 1.0
    ensures v.id !in ctx.watched ==> UserScore(ctx, v) >= 0.1
  {
    var b := PrefScore(ctx.boardStats, v.board);
    var t := PrefScore(ctx.topicStats, v.topic);
    PrefScoreBounds(ctx.boardStats, v.board);
    PrefScoreBounds(ctx.topicStats, v.topic);
    ScaleBound(0.5 * b + 0.5 * t, ctx.focus);
    var h := HistoryPref(ctx, v);
    assert 0.0 <= h <= 1.0;
    var m := BaseMatch(ctx.kws, v);
    var n := Novelty(ctx, v);
    assert UserScore(ctx, v) == 0.5 * m + 0.4 * h + 0.1 * n;
  }

  /** Of two videos alike in keywords, board and topic, the unwatched one
      scores 0.1 more than the watched one. */
  lemma NoveltyBonus(ctx: Context, v: Video, w: Video)
    requires MatchText(v) == MatchText(w) && v.board == w.board && v.topic == w.topic
    requires v.id !in ctx.watched && w.id in ctx.watched
    ensures UserScore(ctx, v) == UserScore(ctx, w) + 0.1
  {
  }

  /** `(score, v)` for every video, in catalog order. */
  function Scored(ctx: Context, catalog: seq<Video>): (ps: seq<(real, Video)>)
    ensures |ps| == |catalog|
  {
    seq(|catalog|, i requires 0 <= i < |catalog| => (UserScore(ctx, catalog[i]), catalog[i]))
  }

  /** The loop that fills `scored`. */
  method ScoreVideos(ctx: Context, catalog: seq<Video>) returns (scored: seq<(real, Video)>)
    ensures scored == Scored(ctx, catalog)
  {
    scored := [];
    var i := 0;
    while i < |catalog|
      invariant 0 <= i <= |catalog|
      invariant |scored| == i
      invariant forall j :: 0 <= j < i ==> scored[j] == (UserScore(ctx, catalog[j]), catalog[j])
    {
      var v := catalog[i];
      var s := 0.5 * BaseMatch(ctx.kws, v) + 0.4 * HistoryPref(ctx, v) + 0.1 * Novelty(ctx, v);
      scored := scored + [(s, v)];
      i := i + 1;
    }
  }

  function PairScore(p: (real, Video)): real {
    p.0
  }

  // ---------------------------------------------------------------------
  // The whole function

  /** `WatchHistory.query.filter_by(user_id=uid).all()`, in table order. */
  function RowsOf(table: seq<WatchEntry>, uid: int): (hs: seq<WatchEntry>)
    ensures forall h :: h in hs <==> h in table && h.userId == uid
  {
    if table == [] then []
    else
      assert table == [table[0]] + table[1..];
      (if table[0].userId == uid then [table[0]] else []) + RowsOf(table[1..], uid)
  }

  /** The user's stored focus level, 0.5 when NULL. */
  function FocusLevel(u: User): real {
    if u.focusLevel.Some? then u.focusLevel.value else 0.5
  }

  function ContextOf(u: User, catalog: seq<Video>, table: seq<WatchEntry>): Context {
    var hs := RowsOf(table, u.id);
    Context(Feed.FeedKeywords(u.tendency), StatsOf(catalog, hs, BoardOf), StatsOf(catalog, hs, TopicOf),
            FocusLevel(u), set h | h in hs :: h.videoId)
  }

  /** The result for user `userId`; `sample` is the order of the random
      draw made for an unknown user. */
  function ForUser(users: seq<User>, catalog: seq<Video>, table: seq<WatchEntry>, userId: int, limit: int,
                   sample: seq<Video>): seq<Video>
  {
    var i := Find(users, userId);
    if i.None? then Take(sample, limit)
    else VideosOf(Prefix(SortDesc(Scored(ContextOf(users[i.value], catalog, table), catalog), PairScore), limit))
  }

  /** `getRecommendedVideosForUser` */
  method RecommendedVideosForUser(users: seq<User>, catalog: seq<Video>, table: seq<WatchEntry>, userId: int,
                                  limit: int, sample: seq<Video>) returns (vs: seq<Video>)
    ensures vs == ForUser(users, catalog, table, userId, limit, sample)
  {
    var i := Find(users, userId);
    if i.None? {
      return Take(sample, limit);
    }
    var user := users[i.value];
    var kws := Feed.FeedKeywords(user.tendency);
    var focus := if user.focusLevel.Some? then user.focusLevel.value else 0.5;
    var histories := RowsOf(table, user.id);
    var watched := set h | h in histories :: h.videoId;
    var boardStats, topicStats := AggregateHistory(catalog, histories);
    var ctx := Context(kws, boardStats, topicStats, focus, watched);
    var scored := ScoreVideos(ctx, catalog);
    scored := SortDesc(scored, PairScore);
    vs := VideosOf(Prefix(scored, limit));
  }

  /** Pairs whose first component is the second's score. */
  predicate Tagged(ctx: Context, ps: seq<(real, Video)>) {
    forall p :: p in ps ==> p.0 == UserScore(ctx, p.1)
  }

  /** The ranking keeps every video once, each with its own score. */
  lemma RankedFacts(ctx: Context, catalog: seq<Video>)
    ensures var sorted := SortDesc(Scored(ctx, catalog), PairScore);
      && Tagged(ctx, sorted)
      && multiset(VideosOf(sorted)) == multiset(catalog)
  {
    var scored := Scored(ctx, catalog);
    var sorted := SortDesc(scored, PairScore);
    forall p | p in sorted ensures p.0 == UserScore(ctx, p.1) {
      assert p in multiset(scored);
    }
    assert VideosOf(scored) == catalog;
    VideosOfPermutation(scored, sorted);
  }

  lemma {:induction false} VideosOfPermutation(ps: seq<(real, Video)>, qs: seq<(real, Video)>)
    requires multiset(ps) == multiset(qs)
    ensures multiset(VideosOf(ps)) == multiset(VideosOf(qs))
    decreases |ps|
  {
    if ps != [] {
      assert ps[0] in multiset(qs);
      var j :| 0 <= j < |qs| && qs[j] == ps[0];
      var qs' := qs[..j] + qs[j + 1..];
      RemoveAt(ps, qs, j);
      VideosOfPermutation(ps[1..], qs');
      VideosOfRemoveAt(qs, j);
      assert VideosOf(ps) == [ps[0].1] + VideosOf(ps[1..]);
    }
  }

  lemma RemoveAt<T>(ps: seq<T>, qs: seq<T>, j: nat)
    requires ps != [] && j < |qs| && qs[j] == ps[0] && multiset(ps) == multiset(qs)
    ensures multiset(ps[1..]) == multiset(qs[..j] + qs[j + 1..])
  {
    assert ps == [ps[0]] + ps[1..];
    assert qs == qs[..j] + [qs[j]] + qs[j + 1..];
    assert multiset(ps) == multiset{ps[0]} + multiset(ps[1..]);
    assert multiset(qs) == multiset(qs[..j]) + multiset{qs[j]} + multiset(qs[j + 1..]);
    assert multiset(qs[..j] + qs[j + 1..]) == multiset(qs[..j]) + multiset(qs[j + 1..]);
    assert multiset(ps[1..]) == multiset(ps) - multiset{ps[0]};
    assert multiset(qs[..j] + qs[j + 1..]) == multiset(qs) - multiset{qs[j]};
  }

  lemma VideosOfRemoveAt(qs: seq<(real, Video)>, j: nat)
    requires j < |qs|
    ensures multiset(VideosOf(qs)) == multiset(VideosOf(qs[..j] + qs[j + 1..])) + multiset{qs[j].1}
  {
    var a, b := qs[..j], qs[j + 1..];
    assert qs == (a + [qs[j]]) + b;
    VideosOfSplit(a + [qs[j]], b);
    VideosOfSplit(a, [qs[j]]);
    VideosOfSplit(a, b);
    assert VideosOf([qs[j]]) == [qs[j].1];
  }

  /** The first `k` videos of a ranking (Python's slice) are best first,
      and no video ranked after them scores higher than the last of them. */
  lemma TopFacts(ctx: Context, sorted: seq<(real, Video)>, k: int)
    requires Tagged(ctx, sorted) && Descending(sorted, PairScore)
    ensures var vs := VideosOf(Prefix(sorted, k));
      && (forall i, j :: 0 <= i < j < |vs| ==> UserScore(ctx, vs[i]) >= UserScore(ctx, vs[j]))
      && (forall v, i :: v in VideosOf(sorted) && v !in vs && 0 <= i < |vs| ==> UserScore(ctx, v) <= UserScore(ctx, vs[i]))
  {
    var top := Prefix(sorted, k);
    var vs := VideosOf(top);
    forall a, b | 0 <= a < b < |vs| ensures UserScore(ctx, vs[a]) >= UserScore(ctx, vs[b]) {
      assert sorted[a] in sorted && sorted[b] in sorted;
    }
    forall v, i | v in VideosOf(sorted) && v !in vs && 0 <= i < |vs| ensures UserScore(ctx, v) <= UserScore(ctx, vs[i]) {
      var j :| 0 <= j < |sorted| && VideosOf(sorted)[j] == v;
      assert forall m :: 0 <= m < |top| ==> VideosOf(sorted)[m] == vs[m];
      assert i < |top| <= j;
      assert sorted[j] in sorted && sorted[i] in sorted;
    }
  }

  /** The first `limit` of the catalog by score: best first, each a catalog
      video taken at most as often as it occurs there, and no video left out
      scores higher than any returned one. */
  lemma RankFacts(ctx: Context, catalog: seq<Video>, limit: int)
    ensures var vs := VideosOf(Prefix(SortDesc(Scored(ctx, catalog), PairScore), limit));
      && (limit >= 0 ==> |vs| == if limit <= |catalog| then limit else |catalog|)
      && multiset(vs) <= multiset(catalog)
      && (forall i, j :: 0 <= i < j < |vs| ==> UserScore(ctx, vs[i]) >= UserScore(ctx, vs[j]))
      && (forall v, i :: v in catalog && v !in vs && 0 <= i < |vs| ==> UserScore(ctx, v) <= UserScore(ctx, vs[i]))
  {
    var sorted := SortDesc(Scored(ctx, catalog), PairScore);
    RankedFacts(ctx, catalog);
    TopFacts(ctx, sorted, limit);
    PrefixVideos(sorted, limit);
    forall v | v in catalog ensures v in VideosOf(sorted) {
      assert v in multiset(catalog);
    }
  }

  lemma PrefixVideos(sorted: seq<(real, Video)>, k: int)
    ensures multiset(VideosOf(Prefix(sorted, k))) <= multiset(VideosOf(sorted))
  {
    var top := Prefix(sorted, k);
    assert sorted == top + sorted[|top|..];
    VideosOfSplit(top, sorted[|top|..]);
    assert multiset(VideosOf(sorted)) == multiset(VideosOf(top)) + multiset(VideosOf(sorted[|top|..]));
  }

  /** An unknown user gets the random draw; a known user the ranking above
      over their context (Python's slice, so a negative limit drops that
      many from the end). */
  lemma ForUserFacts(users: seq<User>, catalog: seq<Video>, table: seq<WatchEntry>, userId: int, limit: int,
                     sample: seq<Video>)
    ensures var vs := ForUser(users, catalog, table, userId, limit, sample);
      && (Find(users, userId).None? ==> vs == Take(sample, limit))
      && (Find(users, userId).Some? ==>
            var ctx := ContextOf(users[Find(users, userId).value], catalog, table);
            && (limit >= 0 ==> |vs| == if limit <= |catalog| then limit else |catalog|)
            && multiset(vs) <= multiset(catalog)
            && (forall i, j :: 0 <= i < j < |vs| ==> UserScore(ctx, vs[i]) >= UserScore(ctx, vs[j]))
            && (forall v, i :: v in catalog && v !in vs && 0 <= i < |vs| ==> UserScore(ctx, v) <= UserScore(ctx, vs[i])))
  {
    var i := Find(users, userId);
    if i.Some? {
      RankFacts(ContextOf(users[i.value], catalog, table), catalog, limit);
    }
  }

  lemma VideosOfSplit(ps: seq<(real, Video)>, qs: seq<(real, Video)>)
    ensures VideosOf(ps + qs) == VideosOf(ps) + VideosOf(qs)
  {
  }

  /** Every score is in [0, 1] when the user's rows are clamped and their
      focus level lies in [0, 1], as the store's writers guarantee. */
  lemma ContextScores(u: User, catalog: seq<Video>, table: seq<WatchEntry>, v: Video)
    requires forall h :: h in table ==> ClampedRow(h)
    requires u.focusLevel.Some? ==> 0.0 <= u.focusLevel.value <= 1.0
    ensures 0.0 <= UserScore(ContextOf(u, catalog, table), v) <= 1.0
  {
    var hs := RowsOf(table, u.id);
    StatsOfBounded(catalog, hs, BoardOf);
    StatsOfBounded(catalog, hs, TopicOf);
    UserScoreBounds(ContextOf(u, catalog, table), v);
  }
}
