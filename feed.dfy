/** The `/api/recommendations` feed up to the final shuffle: the personalised
    branch for a signed-in user, the random draw otherwise. */
module Feed {
  import opened Wrappers
  import opened Dicts
  import opened Text
  import opened Sorting
  import opened Videos
  import opened FeedHistory
  import opened FeedCandidates
  import opened FeedSelect

  /** Step 2: the stored tendency string, lower-cased and split on commas and
      whitespace; `None` stands for a missing user or a NULL tendency. */
  function FeedKeywords(tendency: Option<string>): (kws: seq<string>)
    ensures tendency.None? || tendency.value == [] ==> kws == []
    ensures forall k :: 0 <= k < |kws| ==> kws[k] != [] && NoSpace(kws[k]) && NoComma(kws[k])
  {
    if tendency.Some? && tendency.value != [] then Tokenize(Lower(tendency.value)) else []
  }

  /** The personalised branch. `history` is the user's watch history, newest
      first; `sample1` and `sample2` are the orders of the two random draws. */
  function PersonalFeed(catalog: seq<Video>, history: seq<WatchEntry>, tendency: Option<string>,
                        limit: int, r: int, sample1: seq<Video>, sample2: seq<Video>): seq<Video>
  {
    var watched := WatchedIds(catalog, history);
    var top := TopTopic(TopicTime(catalog, history));
    var kws := FeedKeywords(tendency);
    var c := AllCandidates(catalog, watched, top, kws, limit);
    Selection(kws, KwToVids(catalog, watched, kws), Ranked(c, top, kws), watched, limit, r, sample1, sample2)
  }

  /** A user id counts only when it is truthy. */
  predicate SignedIn(user: Option<int>) {
    user.Some? && user.value != 0
  }

  function FeedSpec(user: Option<int>, catalog: seq<Video>, history: seq<WatchEntry>, tendency: Option<string>,
                    limit: int, r: int, sample1: seq<Video>, sample2: seq<Video>): seq<Video>
  {
    if SignedIn(user) then PersonalFeed(catalog, history, tendency, limit, r, sample1, sample2)
    else Take(sample1, limit)
  }

  /** `get_recommendations` without the final `random.shuffle`. */
  method Recommend(user: Option<int>, catalog: seq<Video>, history: seq<WatchEntry>, tendency: Option<string>,
                   limit: int, r: int, sample1: seq<Video>, sample2: seq<Video>)
    returns (videos: seq<Video>)
    ensures videos == FeedSpec(user, catalog, history, tendency, limit, r, sample1, sample2)
  {
    if SignedIn(user) {
      var watched, topicTime := SummariseHistory(catalog, history);
      var top := TopTopic(topicTime);
      var kws := FeedKeywords(tendency);
      var candidates, kwToVids := CollectCandidates(catalog, watched, top, kws, limit);
      var scored := ScoreCandidates(candidates, top, kws);
      scored := SortDesc(scored, ScoreKey);
      videos := SelectFeed(kws, kwToVids, scored, watched, limit, r, sample1, sample2);
    } else {
      videos := Take(sample1, limit);
    }
  }

  /** The keyword queries held in `kw_to_vids` contain no watched video. */
  lemma KeywordVideosUnwatched(catalog: seq<Video>, watched: set<int>, kws: seq<string>)
    ensures forall kw, v :: v in KeywordVideos(KwToVids(catalog, watched, kws), kw) ==> v.id !in watched
  {
    forall kw, v | v in KeywordVideos(KwToVids(catalog, watched, kws), kw) ensures v.id !in watched {
      KwToVidsGet(catalog, watched, kws, kw);
    }
  }

  /** The ranked candidates have distinct ids, none of them watched. */
  lemma RankedUnwatched(catalog: seq<Video>, watched: set<int>, top: Option<string>, kws: seq<string>, limit: int)
    ensures var scored := Ranked(AllCandidates(catalog, watched, top, kws, limit), top, kws);
      && DistinctBy(scored, PairId)
      && (forall p :: p in scored ==> p.1.id !in watched)
  {
    var c := AllCandidates(catalog, watched, top, kws, limit);
    CandidateBase(catalog, watched, top, kws, limit, 0);
    RankedPairs(c, top, kws);
    forall p | p in Ranked(c, top, kws) ensures p.1.id !in watched {
      CandidateBase(catalog, watched, top, kws, limit, p.1.id);
    }
  }

  /** With random draws whose ids are distinct, the feed never repeats a video
      and never returns more than a non-negative `limit`; a signed-in user is
      never shown a watched video, and once `limit >= 5` at most `limit - 1`
      of the personalised videos lead the list. */
  lemma FeedSafe(user: Option<int>, catalog: seq<Video>, history: seq<WatchEntry>, tendency: Option<string>,
                 limit: int, r: int, sample1: seq<Video>, sample2: seq<Video>)
    requires UniqueIds(sample1) && UniqueIds(sample2)
    requires RoundedShare(limit, r)
    ensures var vs := FeedSpec(user, catalog, history, tendency, limit, r, sample1, sample2);
      && UniqueIds(vs)
      && (limit >= 0 ==> |vs| <= limit)
      && (SignedIn(user) ==>
            var watched := WatchedIds(catalog, history);
            var top := TopTopic(TopicTime(catalog, history));
            var kws := FeedKeywords(tendency);
            var scored := Ranked(AllCandidates(catalog, watched, top, kws, limit), top, kws);
            var personal := Personal(kws, KwToVids(catalog, watched, kws), scored, BaseTarget(limit, RandomTarget(limit, r)));
            && (forall v :: v in vs ==> v.id !in watched)
            && |vs| <= Max(limit, 0)
            && personal <= vs
            && (limit >= 5 ==> |personal| <= limit - 1))
  {
    if SignedIn(user) {
      var watched := WatchedIds(catalog, history);
      var top := TopTopic(TopicTime(catalog, history));
      var kws := FeedKeywords(tendency);
      var scored := Ranked(AllCandidates(catalog, watched, top, kws, limit), top, kws);
      KeywordVideosUnwatched(catalog, watched, kws);
      RankedUnwatched(catalog, watched, top, kws, limit);
      SelectionSafe(kws, KwToVids(catalog, watched, kws), scored, watched, limit, r, sample1, sample2);
    } else {
      TakeUnique(sample1, limit);
    }
  }
}
