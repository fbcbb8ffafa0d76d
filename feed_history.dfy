/** Step 1 of the personalised feed: the user's watch history reduced to the
    set of watched ids and the topic with the most summed progress. */
module FeedHistory {
  import opened Wrappers
  import opened Dicts
  import opened Sorting
  import opened Videos

  /** `wh.progress or 0` */
  function ProgressOrZero(e: WatchEntry): real {
    if e.progress.Some? then e.progress.value else 0.0
  }

  /** The ids of the history entries whose video still exists. */
  function WatchedIds(catalog: seq<Video>, history: seq<WatchEntry>): set<int> {
    if history == [] then {}
    else
      var v := Lookup(catalog, history[|history| - 1].videoId);
      WatchedIds(catalog, history[..|history| - 1]) + (if v.Some? then {v.value.id} else {})
  }

  /** `topic_time`: per topic of a resolved video, the summed progress, keyed
      in first-seen order. */
  function TopicTime(catalog: seq<Video>, history: seq<WatchEntry>): (tt: Dict<string, real>)
    ensures Valid(tt)
  {
    if history == [] then Empty()
    else AddTime(TopicTime(catalog, history[..|history| - 1]), Lookup(catalog, history[|history| - 1].videoId), history[|history| - 1])
  }

  /** One iteration: `topic_time[topic] = topic_time.get(topic, 0) + progress`
      when the entry's video `v` resolved and has a topic. */
  function AddTime(tt: Dict<string, real>, v: Option<Video>, e: WatchEntry): (r: Dict<string, real>)
    requires Valid(tt)
    ensures Valid(r)
  {
    if v.Some? && v.value.topic != [] then
      var t := v.value.topic;
      Put(tt, t, Get(tt, t).GetOr(0.0) + ProgressOrZero(e))
    else tt
  }

  /** The loop over the watch history. */
  method SummariseHistory(catalog: seq<Video>, history: seq<WatchEntry>)
    returns (watched: set<int>, topicTime: Dict<string, real>)
    ensures watched == WatchedIds(catalog, history)
    ensures topicTime == TopicTime(catalog, history)
  {
    watched := {};
    topicTime := Empty();
    var i := 0;
    while i < |history|
      invariant 0 <= i <= |history|
      invariant watched == WatchedIds(catalog, history[..i])
      invariant topicTime == TopicTime(catalog, history[..i])
    {
      var wh := history[i];
      SummaryStep(catalog, history, i);
      var v := Lookup(catalog, wh.videoId);
      if v.Some? {
        watched := watched + {v.value.id};
        if v.value.topic != [] {
          var topic := v.value.topic;
          topicTime := Put(topicTime, topic, Get(topicTime, topic).GetOr(0.0) + ProgressOrZero(wh));
        }
      }
      i := i + 1;
    }
    assert history[..i] == history;
  }

  /** One more entry of the history: its id joins the watched set and its
      progress is added to its topic. */
  lemma SummaryStep(catalog: seq<Video>, history: seq<WatchEntry>, i: nat)
    requires i < |history|
    ensures var v := Lookup(catalog, history[i].videoId);
      && WatchedIds(catalog, history[..i + 1]) == WatchedIds(catalog, history[..i]) + (if v.Some? then {v.value.id} else {})
      && TopicTime(catalog, history[..i + 1]) == AddTime(TopicTime(catalog, history[..i]), v, history[i])
  {
    assert history[..i + 1][..i] == history[..i];
  }

  /** `topic_time.get` */
  function TimeKey(tt: Dict<string, real>): string -> real {
    k => Get(tt, k).GetOr(0.0)
  }

  /** `max(topic_time, key=topic_time.get) if topic_time else None` */
  function TopTopic(tt: Dict<string, real>): Option<string> {
    if tt.keys == [] then None
    else Some(tt.keys[FirstArgMax(tt.keys, TimeKey(tt))])
  }

  // ---------------------------------------------------------------------
  // An independent reading of the same history

  /** Whether some resolved entry's video has topic `t`. */
  predicate Seen(catalog: seq<Video>, history: seq<WatchEntry>, t: string) {
    history != [] &&
    (Seen(catalog, history[..|history| - 1], t) || Resolves(catalog, history[|history| - 1], t))
  }

  predicate Resolves(catalog: seq<Video>, e: WatchEntry, t: string) {
    Lookup(catalog, e.videoId).Some? && Lookup(catalog, e.videoId).value.topic == t
  }

  /** The progress of all resolved entries of topic `t`, added up. */
  function Summed(catalog: seq<Video>, history: seq<WatchEntry>, t: string): real {
    if history == [] then 0.0
    else
      var e := history[|history| - 1];
      Summed(catalog, history[..|history| - 1], t) + (if Resolves(catalog, e, t) then ProgressOrZero(e) else 0.0)
  }

  /** `watched_video_ids` holds exactly the ids of the entries whose video
      resolves. */
  lemma {:induction false} WatchedExactly(catalog: seq<Video>, history: seq<WatchEntry>, id: int)
    ensures id in WatchedIds(catalog, history) <==>
      (id in IdSet(catalog) && exists i :: 0 <= i < |history| && history[i].videoId == id)
  {
    if history != [] {
      var init := history[..|history| - 1];
      WatchedExactly(catalog, init, id);
      LookupFound(catalog, history[|history| - 1].videoId);
      if id in IdSet(catalog) && (exists i :: 0 <= i < |history| && history[i].videoId == id) {
        var i :| 0 <= i < |history| && history[i].videoId == id;
        if i < |init| {
          assert init[i].videoId == id;
        }
      }
      if exists i :: 0 <= i < |init| && init[i].videoId == id {
        var i :| 0 <= i < |init| && init[i].videoId == id;
        assert history[i].videoId == id;
      }
    }
  }

  /** `topic_time` has an entry exactly for each topic seen, holding that
      topic's summed progress; a video without a topic adds nothing. */
  lemma {:induction false} TopicTimeSums(catalog: seq<Video>, history: seq<WatchEntry>, t: string)
    ensures Get(TopicTime(catalog, history), t) ==
      if t != [] && Seen(catalog, history, t) then Some(Summed(catalog, history, t)) else None
  {
    if history != [] {
      var init := history[..|history| - 1];
      var e := history[|history| - 1];
      TopicTimeSums(catalog, init, t);
      var tt := TopicTime(catalog, init);
      var v := Lookup(catalog, e.videoId);
      assert TopicTime(catalog, history) == AddTime(tt, v, e);
      assert Resolves(catalog, e, t) <==> v.Some? && v.value.topic == t;
      SummedUnseen(catalog, init, t);
    }
  }

  lemma {:induction false} SummedUnseen(catalog: seq<Video>, history: seq<WatchEntry>, t: string)
    ensures !Seen(catalog, history, t) ==> Summed(catalog, history, t) == 0.0
  {
    if history != [] {
      SummedUnseen(catalog, history[..|history| - 1], t);
    }
  }

  /** The top topic is None exactly when no resolved video has a topic;
      otherwise it is a seen topic whose summed progress is maximal, and
      every topic first seen before it has strictly less. */
  lemma TopTopicIsMax(catalog: seq<Video>, history: seq<WatchEntry>)
    ensures var tt := TopicTime(catalog, history);
      && (TopTopic(tt).None? <==> forall t :: t != [] ==> !Seen(catalog, history, t))
      && (TopTopic(tt).Some? ==>
            var top := TopTopic(tt).value;
            && top != [] && Seen(catalog, history, top)
            && (forall t :: t != [] && Seen(catalog, history, t) ==>
                  Summed(catalog, history, t) <= Summed(catalog, history, top))
            && (forall j :: 0 <= j < FirstArgMax(tt.keys, TimeKey(tt)) ==>
                  Summed(catalog, history, tt.keys[j]) < Summed(catalog, history, top)))
  {
    var tt := TopicTime(catalog, history);
    forall t | t != [] ensures t in tt.keys <==> Seen(catalog, history, t) {
      TopicTimeSums(catalog, history, t);
    }
    TopicTimeSums(catalog, history, []);
    if tt.keys != [] {
      var m := FirstArgMax(tt.keys, TimeKey(tt));
      var top := tt.keys[m];
      TopicTimeSums(catalog, history, top);
      forall t | t != [] && Seen(catalog, history, t)
        ensures Summed(catalog, history, t) <= Summed(catalog, history, top)
      {
        TopicTimeSums(catalog, history, t);
        var j :| 0 <= j < |tt.keys| && tt.keys[j] == t;
        assert TimeKey(tt)(tt.keys[j]) <= TimeKey(tt)(top);
      }
      forall j | 0 <= j < m
        ensures Summed(catalog, history, tt.keys[j]) < Summed(catalog, history, top)
      {
        TopicTimeSums(catalog, history, tt.keys[j]);
        assert TimeKey(tt)(tt.keys[j]) < TimeKey(tt)(top);
      }
    } else {
      forall t | t != [] ensures !Seen(catalog, history, t) {
        TopicTimeSums(catalog, history, t);
      }
    }
  }
}
