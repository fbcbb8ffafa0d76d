/** The per-video Q&A history kept in the session by `ask_video_question`:
    each question appends a user turn and a model turn, and only the last 40
    entries are kept. */
module Conversation {
  import opened Wrappers

  datatype Role = UserRole | ModelRole

  /** `{'role': ..., 'text': ...}` */
  datatype Turn = Turn(role: Role, text: string)

  const MaxHistory: int := 40

  /** `f"{user_part if user_part is not None else 'anon'}-{video_id}"` */
  function ConversationKey(userPart: Option<string>, videoId: string): string {
    (if userPart.Some? then userPart.value else "anon") + "-" + videoId
  }

  /** The history after one question and its answer. */
  function AddTurn(history: seq<Turn>, question: string, answer: string): seq<Turn> {
    var h := history + [Turn(UserRole, question), Turn(ModelRole, answer)];
    if |h| > MaxHistory then h[|h| - MaxHistory..] else h
  }

  /** The new history holds at most 40 entries and ends with the question
      and the answer; what comes before them is the latest part of the old
      history, all of it while it fits. */
  lemma AddTurnFacts(history: seq<Turn>, question: string, answer: string)
    ensures var h := AddTurn(history, question, answer);
      && 2 <= |h| <= MaxHistory
      && h[|h| - 2] == Turn(UserRole, question)
      && h[|h| - 1] == Turn(ModelRole, answer)
      && |h| - 2 <= |history|
      && h[..|h| - 2] == history[|history| - (|h| - 2)..]
      && (|history| <= MaxHistory - 2 ==> h[..|h| - 2] == history)
      && (|history| >= MaxHistory - 2 ==> |h| == MaxHistory)
  {
    var full := history + [Turn(UserRole, question), Turn(ModelRole, answer)];
    var h := AddTurn(history, question, answer);
    if |full| > MaxHistory {
      assert h[..|h| - 2] == full[|full| - MaxHistory..|full| - 2];
    } else {
      assert h[..|h| - 2] == history;
    }
  }

  /** The session's `ai_conversations` dictionary. */
  class Conversations {
    var store: map<string, seq<Turn>>

    /** Every stored history is within the cap. */
    ghost predicate Bounded()
      reads this
    {
      forall k :: k in store ==> |store[k]| <= MaxHistory
    }

    constructor()
      ensures store == map[] && Bounded()
    {
      store := map[];
    }

    /** The key of the caller and the video, `conversations.get(key, [])`,
        two appends, the cap, and the store. */
    method RecordTurn(userPart: Option<string>, videoId: string, question: string, answer: string)
      modifies this
      ensures var key := ConversationKey(userPart, videoId);
        store == old(store)[key := AddTurn(if key in old(store) then old(store)[key] else [], question, answer)]
      ensures old(Bounded()) ==> Bounded()
    {
      var key := ConversationKey(userPart, videoId);
      var history := if key in store then store[key] else [];
      ghost var before := history;
      AddTurnFacts(history, question, answer);
      history := history + [Turn(UserRole, question)];
      history := history + [Turn(ModelRole, answer)];
      assert history == before + [Turn(UserRole, question), Turn(ModelRole, answer)];
      if |history| > MaxHistory {
        history := history[|history| - MaxHistory..];
      }
      store := store[key := history];
    }
  }
}
