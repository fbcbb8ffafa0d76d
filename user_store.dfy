/** The `users` and `watch_histories` tables as one object whose methods
    update them in place, each proved against the rule it applies. */
module UserStore {
  import opened Wrappers
  import opened Text
  import opened Videos
  import opened Users

  class Store {
    var users: seq<User>
    var nextId: int
    var history: seq<WatchEntry>

    ghost predicate Valid()
      reads this
    {
      ValidUsers(users, nextId)
    }

    constructor()
      ensures Valid() && users == [] && nextId == 1 && history == []
    {
      users := [];
      nextId := 1;
      history := [];
    }

    /** `userRegister` */
    method Register(username: Option<string>, password: string, email: Option<string>) returns (r: Option<User>)
      requires Valid()
      modifies this
      ensures Valid()
      ensures r == RegisterResult(old(users), old(nextId), username, password, email)
      ensures r.None? ==> users == old(users) && nextId == old(nextId)
      ensures r.Some? ==> users == old(users) + [r.value] && nextId == old(nextId) + 1
      ensures history == old(history)
    {
      var baseUsername := Strip(username.GetOr([]));
      if baseUsername == [] {
        baseUsername := if email.Some? && email.value != [] then LocalPart(email.value) else "user";
      }
      var candidate := UniqueUsername(baseUsername, Names(users));
      // The explicit check refuses a registered non-empty e-mail; the
      // unique constraint refuses a second empty one.
      if email.Some? && email.value in Emails(users) {
        return None;
      }
      RegisterFacts(users, nextId, username, password, email);
      var u := User(nextId, candidate, password, email, None, None, None);
      users := users + [u];
      nextId := nextId + 1;
      r := Some(u);
    }

    /** `updateUserProfile` */
    method UpdateProfile(id: int, username: Option<string>, photoUrl: Option<string>) returns (ok: bool, msg: Option<string>)
      requires Valid()
      modifies this
      ensures Valid()
      ensures (users, ok, msg) == UpdateProfileResult(old(users), id, username, photoUrl)
      ensures nextId == old(nextId) && history == old(history)
    {
      UpdateProfileFacts(users, nextId, id, username, photoUrl);
      var i := Find(users, id);
      if i.None? {
        return false, Some("User not found");
      }
      var u := users[i.value];
      if username.Some? {
        if username.value != u.username && username.value in Names(users) {
          return false, Some("Username already taken");
        }
        u := u.(username := username.value);
      }
      if photoUrl.Some? {
        u := u.(photoUrl := photoUrl);
      }
      users := users[i.value := u];
      return true, None;
    }

    /** `updateUserTendency` */
    method UpdateTendency(id: int, tendency: Option<string>) returns (ok: bool)
      requires Valid()
      modifies this
      ensures Valid()
      ensures (users, ok) == UpdateTendencyResult(old(users), id, tendency)
      ensures nextId == old(nextId) && history == old(history)
    {
      UpdateTendencyFacts(users, nextId, id, tendency);
      var i := Find(users, id);
      if i.None? {
        return false;
      }
      users := users[i.value := users[i.value].(tendency := tendency)];
      return true;
    }

    /** `updateUserFocusLevel` */
    method UpdateFocusLevel(id: int, level: real) returns (ok: bool)
      requires Valid()
      modifies this
      ensures Valid()
      ensures (users, ok) == UpdateFocusResult(old(users), id, level)
      ensures nextId == old(nextId) && history == old(history)
    {
      UpdateFocusFacts(users, nextId, id, level);
      var i := Find(users, id);
      if i.None? {
        return false;
      }
      var clamped := Clamp01(level);
      users := users[i.value := users[i.value].(focusLevel := Some(clamped))];
      return true;
    }

    /** `recordWatchHistory` */
    method RecordWatchHistory(userId: int, videoId: int, progress: Option<real>, focus: Option<real>) returns (wh: WatchEntry)
      modifies this
      ensures wh == WatchRow(userId, videoId, progress, focus)
      ensures history == old(history) + [wh]
      ensures users == old(users) && nextId == old(nextId)
    {
      var prog := if progress.None? then None else Some(Clamp01(progress.value));
      var foc := if focus.None? then None else Some(Clamp01(focus.value));
      wh := WatchEntry(userId, videoId, prog, foc);
      history := history + [wh];
    }
  }
}
