/** The rules of the `users` table functions in `models.py`, stated over the
    table as a list of rows: registration with a unique username, profile,
    tendency and focus updates, the clamps and the video search. */
module Users {
  import opened Wrappers
  import opened Text
  import opened Videos

  /** A row of `users`. The password column holds whatever the caller stored. */
  datatype User = User(id: int, username: string, password: string, email: Option<string>,
                       tendency: Option<string>, photoUrl: Option<string>, focusLevel: Option<real>)

  /** The length of the `username` column. */
  const MaxUsername: int := 80

  /** The table's constraints: primary keys below the next id, unique
      usernames, and unique e-mails among the rows that have one. */
  ghost predicate ValidUsers(us: seq<User>, nextId: int) {
    && (forall i, j :: 0 <= i < j < |us| ==> us[i].id != us[j].id)
    && (forall i, j :: 0 <= i < j < |us| ==> us[i].username != us[j].username)
    && (forall i, j :: 0 <= i < j < |us| && us[i].email.Some? ==> us[i].email != us[j].email)
    && (forall i :: 0 <= i < |us| ==> us[i].id < nextId)
  }

  function Names(us: seq<User>): set<string> {
    set u | u in us :: u.username
  }

  function Emails(us: seq<User>): set<string> {
    set u | u in us && u.email.Some? :: u.email.value
  }

  /** `User.query.get(id)`: the position of the row with that id. */
  function Find(us: seq<User>, id: int): (r: Option<nat>)
    ensures r.Some? ==> r.value < |us| && us[r.value].id == id
    ensures r.None? ==> forall i :: 0 <= i < |us| ==> us[i].id != id
  {
    if us == [] then None
    else if us[0].id == id then Some(0)
    else
      var r := Find(us[1..], id);
      if r.Some? then Some(r.value + 1) else None
  }

  // ---------------------------------------------------------------------
  // `userRegister`

  predicate IsAt(c: char) {
    c == '@'
  }

  /** `email.split('@')[0]`: the part of the e-mail before its first '@'. */
  function LocalPart(email: string): (r: string)
    ensures r <= email && '@' !in r
    ensures |r| < |email| ==> email[|r|] == '@'
  {
    SplitFirst(email, IsAt);
    SplitBy(email, IsAt)[0]
  }

  /** The stripped username, else the e-mail's local part, else "user". */
  function BaseName(username: Option<string>, email: Option<string>): (b: string)
    ensures Strip(username.GetOr([])) != [] ==> b == Strip(username.GetOr([]))
    ensures Strip(username.GetOr([])) == [] && (email.None? || email.value == []) ==> b == "user"
    ensures Strip(username.GetOr([])) == [] && email.Some? && email.value != [] ==>
      b <= email.value && '@' !in b && (|b| < |email.value| ==> email.value[|b|] == '@')
  {
    var b := Strip(username.GetOr([]));
    if b != [] then b
    else if email.Some? && email.value != [] then LocalPart(email.value)
    else "user"
  }

  function Suffix(n: nat): string {
    "_" + DecimalString(n)
  }

  /** `f"{base[:max_len - len(suffix_str)]}{suffix_str}"` */
  function Candidate(base: string, n: nat): (c: string)
    ensures |Suffix(n)| <= MaxUsername ==> |c| <= MaxUsername
  {
    Prefix(base, MaxUsername - |Suffix(n)|) + Suffix(n)
  }

  predicate IsDigit(c: char) {
    '0' <= c <= '9'
  }

  /** The longest run of digits that ends `s`. */
  function TrailingDigits(s: string): string {
    if s == [] || !IsDigit(s[|s| - 1]) then [] else TrailingDigits(s[..|s| - 1]) + [s[|s| - 1]]
  }

  lemma {:induction false} TrailingDigitsOf(x: string, d: string)
    requires forall i :: 0 <= i < |d| ==> IsDigit(d[i])
    ensures TrailingDigits(x + "_" + d) == d
  {
    if d != [] {
      var init := d[..|d| - 1];
      TrailingDigitsOf(x, init);
      assert (x + "_" + d)[..|x + "_" + d| - 1] == x + "_" + init;
    } else {
      assert x + "_" + d == x + "_";
    }
  }

  /** Different suffix numbers give different candidates: the digits after
      the last underscore are the number. */
  lemma CandidateInjective(base: string, n: nat, m: nat)
    requires Candidate(base, n) == Candidate(base, m)
    ensures n == m
  {
    var c := Candidate(base, n);
    var pn := Prefix(base, MaxUsername - |Suffix(n)|);
    var pm := Prefix(base, MaxUsername - |Suffix(m)|);
    assert c == pn + "_" + DecimalString(n);
    assert c == pm + "_" + DecimalString(m);
    TrailingDigitsOf(pn, DecimalString(n));
    TrailingDigitsOf(pm, DecimalString(m));
    DecimalInjective(n, m);
  }

  /** The candidates tried before suffix `n`. */
  function UsedBelow(base: string, n: nat): set<string> {
    set k | 1 <= k < n :: Candidate(base, k)
  }

  lemma UsedBelowStep(base: string, n: nat)
    requires n >= 1
    ensures UsedBelow(base, n + 1) == UsedBelow(base, n) + {Candidate(base, n)}
    ensures Candidate(base, n) !in UsedBelow(base, n)
  {
    if Candidate(base, n) in UsedBelow(base, n) {
      var k :| 1 <= k < n && Candidate(base, k) == Candidate(base, n);
      CandidateInjective(base, k, n);
    }
    assert forall x :: x in UsedBelow(base, n + 1) ==> x in UsedBelow(base, n) || x == Candidate(base, n);
  }

  /** The smallest suffix from `n` on whose candidate is free. */
  function FirstFree(base: string, names: set<string>, n: nat): nat
    requires n >= 1
    decreases names - UsedBelow(base, n)
  {
    if Candidate(base, n) !in names then n
    else
      UsedBelowStep(base, n);
      FirstFree(base, names, n + 1)
  }

  /** The username `userRegister` stores. */
  function ChosenName(base: string, names: set<string>): string {
    var t := Prefix(base, MaxUsername);
    if t !in names then t else Candidate(base, FirstFree(base, names, 1))
  }

  /** The suffix loop of `userRegister`. */
  method UniqueUsername(base: string, names: set<string>) returns (candidate: string)
    ensures candidate == ChosenName(base, names)
  {
    candidate := Prefix(base, MaxUsername);
    if candidate in names {
      var suffix := 1;
      while true
        invariant suffix >= 1
        invariant FirstFree(base, names, suffix) == FirstFree(base, names, 1)
        decreases names - UsedBelow(base, suffix)
      {
        candidate := Candidate(base, suffix);
        if candidate !in names {
          break;
        }
        UsedBelowStep(base, suffix);
        suffix := suffix + 1;
      }
    }
  }

  lemma {:induction false} FirstFreeFacts(base: string, names: set<string>, n: nat)
    requires n >= 1
    ensures var f := FirstFree(base, names, n);
      && f >= n
      && Candidate(base, f) !in names
      && (forall k :: n <= k < f ==> Candidate(base, k) in names)
    decreases names - UsedBelow(base, n)
  {
    if Candidate(base, n) in names {
      UsedBelowStep(base, n);
      FirstFreeFacts(base, names, n + 1);
    }
  }

  /** The candidates tried are pairwise different, so the suffix found is at
      most one more than the number of names taken. */
  lemma {:induction false} FirstFreeBound(base: string, names: set<string>, n: nat)
    requires n >= 1
    requires UsedBelow(base, n) <= names && |UsedBelow(base, n)| == n - 1
    ensures FirstFree(base, names, n) <= |names| + 1
    decreases names - UsedBelow(base, n)
  {
    if Candidate(base, n) in names {
      UsedBelowStep(base, n);
      FirstFreeBound(base, names, n + 1);
    } else {
      assert |UsedBelow(base, n)| <= |names| by {
        SubsetCard(UsedBelow(base, n), names);
      }
    }
  }

  lemma SubsetCard<T>(a: set<T>, b: set<T>)
    requires a <= b
    ensures |a| <= |b|
  {
    assert b == a + (b - a);
  }

  function Pow10(k: nat): nat {
    if k == 0 then 1 else 10 * Pow10(k - 1)
  }

  lemma {:induction false} DecimalLength(n: nat, k: nat)
    requires k >= 1 && n < Pow10(k)
    ensures |DecimalString(n)| <= k
  {
    if n >= 10 {
      assert Pow10(1) == 10;
      assert n / 10 < Pow10(k - 1);
      DecimalLength(n / 10, k - 1);
    }
  }

  /** The chosen username is free, and it is the truncated base when that is
      free; otherwise it is the candidate with the smallest free suffix. It
      fits the column as long as fewer than 10^78 names are taken. */
  lemma ChosenNameFacts(base: string, names: set<string>)
    ensures var name := ChosenName(base, names);
      && name !in names
      && (Prefix(base, MaxUsername) !in names ==> name == Prefix(base, MaxUsername))
      && (Prefix(base, MaxUsername) in names ==>
            var n := FirstFree(base, names, 1);
            && n >= 1 && name == Candidate(base, n)
            && (forall k :: 1 <= k < n ==> Candidate(base, k) in names))
      && (|names| < Pow10(78) ==> |name| <= MaxUsername)
  {
    FirstFreeFacts(base, names, 1);
    var n := FirstFree(base, names, 1);
    if Prefix(base, MaxUsername) in names && |names| < Pow10(78) {
      assert UsedBelow(base, 1) == {};
      FirstFreeBound(base, names, 1);
      assert Pow10(79) == 10 * Pow10(78);
      DecimalLength(n, 79);
    }
  }

  /** The row `userRegister` inserts, or None when the e-mail is already
      registered (by the explicit check, or by the unique constraint for an
      empty e-mail). */
  function RegisterResult(us: seq<User>, nextId: int, username: Option<string>, password: string, email: Option<string>): Option<User> {
    if email.Some? && email.value in Emails(us) then None
    else Some(User(nextId, ChosenName(BaseName(username, email), Names(us)), password, email, None, None, None))
  }

  /** Registration fails exactly for a registered e-mail; otherwise the new
      row has the next id and a username no row holds, so the table stays
      valid once it is appended. */
  lemma RegisterFacts(us: seq<User>, nextId: int, username: Option<string>, password: string, email: Option<string>)
    requires ValidUsers(us, nextId)
    ensures var r := RegisterResult(us, nextId, username, password, email);
      && (r.None? <==> email.Some? && email.value in Emails(us))
      && (r.Some? ==>
            && r.value.id == nextId && r.value.email == email
            && r.value.username !in Names(us)
            && ValidUsers(us + [r.value], nextId + 1))
  {
    var r := RegisterResult(us, nextId, username, password, email);
    if r.Some? {
      ChosenNameFacts(BaseName(username, email), Names(us));
      AppendUserValid(us, nextId, r.value);
    }
  }

  /** A row with the next id, a fresh username and a fresh e-mail (or none)
      keeps the table valid. */
  lemma AppendUserValid(us: seq<User>, nextId: int, u: User)
    requires ValidUsers(us, nextId)
    requires u.id == nextId && u.username !in Names(us)
    requires u.email.Some? ==> u.email.value !in Emails(us)
    ensures ValidUsers(us + [u], nextId + 1)
  {
    var s := us + [u];
    forall i, j | 0 <= i < j < |s| ensures s[i].username != s[j].username {
      if j == |us| {
        assert s[i] in us;
      }
    }
    forall i, j | 0 <= i < j < |s| && s[i].email.Some? ensures s[i].email != s[j].email {
      if j == |us| {
        assert s[i] in us;
      }
    }
  }

  // ---------------------------------------------------------------------
  // The update functions

  /** `updateUserProfile`: the new table and the `(ok, message)` pair. */
  function UpdateProfileResult(us: seq<User>, id: int, username: Option<string>, photoUrl: Option<string>)
    : (seq<User>, bool, Option<string>)
  {
    var i := Find(us, id);
    if i.None? then (us, false, Some("User not found"))
    else
      var u := us[i.value];
      if username.Some? && username.value != u.username && username.value in Names(us) then
        (us, false, Some("Username already taken"))
      else
        var u1 := if username.Some? then u.(username := username.value) else u;
        var u2 := if photoUrl.Some? then u1.(photoUrl := photoUrl) else u1;
        (us[i.value := u2], true, None)
  }

  /** An unknown user and a taken username are refused with the table
      unchanged; otherwise only that user's username and photo change, each
      only when given, and the table stays valid. */
  lemma UpdateProfileFacts(us: seq<User>, nextId: int, id: int, username: Option<string>, photoUrl: Option<string>)
    requires ValidUsers(us, nextId)
    ensures var (us', ok, msg) := UpdateProfileResult(us, id, username, photoUrl);
      && (Find(us, id).None? ==> !ok && msg == Some("User not found") && us' == us)
      && (Find(us, id).Some? ==>
            var u := us[Find(us, id).value];
            && (username.Some? && username.value != u.username && username.value in Names(us) <==> !ok)
            && (!ok ==> msg == Some("Username already taken") && us' == us)
            && (ok ==>
                  && msg.None? && |us'| == |us|
                  && (forall j :: 0 <= j < |us| && us[j].id != id ==> us'[j] == us[j])
                  && us'[Find(us, id).value] == u.(username := username.GetOr(u.username), photoUrl := if photoUrl.Some? then photoUrl else u.photoUrl)))
      && ValidUsers(us', nextId)
  {
    var (us', ok, msg) := UpdateProfileResult(us, id, username, photoUrl);
    var fi := Find(us, id);
    if fi.Some? && ok {
      var i := fi.value;
      forall a, b | 0 <= a < b < |us'| ensures us'[a].username != us'[b].username {
        if a == i && username.Some? && username.value != us[i].username {
          assert us[b] in us;
        } else if b == i && username.Some? && username.value != us[i].username {
          assert us[a] in us;
        }
      }
    }
  }

  /** `updateUserTendency`: False for an unknown user, else only the
      `tendency` field of that user is replaced. */
  function UpdateTendencyResult(us: seq<User>, id: int, tendency: Option<string>): (seq<User>, bool) {
    var i := Find(us, id);
    if i.None? then (us, false) else (us[i.value := us[i.value].(tendency := tendency)], true)
  }

  lemma UpdateTendencyFacts(us: seq<User>, nextId: int, id: int, tendency: Option<string>)
    requires ValidUsers(us, nextId)
    ensures var (us', ok) := UpdateTendencyResult(us, id, tendency);
      && (ok <==> exists j :: 0 <= j < |us| && us[j].id == id)
      && |us'| == |us|
      && (forall j :: 0 <= j < |us| ==>
            us'[j] == if ok && us[j].id == id then us[j].(tendency := tendency) else us[j])
      && ValidUsers(us', nextId)
  {
  }

  /** `max(0.0, min(1.0, x))` */
  function Clamp01(x: real): (r: real)
    ensures 0.0 <= r <= 1.0
    ensures 0.0 <= x <= 1.0 ==> r == x
    ensures x < 0.0 ==> r == 0.0
    ensures x > 1.0 ==> r == 1.0
  {
    if x < 0.0 then 0.0 else if x > 1.0 then 1.0 else x
  }

  /** `None if x is None else max(0.0, min(1.0, x))` */
  function ClampOpt(x: Option<real>): (r: Option<real>)
    ensures r.None? <==> x.None?
    ensures r.Some? ==> 0.0 <= r.value <= 1.0 && (0.0 <= x.value <= 1.0 ==> r.value == x.value)
  {
    if x.None? then None else Some(Clamp01(x.value))
  }

  /** `updateUserFocusLevel` */
  function UpdateFocusResult(us: seq<User>, id: int, level: real): (seq<User>, bool) {
    var i := Find(us, id);
    if i.None? then (us, false) else (us[i.value := us[i.value].(focusLevel := Some(Clamp01(level)))], true)
  }

  /** False for an unknown user; otherwise that user's focus level becomes
      the clamped value and nothing else changes. */
  lemma UpdateFocusFacts(us: seq<User>, nextId: int, id: int, level: real)
    requires ValidUsers(us, nextId)
    ensures var (us', ok) := UpdateFocusResult(us, id, level);
      && (ok <==> exists j :: 0 <= j < |us| && us[j].id == id)
      && |us'| == |us|
      && (forall j :: 0 <= j < |us| && us[j].id != id ==> us'[j] == us[j])
      && (forall j :: 0 <= j < |us| && us[j].id == id ==>
            us'[j].focusLevel == Some(Clamp01(level))
            && 0.0 <= us'[j].focusLevel.value <= 1.0 && us'[j] == us[j].(focusLevel := us'[j].focusLevel))
      && ValidUsers(us', nextId)
  {
  }

  /** The row `recordWatchHistory` inserts. */
  function WatchRow(userId: int, videoId: int, progress: Option<real>, focus: Option<real>): (e: WatchEntry)
    ensures e.userId == userId && e.videoId == videoId
    ensures e.progress.None? <==> progress.None?
    ensures e.focus.None? <==> focus.None?
    ensures e.progress.Some? ==> 0.0 <= e.progress.value <= 1.0
    ensures e.focus.Some? ==> 0.0 <= e.focus.value <= 1.0
    ensures progress.Some? ==> e.progress == Some(Clamp01(progress.value))
    ensures focus.Some? ==> e.focus == Some(Clamp01(focus.value))
  {
    WatchEntry(userId, videoId, ClampOpt(progress), ClampOpt(focus))
  }

  // ---------------------------------------------------------------------
  // `searchVideo`

  /** `LIKE '%q%'` on the title or the tags, without regard to case. */
  predicate SearchMatch(v: Video, q: string) {
    Contains(Lower(v.title), Lower(q)) || Contains(Lower(v.tags), Lower(q))
  }

  function SearchFilter(q: string): Video -> bool {
    (v: Video) => SearchMatch(v, q)
  }

  /** `searchVideo(q, maxVideo)` */
  function SearchVideos(catalog: seq<Video>, q: string, maxVideo: int): (r: seq<Video>)
    ensures maxVideo >= 0 ==> |r| <= maxVideo
    ensures forall v :: v in r ==> v in catalog && SearchMatch(v, q)
  {
    Take(FilterVideos(catalog, SearchFilter(q)), maxVideo)
  }

  /** The search returns the first matching rows in table order: all of them
      when there are at most `maxVideo`. */
  lemma SearchComplete(catalog: seq<Video>, q: string, maxVideo: int, v: Video)
    requires v in catalog && SearchMatch(v, q)
    requires maxVideo < 0 || |FilterVideos(catalog, SearchFilter(q))| <= maxVideo
    ensures v in SearchVideos(catalog, q, maxVideo)
  {
  }
}
