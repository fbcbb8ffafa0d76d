/** `create_user.py`: the bulk import of `username,email,password` lines and
    the duplicate checks of `create_user_from_data`. */
module UserImport {
  import opened Wrappers
  import opened Text
  import opened Videos
  import opened Users
  import opened UserStore

  // ---------------------------------------------------------------------
  // `create_user_from_data`

  /** `User.query.filter_by(email=email).first()`: a None e-mail matches the
      rows without one. */
  predicate EmailTaken(us: seq<User>, email: Option<string>) {
    exists i :: 0 <= i < |us| && us[i].email == email
  }

  /** The table, the next id and the `(success, message)` pair. */
  function CreateResult(us: seq<User>, nextId: int, username: string, password: string, email: Option<string>,
                        tendency: Option<string>, photoUrl: Option<string>): (seq<User>, int, bool, string)
  {
    if username in Names(us) then (us, nextId, false, "Username already exists")
    else if EmailTaken(us, email) then (us, nextId, false, "Email already registered")
    else (us + [User(nextId, username, password, email, tendency, photoUrl, None)], nextId + 1, true, "User created successfully")
  }

  /** A taken username is refused first, then a registered e-mail, each
      leaving the table as it was; otherwise exactly one row is added with
      the next id, and the table stays valid. */
  lemma CreateFacts(us: seq<User>, nextId: int, username: string, password: string, email: Option<string>,
                    tendency: Option<string>, photoUrl: Option<string>)
    requires ValidUsers(us, nextId)
    ensures var (us', id', ok, msg) := CreateResult(us, nextId, username, password, email, tendency, photoUrl);
      && (username in Names(us) ==> !ok && msg == "Username already exists")
      && (username !in Names(us) && EmailTaken(us, email) ==> !ok && msg == "Email already registered")
      && (ok <==> username !in Names(us) && !EmailTaken(us, email))
      && (!ok ==> us' == us && id' == nextId)
      && (ok ==> us' == us + [User(nextId, username, password, email, tendency, photoUrl, None)] && id' == nextId + 1)
      && ValidUsers(us', id')
  {
    var (us', id', ok, msg) := CreateResult(us, nextId, username, password, email, tendency, photoUrl);
    if ok {
      forall i, j | 0 <= i < j < |us'| ensures us'[i].username != us'[j].username {
        if j == |us| {
          assert us'[i] in us;
        }
      }
    }
  }

  /** `create_user_from_data` on the store. */
  method CreateUserFromData(store: Store, username: string, password: string, email: Option<string>,
                            tendency: Option<string>, photoUrl: Option<string>) returns (ok: bool, msg: string)
    requires store.Valid()
    modifies store
    ensures store.Valid()
    ensures (store.users, store.nextId, ok, msg) ==
      CreateResult(old(store.users), old(store.nextId), username, password, email, tendency, photoUrl)
    ensures store.history == old(store.history)
  {
    CreateFacts(store.users, store.nextId, username, password, email, tendency, photoUrl);
    if username in Names(store.users) {
      return false, "Username already exists";
    }
    if EmailTaken(store.users, email) {
      return false, "Email already registered";
    }
    var newUser := User(store.nextId, username, password, email, tendency, photoUrl, None);
    store.users := store.users + [newUser];
    store.nextId := store.nextId + 1;
    return true, "User created successfully";
  }

  // ---------------------------------------------------------------------
  // Parsing one line

  datatype Parsed =
    | Skip
    | InvalidFormat
    | MissingFields
    | Fields(username: string, email: string, password: string)

  /** A stripped line: blank or `#` lines are skipped, then three
      comma-separated fields are required, each non-empty once stripped. */
  function ParseLine(line: string): (p: Parsed)
    ensures p.Fields? ==> p.username != [] && p.email != [] && p.password != []
  {
    var l := Strip(line);
    if l == [] || l[0] == '#' then Skip
    else
      var fields := SplitBy(l, IsComma);
      if |fields| != 3 then InvalidFormat
      else
        var username, email, password := Strip(fields[0]), Strip(fields[1]), Strip(fields[2]);
        if username == [] || email == [] || password == [] then MissingFields
        else Fields(username, email, password)
  }

  /** A line written as `username,email,password` from non-empty stripped
      fields without commas parses back to those fields, in that order. */
  lemma ParseFormat(username: string, email: string, password: string)
    requires username != [] && email != [] && password != []
    requires Stripped(username) && Stripped(email) && Stripped(password)
    requires NoComma(username) && NoComma(email) && NoComma(password)
    requires username[0] != '#'
    ensures ParseLine(Join([username, email, password], ',')) == Fields(username, email, password)
  {
    var line := Join([username, email, password], ',');
    assert [username, email, password][1..] == [email, password];
    assert [email, password][1..] == [password];
    assert Join([password], ',') == password;
    assert Join([email, password], ',') == email + [','] + password;
    assert line == username + [','] + (email + [','] + password);
    assert line[0] == username[0];
    assert line[|line| - 1] == password[|password| - 1];
    assert Stripped(line);
    StrippedStrip(line);
    assert NoSep(username, IsComma) && NoSep(email, IsComma) && NoSep(password, IsComma);
    SplitJoin([username, email, password], ',', IsComma);
    StrippedStrip(username);
    StrippedStrip(email);
    StrippedStrip(password);
  }

  // ---------------------------------------------------------------------
  // `import_users_from_file`

  /** `f"Line {line_num}: {message}"` */
  function LineError(lineNum: nat, message: string): string {
    "Line " + DecimalString(lineNum) + ": " + message
  }

  const InvalidFormatMessage: string := "Invalid format - expected 'username,email,password'"
  const MissingFieldsMessage: string := "Missing required fields"

  /** The import's running state: the table and the three counters. */
  datatype Tally = Tally(users: seq<User>, nextId: int, success: nat, errorCount: nat, errors: seq<string>)

  /** One line, numbered from 1. */
  function ImportStep(t: Tally, line: string, lineNum: nat): Tally {
    match ParseLine(line)
    case Skip => t
    case InvalidFormat => t.(errorCount := t.errorCount + 1, errors := t.errors + [LineError(lineNum, InvalidFormatMessage)])
    case MissingFields => t.(errorCount := t.errorCount + 1, errors := t.errors + [LineError(lineNum, MissingFieldsMessage)])
    case Fields(username, email, password) =>
      var (us, id, ok, msg) := CreateResult(t.users, t.nextId, username, password, Some(email), None, None);
      if ok then t.(users := us, nextId := id, success := t.success + 1)
      else t.(errorCount := t.errorCount + 1, errors := t.errors + [LineError(lineNum, msg)])
  }

  /** The state after the lines `lines`, numbered from 1. */
  function Import(t: Tally, lines: seq<string>): Tally {
    if lines == [] then t
    else ImportStep(Import(t, lines[..|lines| - 1]), lines[|lines| - 1], |lines|)
  }

  /** `import_users_from_file` over the lines of the file. */
  method ImportUsers(store: Store, lines: seq<string>) returns (successCount: nat, errorCount: nat, errors: seq<string>)
    requires store.Valid()
    modifies store
    ensures store.Valid()
    ensures Tally(store.users, store.nextId, successCount, errorCount, errors)
      == Import(Tally(old(store.users), old(store.nextId), 0, 0, []), lines)
    ensures store.history == old(store.history)
  {
    ghost var t0 := Tally(store.users, store.nextId, 0, 0, []);
    successCount, errorCount, errors := 0, 0, [];
    var lineNum := 0;
    while lineNum < |lines|
      invariant 0 <= lineNum <= |lines|
      invariant store.Valid()
      invariant Tally(store.users, store.nextId, successCount, errorCount, errors) == Import(t0, lines[..lineNum])
      invariant store.history == old(store.history)
    {
      assert lines[..lineNum + 1][..lineNum] == lines[..lineNum];
      var line := lines[lineNum];
      lineNum := lineNum + 1;
      var parsed := ParseLine(line);
      match parsed {
        case Skip =>
        case InvalidFormat =>
          errorCount := errorCount + 1;
          errors := errors + [LineError(lineNum, InvalidFormatMessage)];
        case MissingFields =>
          errorCount := errorCount + 1;
          errors := errors + [LineError(lineNum, MissingFieldsMessage)];
        case Fields(username, email, password) =>
          var success, message := CreateUserFromData(store, username, password, Some(email), None, None);
          if success {
            successCount := successCount + 1;
          } else {
            errorCount := errorCount + 1;
            errors := errors + [LineError(lineNum, message)];
          }
      }
    }
    assert lines[..lineNum] == lines;
  }

  /** The number of lines that are not skipped. */
  function Counted(lines: seq<string>): nat {
    if lines == [] then 0
    else Counted(lines[..|lines| - 1]) + (if ParseLine(lines[|lines| - 1]).Skip? then 0 else 1)
  }

  /** Every counted line is a success or an error and skipped lines are
      neither; there is one message per error, and one new row per success. */
  lemma {:induction false} ImportCounts(t: Tally, lines: seq<string>)
    requires |t.errors| == t.errorCount
    ensures var r := Import(t, lines);
      && r.success >= t.success
      && r.success + r.errorCount == t.success + t.errorCount + Counted(lines)
      && |r.errors| == r.errorCount
      && |r.users| == |t.users| + (r.success - t.success)
      && r.nextId == t.nextId + (r.success - t.success)
  {
    if lines != [] {
      ImportCounts(t, lines[..|lines| - 1]);
    }
  }

  /** The counters of `import_users_from_file` start at zero whatever the
      table already holds: every counted line is a success or an error,
      there is one message per error, and one new row per success. */
  lemma ImportFromTable(users: seq<User>, nextId: int, lines: seq<string>)
    ensures var r := Import(Tally(users, nextId, 0, 0, []), lines);
      && r.success + r.errorCount == Counted(lines)
      && |r.errors| == r.errorCount
      && |r.users| == |users| + r.success
  {
    ImportCounts(Tally(users, nextId, 0, 0, []), lines);
  }

  /** The import keeps the table valid. */
  lemma {:induction false} ImportValid(t: Tally, lines: seq<string>)
    requires ValidUsers(t.users, t.nextId)
    ensures ValidUsers(Import(t, lines).users, Import(t, lines).nextId)
  {
    if lines != [] {
      ImportValid(t, lines[..|lines| - 1]);
      var p := Import(t, lines[..|lines| - 1]);
      var parsed := ParseLine(lines[|lines| - 1]);
      if parsed.Fields? {
        CreateFacts(p.users, p.nextId, parsed.username, parsed.password, Some(parsed.email), None, None);
      }
    }
  }

  /** What one line does: a skipped line changes nothing; a malformed line
      or a refused user adds one message carrying the line number and no
      row; an accepted user adds one row and no message. */
  lemma LineEffect(t: Tally, line: string, lineNum: nat)
    ensures var r := ImportStep(t, line, lineNum);
      && (ParseLine(line).Skip? ==> r == t)
      && (ParseLine(line).InvalidFormat? ==>
            r.users == t.users && r.errors == t.errors + [LineError(lineNum, InvalidFormatMessage)])
      && (ParseLine(line).MissingFields? ==>
            r.users == t.users && r.errors == t.errors + [LineError(lineNum, MissingFieldsMessage)])
      && (ParseLine(line).Fields? ==>
            || (r.success == t.success + 1 && |r.users| == |t.users| + 1 && r.errors == t.errors)
            || (r.users == t.users && |r.errors| == |t.errors| + 1
                && r.errors[|t.errors|][..5 + |DecimalString(lineNum)|] == "Line " + DecimalString(lineNum)))
  {
    var r := ImportStep(t, line, lineNum);
    var p := ParseLine(line);
    if p.Fields? && r.users == t.users && |r.errors| == |t.errors| + 1 {
      var (us, id, ok, msg) := CreateResult(t.users, t.nextId, p.username, p.password, Some(p.email), None, None);
      assert r.errors[|t.errors|] == LineError(lineNum, msg);
    }
  }

  /** The number in an error message reads back as the line number. */
  lemma LineNumberReadsBack(lineNum: nat, message: string)
    ensures var e := LineError(lineNum, message);
      DecimalValue(e[5..5 + |DecimalString(lineNum)|]) == lineNum
  {
    var e := LineError(lineNum, message);
    assert e[5..5 + |DecimalString(lineNum)|] == DecimalString(lineNum);
    DecimalRoundTrip(lineNum);
  }
}
