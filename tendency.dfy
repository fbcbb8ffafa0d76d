/** Normalisation of a user's declared interests into the canonical keyword
    list that is stored, comma-joined, as the user's tendency. */
module Tendency {
  import opened Wrappers
  import opened Text
  import opened Tags

  /** `str(t).strip().lower()` */
  function Key(t: string): string {
    Lower(Strip(t))
  }

  /** The key of every token, in order. */
  function KeysOf(tokens: seq<string>): (ks: seq<string>)
    ensures |ks| == |tokens|
  {
    if tokens == [] then []
    else KeysOf(tokens[..|tokens| - 1]) + [Key(tokens[|tokens| - 1])]
  }

  lemma {:induction false} KeysOfAt(tokens: seq<string>, i: nat)
    requires i < |tokens|
    ensures KeysOf(tokens)[i] == Key(tokens[i])
  {
    if i < |tokens| - 1 {
      KeysOfAt(tokens[..|tokens| - 1], i);
    }
  }

  /** The non-empty keys, each kept at its first occurrence. */
  function Dedup(ks: seq<string>): seq<string> {
    if ks == [] then []
    else
      var prev := Dedup(ks[..|ks| - 1]);
      var k := ks[|ks| - 1];
      if k == [] || k in prev then prev else prev + [k]
  }

  /** What `normalize_tokens` returns for `tokens`. */
  function Normalized(tokens: seq<string>): seq<string> {
    Dedup(KeysOf(tokens))
  }

  lemma NormalizedStep(tokens: seq<string>, i: nat)
    requires i < |tokens|
    ensures var prev := Normalized(tokens[..i]);
      var k := Key(tokens[i]);
      Normalized(tokens[..i + 1]) == if k == [] || k in prev then prev else prev + [k]
  {
    assert tokens[..i + 1][..i] == tokens[..i];
    assert KeysOf(tokens[..i + 1]) == KeysOf(tokens[..i]) + [Key(tokens[i])];
  }

  /** `normalize_tokens` */
  method NormalizeTokens(tokens: seq<string>) returns (norm: seq<string>)
    ensures norm == Normalized(tokens)
  {
    var seen: set<string> := {};
    norm := [];
    var i := 0;
    while i < |tokens|
      invariant 0 <= i <= |tokens|
      invariant norm == Normalized(tokens[..i])
      invariant forall k :: k in seen <==> k in norm
    {
      var t := tokens[i];
      NormalizedStep(tokens, i);
      if t != [] {
        var k := Key(t);
        if k != [] && k !in seen {
          seen := seen + {k};
          norm := norm + [k];
        }
      } else {
        assert Key(t) == [];
      }
      i := i + 1;
    }
    assert tokens[..i] == tokens;
  }

  predicate Distinct(s: seq<string>) {
    forall i, j :: 0 <= i < j < |s| ==> s[i] != s[j]
  }

  /** A canonical token: non-empty, without surrounding whitespace and
      without upper-case letters. */
  predicate Canonical(k: string) {
    k != [] && Stripped(k) && IsLower(k)
  }

  lemma KeyCanonical(t: string)
    ensures Key(t) == [] || Canonical(Key(t))
    ensures Canonical(t) ==> Key(t) == t
  {
    StripIsStripped(t);
    LowerIsLower(Strip(t));
    if Canonical(t) {
      StrippedStrip(t);
    }
  }

  /** De-duplication keeps exactly the non-empty keys, once each. */
  lemma {:induction false} DedupContents(ks: seq<string>)
    ensures Distinct(Dedup(ks))
    ensures forall k :: k in Dedup(ks) ==> k in ks && k != []
    ensures forall k :: k in ks && k != [] ==> k in Dedup(ks)
  {
    if ks != [] {
      var init := ks[..|ks| - 1];
      DedupContents(init);
      assert ks == init + [ks[|ks| - 1]];
    }
  }

  /** Index of the first occurrence of `k`. */
  function FirstIndex(ks: seq<string>, k: string): (i: nat)
    requires k in ks
    ensures i < |ks| && ks[i] == k
    ensures forall j :: 0 <= j < i ==> ks[j] != k
  {
    if ks[0] == k then 0 else 1 + FirstIndex(ks[1..], k)
  }

  lemma {:induction false} FirstIndexAppend(ks: seq<string>, x: string, k: string)
    requires k in ks
    ensures k in ks + [x] && FirstIndex(ks + [x], k) == FirstIndex(ks, k)
  {
    if ks[0] != k {
      assert (ks + [x])[1..] == ks[1..] + [x];
      FirstIndexAppend(ks[1..], x, k);
    }
  }

  /** First-seen order: the kept keys appear in the order of their first
      occurrence. */
  lemma {:induction false} DedupOrder(ks: seq<string>, i: nat, j: nat)
    requires i < j < |Dedup(ks)|
    ensures Dedup(ks)[i] in ks && Dedup(ks)[j] in ks
    ensures FirstIndex(ks, Dedup(ks)[i]) < FirstIndex(ks, Dedup(ks)[j])
  {
    DedupContents(ks);
    var d := Dedup(ks);
    assert d[i] in d && d[j] in d;
    var init := ks[..|ks| - 1];
    var last := ks[|ks| - 1];
    var prev := Dedup(init);
    DedupContents(init);
    assert ks == init + [last];
    assert d[..|prev|] == prev;
    assert prev[i] == d[i];
    assert prev[i] in init;
    FirstIndexAppend(init, last, prev[i]);
    if j < |prev| {
      assert prev[j] == d[j];
      DedupOrder(init, i, j);
      FirstIndexAppend(init, last, prev[j]);
    } else {
      assert d[j] == last && last !in init;
      assert FirstIndex(ks, last) == |init|;
    }
  }

  /** De-duplicating distinct non-empty keys changes nothing. */
  lemma {:induction false} DedupIdempotent(ks: seq<string>)
    requires Distinct(ks)
    requires forall i :: 0 <= i < |ks| ==> ks[i] != []
    ensures Dedup(ks) == ks
  {
    if ks != [] {
      var init := ks[..|ks| - 1];
      var last := ks[|ks| - 1];
      DedupIdempotent(init);
      assert forall i :: 0 <= i < |init| ==> init[i] == ks[i];
      assert last !in init;
      assert init + [last] == ks;
    }
  }

  lemma {:induction false} KeysOfCanonical(tokens: seq<string>)
    ensures forall k :: k in KeysOf(tokens) ==> k == [] || Canonical(k)
    ensures (forall i :: 0 <= i < |tokens| ==> Canonical(tokens[i])) ==> KeysOf(tokens) == tokens
  {
    if tokens != [] {
      var init := tokens[..|tokens| - 1];
      KeysOfCanonical(init);
      KeyCanonical(tokens[|tokens| - 1]);
      assert tokens == init + [tokens[|tokens| - 1]];
    }
  }

  /** `normalize_tokens` yields distinct canonical tokens: exactly the
      non-empty keys of its input, in first-seen order. */
  lemma NormalizedTokens(tokens: seq<string>)
    ensures Distinct(Normalized(tokens))
    ensures forall k :: k in Normalized(tokens) ==> Canonical(k) && k in KeysOf(tokens)
    ensures forall k :: k in KeysOf(tokens) && k != [] ==> k in Normalized(tokens)
  {
    DedupContents(KeysOf(tokens));
    KeysOfCanonical(tokens);
  }

  /** Normalising distinct canonical tokens changes nothing. */
  lemma NormalizedIdempotent(ts: seq<string>)
    requires Distinct(ts)
    requires forall i :: 0 <= i < |ts| ==> Canonical(ts[i])
    ensures Normalized(ts) == ts
  {
    KeysOfCanonical(ts);
    DedupIdempotent(ts);
  }

  // ---------------------------------------------------------------------
  // Structured selection { board: [topics] }

  /** `[str(t).strip() for t in topics if t]` */
  function ChosenTopics(topics: seq<string>): (r: seq<string>)
    ensures |r| <= |topics|
  {
    if topics == [] then []
    else if topics[0] == [] then ChosenTopics(topics[1..])
    else [Strip(topics[0])] + ChosenTopics(topics[1..])
  }

  /** Every board of the catalog is well formed, as `Tags.CatalogWellFormed`
      shows of the shipped catalog. */
  predicate WellFormedCatalog(catalog: map<string, Topics>) {
    forall b :: b in catalog ==> WellFormedBoard(catalog[b])
  }

  /** The catalog topics of a board, or none for an unknown board. */
  function BoardTopics(catalog: map<string, Topics>, boardLower: string): set<string> {
    if boardLower in catalog then catalog[boardLower].Keys else {}
  }

  /** The catalog keywords of a topic, or none when board or topic is unknown. */
  function TopicKeywords(catalog: map<string, Topics>, boardLower: string, topicLower: string): seq<string> {
    if boardLower in catalog && topicLower in catalog[boardLower] then catalog[boardLower][topicLower]
    else []
  }

  /** Whether the lower-cased chosen topics cover every topic of the board. */
  predicate CoversBoard(catalog: map<string, Topics>, boardLower: string, chosen: seq<string>) {
    Covers(BoardTopics(catalog, boardLower), chosen)
  }

  /** `all_topics and all_topics.issubset(chosen_lower)` */
  predicate Covers(all: set<string>, chosen: seq<string>) {
    all != {} && (set t | t in all :: Lower(t)) <= (set c | c in chosen :: Lower(c))
  }

  /** The tokens one chosen topic contributes: its name, then its keywords. */
  function TopicTokens(catalog: map<string, Topics>, boardLower: string, chosen: seq<string>): seq<string> {
    if chosen == [] then []
    else [chosen[0]] + TopicKeywords(catalog, boardLower, Lower(chosen[0])) + TopicTokens(catalog, boardLower, chosen[1..])
  }

  /** The tokens one `(board, topics)` entry of the selection contributes. */
  function BoardTokens(catalog: map<string, Topics>, board: string, topics: seq<string>): seq<string> {
    if board == [] then []
    else
      var b := Strip(board);
      var chosen := ChosenTopics(topics);
      (if CoversBoard(catalog, Lower(b), chosen) then [b] else []) + TopicTokens(catalog, Lower(b), chosen)
  }

  /** The tokens of a whole selection, boards in the order given. */
  function SelectionSpec(catalog: map<string, Topics>, selected: seq<(string, seq<string>)>): seq<string> {
    if selected == [] then []
    else
      var n := |selected| - 1;
      SelectionSpec(catalog, selected[..n]) + BoardTokens(catalog, selected[n].0, selected[n].1)
  }

  /** The loop over `selected.items()` that appends board and topic tokens
      and extends them with the topic keywords. */
  method SelectionTokens(catalog: map<string, Topics>, selected: seq<(string, seq<string>)>) returns (tokens: seq<string>)
    ensures tokens == SelectionSpec(catalog, selected)
  {
    tokens := [];
    var i := 0;
    while i < |selected|
      invariant 0 <= i <= |selected|
      invariant tokens == SelectionSpec(catalog, selected[..i])
    {
      SelectionSpecStep(catalog, selected, i);
      tokens := AppendBoardTokens(catalog, tokens, selected[i].0, selected[i].1);
      i := i + 1;
    }
    assert selected[..i] == selected;
  }

  lemma SelectionSpecStep(catalog: map<string, Topics>, selected: seq<(string, seq<string>)>, i: nat)
    requires i < |selected|
    ensures SelectionSpec(catalog, selected[..i + 1])
         == SelectionSpec(catalog, selected[..i]) + BoardTokens(catalog, selected[i].0, selected[i].1)
  {
    assert selected[..i + 1][..i] == selected[..i];
  }

  /** One iteration of the loop over `selected.items()`. */
  method AppendBoardTokens(catalog: map<string, Topics>, head: seq<string>, board: string, topics: seq<string>) returns (tokens: seq<string>)
    ensures tokens == head + BoardTokens(catalog, board, topics)
  {
    if board == [] {
      tokens := head;
      assert BoardTokens(catalog, board, topics) == [];
    } else {
      tokens := AppendEntryTokens(catalog, head, board, topics);
    }
  }

  method AppendEntryTokens(catalog: map<string, Topics>, head: seq<string>, board: string, topics: seq<string>) returns (tokens: seq<string>)
    requires board != []
    ensures tokens == head + BoardTokens(catalog, board, topics)
  {
    var b := Strip(board);
    var bLower := Lower(b);
    var chosen := ChosenTopics(topics);
    var boardToken: seq<string> := [];
    if CoversBoard(catalog, bLower, chosen) {
      boardToken := [b];
    }
    BoardTokensOf(catalog, board, topics);
    tokens := AppendTopicTokens(catalog, head + boardToken, bLower, chosen);
    assert tokens == head + (boardToken + TopicTokens(catalog, bLower, chosen));
  }

  lemma BoardTokensOf(catalog: map<string, Topics>, board: string, topics: seq<string>)
    requires board != []
    ensures var b := Strip(board);
      var chosen := ChosenTopics(topics);
      BoardTokens(catalog, board, topics)
      == (if CoversBoard(catalog, Lower(b), chosen) then [b] else []) + TopicTokens(catalog, Lower(b), chosen)
  {
  }

  lemma TopicTokensCons(catalog: map<string, Topics>, bLower: string, chosen: seq<string>, j: nat)
    requires j < |chosen|
    ensures TopicTokens(catalog, bLower, chosen[j..])
         == [chosen[j]] + TopicKeywords(catalog, bLower, Lower(chosen[j])) + TopicTokens(catalog, bLower, chosen[j + 1..])
  {
    assert chosen[j..][1..] == chosen[j + 1..];
  }

  /** The inner loop over the chosen topics of one board. */
  method AppendTopicTokens(catalog: map<string, Topics>, head: seq<string>, bLower: string, chosen: seq<string>) returns (tokens: seq<string>)
    ensures tokens == head + TopicTokens(catalog, bLower, chosen)
  {
    tokens := head;
    var j := 0;
    while j < |chosen|
      invariant 0 <= j <= |chosen|
      invariant tokens + TopicTokens(catalog, bLower, chosen[j..]) == head + TopicTokens(catalog, bLower, chosen)
    {
      var topic := chosen[j];
      var keywords := TopicKeywords(catalog, bLower, Lower(topic));
      var rest := TopicTokens(catalog, bLower, chosen[j + 1..]);
      TopicTokensCons(catalog, bLower, chosen, j);
      assert tokens + ([topic] + keywords + rest) == tokens + [topic] + keywords + rest;
      tokens := tokens + [topic];
      tokens := tokens + keywords;
      j := j + 1;
    }
    assert chosen[j..] == [];
  }

  /** Lower-case topic names are covered exactly when they are all among the
      lower-cased chosen topics. */
  lemma CoversIff(all: set<string>, chosen: seq<string>)
    requires forall t :: t in all ==> IsLower(t)
    ensures Covers(all, chosen) <==> all != {} && all <= (set c | c in chosen :: Lower(c))
  {
    forall t | t in all ensures Lower(t) == t {
      LowerIsLower(t);
    }
    assert (set t | t in all :: Lower(t)) == all;
  }

  /** The board name is emitted exactly when the board is in the catalog and
      every one of its topics was chosen. */
  lemma BoardTokenIff(catalog: map<string, Topics>, board: string, topics: seq<string>, chosenTopics: set<string>)
    requires WellFormedCatalog(catalog)
    requires board != []
    requires chosenTopics == set c | c in ChosenTopics(topics) :: Lower(c)
    ensures var bl := Lower(Strip(board));
      CoversBoard(catalog, bl, ChosenTopics(topics)) <==> bl in catalog && catalog[bl].Keys <= chosenTopics
  {
    var bl := Lower(Strip(board));
    var all := BoardTopics(catalog, bl);
    assert bl in catalog ==> WellFormedBoard(catalog[bl]);
    CoversIff(all, ChosenTopics(topics));
  }

  /** Every chosen topic is emitted; a topic of a known board brings its
      catalog keywords; an unknown board brings no keywords at all. */
  lemma {:induction false} TopicTokensContents(catalog: map<string, Topics>, boardLower: string, chosen: seq<string>)
    ensures forall c :: c in chosen ==> c in TopicTokens(catalog, boardLower, chosen)
    ensures forall c, w :: c in chosen && w in TopicKeywords(catalog, boardLower, Lower(c)) ==> w in TopicTokens(catalog, boardLower, chosen)
    ensures boardLower !in catalog ==> TopicTokens(catalog, boardLower, chosen) == chosen
  {
    if chosen != [] {
      TopicTokensContents(catalog, boardLower, chosen[1..]);
      assert chosen == [chosen[0]] + chosen[1..];
    }
  }

  /** Keywords come only from the catalog entry of a chosen topic. */
  lemma {:induction false} TopicTokensSources(catalog: map<string, Topics>, boardLower: string, chosen: seq<string>, w: string)
    requires w in TopicTokens(catalog, boardLower, chosen)
    ensures w in chosen || exists c :: c in chosen && w in TopicKeywords(catalog, boardLower, Lower(c))
  {
    var c0 := chosen[0];
    assert chosen == [c0] + chosen[1..];
    if w == c0 {
    } else if w in TopicKeywords(catalog, boardLower, Lower(c0)) {
      assert c0 in chosen;
    } else {
      TopicTokensSources(catalog, boardLower, chosen[1..], w);
    }
  }

  // ---------------------------------------------------------------------
  // The request body of PUT /api/profile/tendency

  /** A JSON value found under one of the recognised keys. */
  datatype Field =
    | Missing
    | Str(s: string)
    | TextList(items: seq<string>)
    | Selection(boards: seq<(string, seq<string>)>)
    | OtherJson(truthy: bool)   // a number, boolean or null

  /** The JSON object: the four keys read, and whether any other key is there. */
  datatype Body = Body(tendency: Field, tags: Field, selected: Field, selection: Field, otherKeys: bool)

  datatype BodyError = JsonBodyRequired | UnrecognisedShape

  predicate Truthy(f: Field) {
    match f
    case Missing => false
    case Str(s) => s != []
    case TextList(items) => items != []
    case Selection(boards) => boards != []
    case OtherJson(t) => t
  }

  predicate EmptyBody(body: Body) {
    body.tendency == Missing && body.tags == Missing && body.selected == Missing
    && body.selection == Missing && !body.otherKeys
  }

  /** `data.get('selected') or data.get('selection')` */
  function SelectedField(body: Body): Field {
    if Truthy(body.selected) then body.selected else body.selection
  }

  /** The raw tokens of the first recognised shape: a non-blank string, then
      a list, then a selection object. */
  function RawTokens(catalog: map<string, Topics>, body: Body): Result<seq<string>, BodyError> {
    if EmptyBody(body) then Failure(JsonBodyRequired)
    else if body.tendency.Str? && Strip(body.tendency.s) != [] then Success(Tokenize(body.tendency.s))
    else if body.tags.TextList? then Success(body.tags.items)
    else if SelectedField(body).Selection? then Success(SelectionSpec(catalog, SelectedField(body).boards))
    else Failure(UnrecognisedShape)
  }

  /** The keyword list `update_tendency` stores, or the 400 error. */
  function TendencyKeywords(catalog: map<string, Topics>, body: Body): Result<seq<string>, BodyError> {
    match RawTokens(catalog, body)
    case Success(ts) => Success(Normalized(ts))
    case Failure(e) => Failure(e)
  }

  /** The body of `update_tendency` up to the store update: the shape
      dispatch, normalisation and the comma-joined serialisation. */
  method NormalizeBody(catalog: map<string, Topics>, body: Body) returns (r: Result<(seq<string>, string), BodyError>)
    ensures r.Failure? <==> TendencyKeywords(catalog, body).Failure?
    ensures r.Failure? ==> r.error == TendencyKeywords(catalog, body).error
    ensures r.Success? ==> r.value.0 == TendencyKeywords(catalog, body).value && r.value.1 == Join(r.value.0, ',')
  {
    if EmptyBody(body) {
      return Failure(JsonBodyRequired);
    }
    var tokens: seq<string>;
    var selected := SelectedField(body);
    if body.tendency.Str? && Strip(body.tendency.s) != [] {
      tokens := Tokenize(body.tendency.s);
    } else if body.tags.TextList? {
      tokens := body.tags.items;
    } else if selected.Selection? {
      tokens := SelectionTokens(catalog, selected.boards);
    } else {
      return Failure(UnrecognisedShape);
    }
    var norm := NormalizeTokens(tokens);
    r := Success((norm, Join(norm, ',')));
  }

  /** A body with no recognised shape is refused. */
  lemma RejectsUnrecognised(catalog: map<string, Topics>, body: Body)
    requires !(body.tendency.Str? && Strip(body.tendency.s) != [])
    requires !body.tags.TextList? && !SelectedField(body).Selection?
    ensures TendencyKeywords(catalog, body).Failure?
  {
  }

  /** The stored keywords are distinct canonical tokens. */
  lemma KeywordsCanonical(catalog: map<string, Topics>, body: Body)
    requires TendencyKeywords(catalog, body).Success?
    ensures Distinct(TendencyKeywords(catalog, body).value)
    ensures forall i :: 0 <= i < |TendencyKeywords(catalog, body).value| ==> Canonical(TendencyKeywords(catalog, body).value[i])
  {
    NormalizedTokens(RawTokens(catalog, body).value);
  }

  /** Keywords from the free-text shape hold no comma and no whitespace, so
      the stored string tokenises back to them (as the feed re-parses it),
      and normalising that again is the identity. */
  lemma {:induction false} FreeTextRoundTrip(s: string)
    ensures var ks := Normalized(Tokenize(s));
      && Tokenize(Join(ks, ',')) == ks
      && Tokenize(Lower(Join(ks, ','))) == ks
      && Normalized(Tokenize(Join(ks, ','))) == ks
  {
    var ts := Tokenize(s);
    var ks := Normalized(ts);
    NormalizedTokens(ts);
    forall i | 0 <= i < |ks| ensures ks[i] != [] && NoSpace(ks[i]) && NoComma(ks[i]) {
      assert ks[i] in ks;
      var j :| 0 <= j < |ts| && KeysOf(ts)[j] == ks[i];
      KeysOfAt(ts, j);
      KeyOfToken(ts[j]);
    }
    TokenizeJoin(ks);
    NormalizedIdempotent(ks);
    JoinLower(ks);
  }

  /** The key of a comma- and space-free token keeps both properties. */
  lemma KeyOfToken(t: string)
    requires t != [] && NoSpace(t) && NoComma(t)
    ensures NoSpace(Key(t)) && NoComma(Key(t))
  {
    assert Stripped(t);
    StrippedStrip(t);
    LowerAt(t);
  }

  /** Lower-casing the join of lower-case tokens changes nothing. */
  lemma {:induction false} JoinLower(ks: seq<string>)
    requires forall i :: 0 <= i < |ks| ==> IsLower(ks[i])
    ensures Lower(Join(ks, ',')) == Join(ks, ',')
  {
    if |ks| >= 2 {
      JoinLower(ks[1..]);
    }
    assert IsLower(Join(ks, ',')) by {
      JoinIsLower(ks);
    }
    LowerIsLower(Join(ks, ','));
  }

  lemma {:induction false} JoinIsLower(ks: seq<string>)
    requires forall i :: 0 <= i < |ks| ==> IsLower(ks[i])
    ensures IsLower(Join(ks, ','))
  {
    if |ks| >= 2 {
      JoinIsLower(ks[1..]);
      var j := Join(ks, ',');
      assert j == ks[0] + [','] + Join(ks[1..], ',');
      forall i | 0 <= i < |j| ensures !('A' <= j[i] <= 'Z') {
        if i < |ks[0]| {
          assert j[i] == ks[0][i];
        } else if i > |ks[0]| {
          assert j[i] == Join(ks[1..], ',')[i - |ks[0]| - 1];
        }
      }
    }
  }

  /** Choosing one topic of a board that has others emits that topic name
      unchanged (spaces included) followed by its catalog keywords. The
      feed's re-parse of the stored string (`TokenizeSpaced`) splits such a
      name into several keywords. */
  lemma SingleTopicTokens(catalog: map<string, Topics>, b: string, t: string, other: string)
    requires Canonical(b) && Canonical(t)
    requires WellFormedCatalog(catalog)
    requires b in catalog && t in catalog[b] && other in catalog[b] && other != t
    ensures BoardTokens(catalog, b, [t]) == [t] + catalog[b][t]
  {
    CanonicalFixed(b);
    ChosenSingle(t);
    assert WellFormedBoard(catalog[b]);
    NotCovered(BoardTopics(catalog, b), t, other);
    assert TopicTokens(catalog, b, [t]) == [t] + TopicKeywords(catalog, b, t) + TopicTokens(catalog, b, []);
  }

  lemma ChosenSingle(t: string)
    requires Canonical(t)
    ensures ChosenTopics([t]) == [t] && Lower(t) == t
  {
    CanonicalFixed(t);
    assert ChosenTopics([t]) == [t] + ChosenTopics([]);
  }

  lemma NotCovered(all: set<string>, topic: string, other: string)
    requires Lower(topic) == topic && IsLower(other)
    requires other in all && other != topic
    ensures !Covers(all, [topic])
  {
    LowerIsLower(other);
    var need := set t | t in all :: Lower(t);
    var have := set c | c in [topic] :: Lower(c);
    assert other in need;
    assert other !in have;
  }

  lemma CanonicalFixed(k: string)
    requires Canonical(k)
    ensures Strip(k) == k && Lower(k) == k
  {
    StrippedStrip(k);
    LowerIsLower(k);
  }
}
