/** Python string built-ins used by the backend: `isspace`, `lower`, `strip`,
    `split(',')`, `split()`, `','.join(...)`, `in` on strings and `str(n)`. */
module Text {

  /** Python's `str.isspace()` for a single character. */
  predicate IsSpace(c: char) {
    || ('\t' <= c <= '\r')
    || ('\U{1c}' <= c <= '\U{1f}')
    || c == ' ' || c == '\U{85}' || c == '\U{a0}' || c == '\U{1680}'
    || ('\U{2000}' <= c <= '\U{200a}')
    || c == '\U{2028}' || c == '\U{2029}' || c == '\U{202f}' || c == '\U{205f}' || c == '\U{3000}'
  }

  predicate IsComma(c: char) {
    c == ','
  }

  predicate NoSpace(s: string) {
    forall i :: 0 <= i < |s| ==> !IsSpace(s[i])
  }

  predicate NoComma(s: string) {
    forall i :: 0 <= i < |s| ==> s[i] != ','
  }

  /** `str.lower()` on the ASCII letters. */
  function LowerChar(c: char): (d: char)
    ensures IsSpace(d) <==> IsSpace(c)
    ensures d == ',' <==> c == ','
    ensures !('A' <= d <= 'Z')
    ensures !('A' <= c <= 'Z') ==> d == c
  {
    if 'A' <= c <= 'Z' then (c as int + 32) as char else c
  }

  function Lower(s: string): (r: string)
    ensures |r| == |s|
  {
    if s == [] then [] else [LowerChar(s[0])] + Lower(s[1..])
  }

  lemma {:induction false} LowerAt(s: string)
    ensures forall i :: 0 <= i < |s| ==> Lower(s)[i] == LowerChar(s[i])
  {
    if s != [] {
      LowerAt(s[1..]);
    }
  }

  /** No upper-case ASCII letter, so that `Lower` leaves the string alone. */
  predicate IsLower(s: string) {
    forall i :: 0 <= i < |s| ==> !('A' <= s[i] <= 'Z')
  }

  lemma LowerIsLower(s: string)
    ensures IsLower(Lower(s))
    ensures IsLower(s) ==> Lower(s) == s
  {
    LowerAt(s);
  }

  function TrimStart(s: string): (r: string)
    ensures |r| <= |s|
  {
    if |s| > 0 && IsSpace(s[0]) then TrimStart(s[1..]) else s
  }

  function TrimEnd(s: string): (r: string)
    ensures |r| <= |s|
  {
    if |s| > 0 && IsSpace(s[|s| - 1]) then TrimEnd(s[..|s| - 1]) else s
  }

  /** `str.strip()` */
  function Strip(s: string): string {
    TrimEnd(TrimStart(s))
  }

  /** Neither end of `s` is whitespace. */
  predicate Stripped(s: string) {
    s == [] || (!IsSpace(s[0]) && !IsSpace(s[|s| - 1]))
  }

  lemma {:induction false} TrimStartShape(s: string)
    ensures TrimStart(s) == s[|s| - |TrimStart(s)|..]
    ensures TrimStart(s) == [] || !IsSpace(TrimStart(s)[0])
  {
    if |s| > 0 && IsSpace(s[0]) {
      TrimStartShape(s[1..]);
    }
  }

  lemma {:induction false} TrimEndShape(s: string)
    ensures TrimEnd(s) == s[..|TrimEnd(s)|]
    ensures TrimEnd(s) == [] || !IsSpace(TrimEnd(s)[|TrimEnd(s)| - 1])
  {
    if |s| > 0 && IsSpace(s[|s| - 1]) {
      TrimEndShape(s[..|s| - 1]);
    }
  }

  lemma StripIsStripped(s: string)
    ensures Stripped(Strip(s))
    ensures Stripped(Lower(Strip(s)))
  {
    var t := TrimStart(s);
    var r := TrimEnd(t);
    TrimStartShape(s);
    TrimEndShape(t);
    if r != [] {
      assert r[0] == t[0];
    }
    LowerAt(r);
  }

  lemma StrippedStrip(s: string)
    requires Stripped(s)
    ensures Strip(s) == s
  {
  }

  /** `s.split(sep)` where `isSep` recognises the separator characters: every
      separator ends one part, so there is always at least one part. */
  function SplitBy(s: string, isSep: char -> bool): (parts: seq<string>)
    ensures |parts| >= 1
  {
    if |s| == 0 then [""]
    else
      var rest := SplitBy(s[1..], isSep);
      if isSep(s[0]) then [""] + rest else [[s[0]] + rest[0]] + rest[1..]
  }

  /** `sep.join(ts)` */
  function Join(ts: seq<string>, sep: char): string {
    if |ts| == 0 then ""
    else if |ts| == 1 then ts[0]
    else ts[0] + [sep] + Join(ts[1..], sep)
  }

  predicate NoSep(s: string, isSep: char -> bool) {
    forall i :: 0 <= i < |s| ==> !isSep(s[i])
  }

  lemma {:induction false} SplitNoSepPrefix(t: string, s: string, isSep: char -> bool)
    requires NoSep(t, isSep)
    ensures SplitBy(t + s, isSep) == [t + SplitBy(s, isSep)[0]] + SplitBy(s, isSep)[1..]
  {
    if |t| > 0 {
      assert (t + s)[1..] == t[1..] + s;
      SplitNoSepPrefix(t[1..], s, isSep);
      assert [t[0]] + (t[1..] + SplitBy(s, isSep)[0]) == t + SplitBy(s, isSep)[0];
    } else {
      assert t + s == s;
      assert t + SplitBy(s, isSep)[0] == SplitBy(s, isSep)[0];
    }
  }

  /** The first part of a split is the longest separator-free prefix. */
  lemma {:induction false} SplitFirst(s: string, isSep: char -> bool)
    ensures var p := SplitBy(s, isSep)[0];
      && p <= s && NoSep(p, isSep)
      && (|p| < |s| ==> isSep(s[|p|]))
  {
    if |s| > 0 {
      SplitFirst(s[1..], isSep);
    }
  }

  /** Splitting a separator-free join returns the parts: `s.split(',')`
      inverts `','.join(ts)`. */
  lemma {:induction false} SplitJoin(ts: seq<string>, sep: char, isSep: char -> bool)
    requires |ts| >= 1 && isSep(sep)
    requires forall k :: 0 <= k < |ts| ==> NoSep(ts[k], isSep)
    ensures SplitBy(Join(ts, sep), isSep) == ts
  {
    if |ts| == 1 {
      assert ts[0] + "" == ts[0];
      SplitNoSepPrefix(ts[0], "", isSep);
      assert SplitBy("", isSep) == [""];
    } else {
      var rest := Join(ts[1..], sep);
      SplitJoin(ts[1..], sep, isSep);
      assert [sep] + rest == [sep] + rest;
      assert SplitBy([sep] + rest, isSep) == [""] + ts[1..] by {
        assert ([sep] + rest)[1..] == rest;
      }
      assert Join(ts, sep) == ts[0] + ([sep] + rest);
      SplitNoSepPrefix(ts[0], [sep] + rest, isSep);
      assert ts[0] + "" == ts[0];
    }
  }

  lemma {:induction false} SplitPartsNoSep(s: string, isSep: char -> bool)
    ensures forall k :: 0 <= k < |SplitBy(s, isSep)| ==> NoSep(SplitBy(s, isSep)[k], isSep)
  {
    if |s| > 0 {
      SplitPartsNoSep(s[1..], isSep);
    }
  }

  function NonEmpty(ps: seq<string>): (r: seq<string>)
    ensures forall k :: 0 <= k < |r| ==> r[k] != []
    ensures forall k :: 0 <= k < |r| ==> r[k] in ps
  {
    if ps == [] then []
    else if ps[0] == [] then NonEmpty(ps[1..])
    else [ps[0]] + NonEmpty(ps[1..])
  }

  /** `s.split()`: the maximal runs of non-whitespace characters. */
  function Words(s: string): (ws: seq<string>)
    ensures forall k :: 0 <= k < |ws| ==> ws[k] in SplitBy(s, IsSpace)
    ensures forall k :: 0 <= k < |ws| ==> ws[k] != [] && NoSpace(ws[k])
  {
    var parts := SplitBy(s, IsSpace);
    var ws := NonEmpty(parts);
    SplitPartsNoSep(s, IsSpace);
    assert forall k :: 0 <= k < |ws| ==> NoSpace(ws[k]) by {
      forall k | 0 <= k < |ws| ensures NoSpace(ws[k]) {
        var j :| 0 <= j < |parts| && parts[j] == ws[k];
        assert NoSep(parts[j], IsSpace);
      }
    }
    ws
  }

  lemma WordsOfWord(t: string)
    requires t != [] && NoSpace(t)
    ensures Words(t) == [t]
  {
    assert NoSep(t, IsSpace);
    SplitJoin([t], ' ', IsSpace);
    assert Join([t], ' ') == t;
    assert NonEmpty([t]) == [t] + NonEmpty([]);
  }

  /** `[p.strip() for chunk in s.split(',') for p in chunk.split()]` */
  function Tokenize(s: string): (ts: seq<string>)
    ensures forall k :: 0 <= k < |ts| ==> ts[k] != [] && NoSpace(ts[k]) && NoComma(ts[k])
  {
    SplitPartsNoSep(s, IsComma);
    TokenizeChunks(SplitBy(s, IsComma))
  }

  function TokenizeChunks(chunks: seq<string>): (ts: seq<string>)
    requires forall k :: 0 <= k < |chunks| ==> NoSep(chunks[k], IsComma)
    ensures forall k :: 0 <= k < |ts| ==> ts[k] != [] && NoSpace(ts[k]) && NoComma(ts[k])
  {
    if chunks == [] then []
    else
      var ws := Words(chunks[0]);
      assert forall k :: 0 <= k < |ws| ==> ws[k] in SplitBy(chunks[0], IsSpace);
      StripWords(ws, chunks[0]) + TokenizeChunks(chunks[1..])
  }

  /** `[p.strip() for p in ws]`, where the words come from a comma-free chunk. */
  function StripWords(ws: seq<string>, chunk: string): (r: seq<string>)
    requires NoSep(chunk, IsComma)
    requires forall k :: 0 <= k < |ws| ==> ws[k] != [] && NoSpace(ws[k])
    requires forall k :: 0 <= k < |ws| ==> ws[k] in SplitBy(chunk, IsSpace)
    ensures |r| == |ws|
    ensures forall k :: 0 <= k < |r| ==> r[k] != [] && NoSpace(r[k]) && NoComma(r[k])
  {
    if ws == [] then []
    else
      ChunkWordNoComma(chunk, ws[0]);
      var w := ws[0];
      assert NoSpace(w) && w != [];
      assert !IsSpace(w[0]) && !IsSpace(w[|w| - 1]);
      StrippedStrip(w);
      [Strip(ws[0])] + StripWords(ws[1..], chunk)
  }

  lemma {:induction false} ChunkWordNoComma(chunk: string, w: string)
    requires NoSep(chunk, IsComma)
    requires w in SplitBy(chunk, IsSpace)
    ensures NoComma(w)
  {
    if |chunk| > 0 {
      var rest := SplitBy(chunk[1..], IsSpace);
      if !IsSpace(chunk[0]) && w == [chunk[0]] + rest[0] {
        ChunkWordNoComma(chunk[1..], rest[0]);
        assert chunk[0] != ',';
      } else if w != [] {
        assert w in rest;
        ChunkWordNoComma(chunk[1..], w);
      }
    }
  }

  /** Re-tokenising the comma-joined serialisation of tokens that hold no comma
      and no whitespace gives the tokens back. */
  lemma {:induction false} TokenizeJoin(ts: seq<string>)
    requires forall k :: 0 <= k < |ts| ==> ts[k] != [] && NoSpace(ts[k]) && NoComma(ts[k])
    ensures Tokenize(Join(ts, ',')) == ts
  {
    if ts == [] {
      assert SplitBy("", IsComma) == [""];
      assert SplitBy("", IsSpace) == [""];
      assert NonEmpty([""]) == [];
      assert Words("") == [];
      assert TokenizeChunks([""]) == StripWords([], "") + TokenizeChunks([]);
    } else {
      SplitJoin(ts, ',', IsComma);
      SplitPartsNoSep(Join(ts, ','), IsComma);
      TokenizeChunksOfTokens(ts);
    }
  }

  lemma {:induction false} TokenizeChunksOfTokens(ts: seq<string>)
    requires forall k :: 0 <= k < |ts| ==> ts[k] != [] && NoSpace(ts[k]) && NoComma(ts[k])
    ensures forall k :: 0 <= k < |ts| ==> NoSep(ts[k], IsComma)
    ensures TokenizeChunks(ts) == ts
  {
    if ts != [] {
      TokenizeChunksOfTokens(ts[1..]);
      TokenizeOneChunk(ts[0]);
    }
  }

  lemma TokenizeOneChunk(t: string)
    requires t != [] && NoSpace(t) && NoComma(t)
    ensures NoSep(t, IsComma)
    ensures StripWords(Words(t), t) == [t]
  {
    WordsOfWord(t);
    assert Stripped(t);
    StrippedStrip(t);
  }

  /** Two words joined by a space are two tokens, not one. */
  lemma TokenizeSpaced(a: string, b: string)
    requires a != [] && NoSpace(a) && NoComma(a)
    requires b != [] && NoSpace(b) && NoComma(b)
    ensures Tokenize(a + [' '] + b) == [a, b]
  {
    var s := a + [' '] + b;
    assert s == Join([a, b], ' ');
    assert NoSep(s, IsComma) by {
      forall i | 0 <= i < |s| ensures !IsComma(s[i]) {
        if i < |a| {
          assert s[i] == a[i];
        } else if i > |a| {
          assert s[i] == b[i - |a| - 1];
        }
      }
    }
    SplitJoin([s], ',', IsComma);
    assert Join([s], ',') == s;
    SplitJoin([a, b], ' ', IsSpace);
    assert NonEmpty([a, b]) == [a] + NonEmpty([b]);
    assert NonEmpty([b]) == [b] + NonEmpty([]);
    assert Words(s) == [a, b];
    assert Stripped(a) && Stripped(b);
    StrippedStrip(a);
    StrippedStrip(b);
    assert StripWords([a, b], s) == [Strip(a)] + StripWords([b], s);
    assert TokenizeChunks([s]) == StripWords([a, b], s) + TokenizeChunks([]);
  }

  /** `needle in hay` on strings. */
  predicate Contains(hay: string, needle: string) {
    needle <= hay || (|hay| > 0 && Contains(hay[1..], needle))
  }

  /** `str(n)` for a non-negative integer. */
  function DecimalString(n: nat): (s: string)
    ensures |s| >= 1
    ensures forall i :: 0 <= i < |s| ==> '0' <= s[i] <= '9'
  {
    if n < 10 then [DigitChar(n)] else DecimalString(n / 10) + [DigitChar(n % 10)]
  }

  function DigitChar(d: nat): (c: char)
    requires d < 10
    ensures '0' <= c <= '9'
  {
    ('0' as int + d) as char
  }

  function DecimalValue(s: string): int {
    if s == [] then 0 else DecimalValue(s[..|s| - 1]) * 10 + (s[|s| - 1] as int - '0' as int)
  }

  lemma {:induction false} DecimalRoundTrip(n: nat)
    ensures DecimalValue(DecimalString(n)) == n
  {
    if n >= 10 {
      DecimalRoundTrip(n / 10);
      var s := DecimalString(n);
      assert s[..|s| - 1] == DecimalString(n / 10);
    }
  }

  lemma DecimalInjective(n: nat, m: nat)
    requires DecimalString(n) == DecimalString(m)
    ensures n == m
  {
    DecimalRoundTrip(n);
    DecimalRoundTrip(m);
  }
}
