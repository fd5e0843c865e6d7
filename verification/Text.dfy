/** White space, lexical order and comma-separated lists. */
module Text {
  // ----- white space -----

  predicate IsSpace(c: char) {
    || '\t' <= c <= '\r' || c == ' ' || c == '\U{85}' || c == '\U{A0}' || c == '\U{1680}'
    || '\U{2000}' <= c <= '\U{200A}' || c in {'\U{2028}', '\U{2029}', '\U{202F}', '\U{205F}', '\U{3000}'}
  }

  /** By code points: the controls from tab to carriage return, the spaces of Latin-1, and those of Unicode's
      White_Space property beyond it. */
  lemma WhiteSpace(c: char)
    ensures IsSpace(c) <==>
              || 9 <= c as int <= 13 || c as int == 32 || c as int == 133 || c as int == 160 || c as int == 5760
              || 8192 <= c as int <= 8202 || c as int == 8232 || c as int == 8233 || c as int == 8239
              || c as int == 8287 || c as int == 12288
  {
  }

  function TrimSpace(s: string): string {
    if s == "" then ""
    else if IsSpace(s[0]) then TrimSpace(s[1..])
    else if IsSpace(s[|s| - 1]) then TrimSpace(s[..|s| - 1])
    else s
  }

  /** Nothing but white space. */
  predicate Blank(s: string) { TrimSpace(s) == "" }

  lemma {:induction false} BlankMeaning(s: string)
    ensures Blank(s) <==> forall c <- s :: IsSpace(c)
    decreases |s|
  {
    if s != "" {
      if IsSpace(s[0]) {
        assert s == [s[0]] + s[1..];
        BlankMeaning(s[1..]);
      } else if IsSpace(s[|s| - 1]) {
        assert TrimSpace(s) == TrimSpace(s[..|s| - 1]) && s[0] in s[..|s| - 1];
        BlankMeaning(s[..|s| - 1]);
      }
      assert s[0] in s;
    }
  }

  lemma {:induction false} TrimSurroundings(before: string, s: string, after: string)
    requires forall c <- before + after :: IsSpace(c)
    requires s != "" && !IsSpace(s[0]) && !IsSpace(s[|s| - 1])
    ensures TrimSpace(before + s + after) == s
    decreases |before| + |after|
  {
    var whole := before + s + after;
    if before != "" {
      assert whole[0] in before + after && whole[1..] == before[1..] + s + after;
      TrimSurroundings(before[1..], s, after);
    } else if after != "" {
      assert whole[|whole| - 1] == after[|after| - 1] && after[|after| - 1] in before + after;
      assert whole[0] == s[0] && whole[..|whole| - 1] == before + s + after[..|after| - 1];
      TrimSurroundings(before, s, after[..|after| - 1]);
    } else {
      assert whole == s;
    }
  }

  // ----- lexical order -----

  predicate LexLe(a: string, b: string) {
    a == "" || (b != "" && (a[0] < b[0] || (a[0] == b[0] && LexLe(a[1..], b[1..]))))
  }

  lemma {:induction false} LexTotal(a: string, b: string)
    ensures LexLe(a, b) || LexLe(b, a)
  {
    if a != "" && b != "" { LexTotal(a[1..], b[1..]); }
  }

  lemma {:induction false} LexTransitive(a: string, b: string, c: string)
    requires LexLe(a, b) && LexLe(b, c)
    ensures LexLe(a, c)
  {
    if a != "" && a[0] == b[0] == c[0] { LexTransitive(a[1..], b[1..], c[1..]); }
  }

  /** The first position where two strings differ decides, and a string follows its prefixes. */
  ghost predicate Precedes(a: string, b: string) {
    a <= b || exists k :: 0 <= k < |a| && k < |b| && a[..k] == b[..k] && a[k] < b[k]
  }

  lemma {:induction false} LexMeaning(a: string, b: string)
    ensures LexLe(a, b) <==> Precedes(a, b)
  {
    if a != "" && b != "" {
      assert a == [a[0]] + a[1..] && b == [b[0]] + b[1..];
      LexMeaning(a[1..], b[1..]);
      if a[0] == b[0] {
        SameFirst(a, b);
      } else {
        assert a[..0] == b[..0];
        forall k | 0 < k < |a| && k < |b|
            ensures a[..k] != b[..k] { assert a[..k][0] == a[0] && b[..k][0] == b[0]; }
      }
    }
  }

  lemma SameFirst(a: string, b: string)
    requires a != "" && b != "" && a[0] == b[0]
    ensures Precedes(a, b) <==> Precedes(a[1..], b[1..])
  {
    assert a == [a[0]] + a[1..] && b == [b[0]] + b[1..];
    if Precedes(a[1..], b[1..]) && !(a[1..] <= b[1..]) {
      var k :| 0 <= k < |a[1..]| && k < |b[1..]| && a[1..][..k] == b[1..][..k] && a[1..][k] < b[1..][k];
      assert a[..k + 1] == [a[0]] + a[1..][..k] && b[..k + 1] == [b[0]] + b[1..][..k];
    }
    if Precedes(a, b) && !(a <= b) {
      var k :| 0 <= k < |a| && k < |b| && a[..k] == b[..k] && a[k] < b[k];
      assert a[1..][..k - 1] == a[..k][1..] && b[1..][..k - 1] == b[..k][1..];
    }
  }

  // ----- lists of names in one parameter -----

  function Join(parts: seq<string>, sep: string): string {
    if parts == [] then ""
    else if |parts| == 1 then parts[0]
    else Join(parts[..|parts| - 1], sep) + sep + parts[|parts| - 1]
  }

  method JoinAll(parts: seq<string>, sep: string) returns (joined: string)
    ensures joined == Join(parts, sep)
  {
    joined := "";
    for i := 0 to |parts|
      invariant joined == Join(parts[..i], sep)
    {
      assert parts[..i + 1][..i] == parts[..i];
      joined := if i == 0 then parts[i] else joined + sep + parts[i];
    }
    assert parts[..|parts|] == parts;
  }

  predicate CommaFree(s: string) { ',' !in s }

  predicate AllCommaFree(parts: seq<string>) { forall s <- parts :: CommaFree(s) }

  /** The names a comma-separated parameter spells out. */
  function Split(s: string): (parts: seq<string>)
    ensures |parts| == 1 + Commas(s)
  {
    if s == "" then [""]
    else
      var front, c := Split(s[..|s| - 1]), s[|s| - 1];
      if c == ',' then front + [""] else front[..|front| - 1] + [front[|front| - 1] + [c]]
  }

  function Commas(s: string): nat {
    if s == "" then 0 else Commas(s[..|s| - 1]) + (if s[|s| - 1] == ',' then 1 else 0)
  }

  lemma {:induction false} CommasAppend(a: string, b: string)
    ensures Commas(a + b) == Commas(a) + Commas(b)
    decreases |b|
  {
    if b == "" {
      assert a + b == a;
    } else {
      assert (a + b)[..|a + b| - 1] == a + b[..|b| - 1];
      CommasAppend(a, b[..|b| - 1]);
    }
  }

  lemma {:induction false} NoCommas(s: string)
    ensures Commas(s) == 0 <==> CommaFree(s)
    decreases |s|
  {
    if s != "" {
      assert s == s[..|s| - 1] + [s[|s| - 1]];
      NoCommas(s[..|s| - 1]);
    }
  }

  lemma {:induction false} SplitOne(s: string)
    requires CommaFree(s)
    ensures Split(s) == [s]
    decreases |s|
  {
    if s != "" {
      assert s == s[..|s| - 1] + [s[|s| - 1]];
      SplitOne(s[..|s| - 1]);
    }
  }

  /** One more name without comma, after a comma. */
  lemma {:induction false} SplitAppend(s: string, part: string)
    requires CommaFree(part)
    ensures Split(s + "," + part) == Split(s) + [part]
    decreases |part|
  {
    var whole := s + "," + part;
    if part == "" {
      assert whole[..|whole| - 1] == s;
    } else {
      var front := part[..|part| - 1];
      assert part == front + [part[|part| - 1]];
      SplitAppend(s, front);
      assert whole[..|whole| - 1] == s + "," + front;
    }
  }

  /** Names without commas are read back from their joined form. */
  lemma {:induction false} SplitJoin(parts: seq<string>)
    requires parts != [] && AllCommaFree(parts)
    ensures Split(Join(parts, ",")) == parts
    decreases |parts|
  {
    var n := |parts| - 1;
    if n == 0 {
      SplitOne(parts[0]);
    } else {
      assert parts == parts[..n] + [parts[n]];
      SplitJoin(parts[..n]);
      SplitAppend(Join(parts[..n], ","), parts[n]);
    }
  }

  /** A joined list spells out one name more for every comma inside its names. */
  lemma {:induction false} JoinSpellsOut(parts: seq<string>)
    requires parts != []
    ensures |Split(Join(parts, ","))| >= |parts|
    ensures |Split(Join(parts, ","))| == |parts| <==> AllCommaFree(parts)
    decreases |parts|
  {
    var n := |parts| - 1;
    NoCommas(parts[n]);
    if n > 0 {
      assert parts == parts[..n] + [parts[n]];
      JoinSpellsOut(parts[..n]);
      CommasAppend(Join(parts[..n], ",") + ",", parts[n]);
      CommasAppend(Join(parts[..n], ","), ",");
      assert Commas(",") == 1 by { assert ","[..0] == ""; }
    }
  }
}
