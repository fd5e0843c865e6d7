/** The four base64 encodings (RFC 4648, sections 4 and 5, padded or not) and the key decoder that tries them all. */
module Base64 {
  import opened Domain
  import opened Text

  type Byte = b: int | 0 <= b < 256

  type Digit = d: int | 0 <= d < 64

  datatype Encoding = Encoding(url: bool, padded: bool)

  const STD := Encoding(false, true)
  const RAW_STD := Encoding(false, false)
  const URL := Encoding(true, true)
  const RAW_URL := Encoding(true, false)
  const ENCODINGS := [STD, RAW_STD, URL, RAW_URL]

  // ----- the alphabets -----

  function Symbol(e: Encoding, d: Digit): char {
    if d < 26 then 'A' + d as char
    else if d < 52 then 'a' + (d - 26) as char
    else if d < 62 then '0' + (d - 52) as char
    else if d == 62 then (if e.url then '-' else '+')
    else if e.url then '_' else '/'
  }

  function DigitOf(e: Encoding, c: char): Option<Digit> {
    if 'A' <= c <= 'Z' then Some((c - 'A') as int)
    else if 'a' <= c <= 'z' then Some((c - 'a') as int + 26)
    else if '0' <= c <= '9' then Some((c - '0') as int + 52)
    else if c == (if e.url then '-' else '+') then Some(62)
    else if c == (if e.url then '_' else '/') then Some(63)
    else None
  }

  lemma SymbolIsDigit(e: Encoding, d: Digit)
    ensures DigitOf(e, Symbol(e, d)) == Some(d)
    ensures Symbol(e, d) !in {'=', '\n', '\r', '.'} && !IsSpace(Symbol(e, d))
  {
  }

  // ----- encoding -----

  /** The digits of one, two or three bytes. */
  function Symbols(e: Encoding, k: seq<Byte>): string
    requires 1 <= |k| <= 3
  {
    [Symbol(e, k[0] / 4)]
    + (if |k| == 1 then [Symbol(e, k[0] % 4 * 16)]
       else
         [Symbol(e, k[0] % 4 * 16 + k[1] / 16)]
         + (if |k| == 2 then [Symbol(e, k[1] % 16 * 4)]
            else [Symbol(e, k[1] % 16 * 4 + k[2] / 64), Symbol(e, k[2] % 64)]))
  }

  function Padding(e: Encoding, n: nat): string {
    if !e.padded then "" else if n == 1 then "=" else "=="
  }

  function Encode(e: Encoding, k: seq<Byte>): string {
    if k == [] then ""
    else if |k| < 3 then Symbols(e, k) + Padding(e, 3 - |k|)
    else Symbols(e, k[..3]) + Encode(e, k[3..])
  }

  // ----- decoding -----

  /** Line breaks are skipped wherever they stand. */
  function Clean(s: string): string {
    if s == "" then "" else (if s[0] in {'\n', '\r'} then "" else [s[0]]) + Clean(s[1..])
  }

  function Decode(e: Encoding, s: string): Option<seq<Byte>> { Quanta(e, Clean(s)) }

  /** The first n characters are digits. */
  predicate Digits(e: Encoding, s: string, n: nat) {
    n <= |s| && forall i :: 0 <= i < n ==> DigitOf(e, s[i]).Some?
  }

  function Quanta(e: Encoding, s: string): Option<seq<Byte>> {
    if s == "" then Some([])
    else if Digits(e, s, 4) then
      var rest := Quanta(e, s[4..]);
      if rest.None? then None else Some(Bytes(e, s[..4]) + rest.value)
    else LastQuantum(e, s)
  }

  /** The bytes of 2, 3 or 4 digits. The spare bits of the last digit are ignored. */
  function Bytes(e: Encoding, s: string): seq<Byte>
    requires 2 <= |s| <= 4 && Digits(e, s, |s|)
  {
    var d0, d1 := DigitOf(e, s[0]).value, DigitOf(e, s[1]).value;
    if |s| == 2 then [d0 * 4 + d1 / 16]
    else
      var d2 := DigitOf(e, s[2]).value;
      if |s| == 3 then [d0 * 4 + d1 / 16, d1 % 16 * 16 + d2 / 4]
      else [d0 * 4 + d1 / 16, d1 % 16 * 16 + d2 / 4, d2 % 4 * 64 + DigitOf(e, s[3]).value]
  }

  /** An incomplete quantum: padded up to four characters, or cut short when the encoding has no padding. */
  function LastQuantum(e: Encoding, s: string): Option<seq<Byte>> {
    var n := if !e.padded then |s| else if |s| != 4 || s[3] != '=' then 0 else if s[2] == '=' then 2 else 3;
    if 2 <= n <= 3 && Digits(e, s, n) then Some(Bytes(e, s[..n])) else None
  }

  // ----- one encoding -----

  lemma {:induction false} RoundTrip(e: Encoding, k: seq<Byte>)
    ensures Decode(e, Encode(e, k)) == Some(k)
  {
    EncodeIsClean(e, k);
    CleanIsSame(Encode(e, k));
    QuantaRoundTrip(e, k);
  }

  /** Test vectors of section 10 of RFC 4648. */
  lemma Vectors()
    ensures Encode(STD, [102]) == "Zg==" && Encode(STD, [102, 111]) == "Zm8=" && Encode(STD, [102, 111, 111]) == "Zm9v"
    ensures Encode(STD, [102, 111, 111, 98, 97, 114]) == "Zm9vYmFy"
  {
    var foobar := [102, 111, 111, 98, 97, 114];
    assert foobar[..3] == [102, 111, 111] && foobar[3..] == [98, 97, 114];
    assert [98, 97, 114][..3] == [98, 97, 114] && [98, 97, 114][3..] == [];
    assert [102, 111, 111][..3] == [102, 111, 111] && [102, 111, 111][3..] == [];
  }

  /** Without padding, and the two characters in which the alphabets of its sections 4 and 5 differ. */
  lemma OtherVectors()
    ensures Encode(RAW_STD, [102]) == "Zg" && Encode(RAW_URL, [102, 111]) == "Zm8"
    ensures Encode(STD, [251, 255, 254]) == "+//+" && Encode(URL, [251, 255, 254]) == "-__-"
  {
    assert [251, 255, 254][..3] == [251, 255, 254] && [251, 255, 254][3..] == [];
  }

  lemma SymbolsAreDigits(e: Encoding, k: seq<Byte>)
    requires 1 <= |k| <= 3
    ensures var s := Symbols(e, k);
            && |s| == |k| + 1 && DigitOf(e, s[0]) == Some(k[0] / 4)
            && DigitOf(e, s[1]) == Some(k[0] % 4 * 16 + (if |k| > 1 then k[1] / 16 else 0))
            && (|k| > 1 ==> DigitOf(e, s[2]) == Some(k[1] % 16 * 4 + (if |k| > 2 then k[2] / 64 else 0)))
            && (|k| > 2 ==> DigitOf(e, s[3]) == Some(k[2] % 64))
  {
    var b1: Byte, b2: Byte := if |k| > 1 then k[1] else 0, if |k| > 2 then k[2] else 0;
    SymbolIsDigit(e, k[0] / 4);
    SymbolIsDigit(e, k[0] % 4 * 16 + b1 / 16);
    SymbolIsDigit(e, b1 % 16 * 4 + b2 / 64);
    SymbolIsDigit(e, b2 % 64);
  }

  lemma SymbolsRoundTrip(e: Encoding, k: seq<Byte>)
    requires 1 <= |k| <= 3
    ensures |Symbols(e, k)| == |k| + 1 && Digits(e, Symbols(e, k), |k| + 1) && Bytes(e, Symbols(e, k)) == k
  {
    SymbolsAreDigits(e, k);
    var s := Symbols(e, k);
    forall i | 0 <= i < |s| ensures DigitOf(e, s[i]).Some? { assert i == 0 || i == 1 || i == 2 || i == 3; }
    BitsRegroup(k[0], if |k| > 1 then k[1] else 0, if |k| > 2 then k[2] else 0);
  }

  lemma BitsRegroup(b0: Byte, b1: Byte, b2: Byte)
    ensures b0 / 4 * 4 + (b0 % 4 * 16 + b1 / 16) / 16 == b0
    ensures (b0 % 4 * 16 + b1 / 16) % 16 * 16 + (b1 % 16 * 4 + b2 / 64) / 4 == b1
    ensures (b1 % 16 * 4 + b2 / 64) % 4 * 64 + b2 % 64 == b2
  {
  }

  lemma {:induction false} QuantaRoundTrip(e: Encoding, k: seq<Byte>)
    ensures Quanta(e, Encode(e, k)) == Some(k)
  {
    if k != [] {
      var s, n := Encode(e, k), if |k| < 3 then |k| else 3;
      SymbolsRoundTrip(e, k[..n]);
      var symbols := Symbols(e, k[..n]);
      DigitsAgree(e, e, '=');
      if |k| < 3 {
        assert k[..n] == k;
        assert s == symbols + Padding(e, 3 - n) && s[..n + 1] == symbols;
        DigitsPrefix(e, s, n + 1);
      } else {
        QuantaRoundTrip(e, k[3..]);
        FullQuantum(e, symbols, Encode(e, k[3..]), k[3..]);
        assert k == k[..3] + k[3..];
      }
    }
  }

  lemma FullQuantum(e: Encoding, symbols: string, more: string, rest: seq<Byte>)
    requires |symbols| == 4 && Digits(e, symbols, 4) && Quanta(e, more) == Some(rest)
    ensures Quanta(e, symbols + more) == Some(Bytes(e, symbols) + rest)
  {
    var s := symbols + more;
    assert s[..4] == symbols && s[4..] == more;
    DigitsPrefix(e, s, 4);
  }

  lemma DigitsPrefix(e: Encoding, s: string, n: nat)
    requires n <= |s| && Digits(e, s[..n], n)
    ensures Digits(e, s, n)
  {
    forall i | 0 <= i < n ensures DigitOf(e, s[i]).Some? { assert s[..n][i] == s[i]; }
  }

  lemma {:induction false} EncodeIsClean(e: Encoding, k: seq<Byte>)
    ensures forall c <- Encode(e, k) :: c !in {'\n', '\r', '.'} && !IsSpace(c)
    ensures k != [] <==> Encode(e, k) != ""
  {
    forall d: Digit ensures Symbol(e, d) !in {'=', '\n', '\r', '.'} && !IsSpace(Symbol(e, d)) { SymbolIsDigit(e, d); }
    if |k| > 2 { EncodeIsClean(e, k[3..]); }
  }

  lemma {:induction false} CleanIsSame(s: string)
    requires '\n' !in s && '\r' !in s
    ensures Clean(s) == s
  {
    if s != "" {
      assert s == [s[0]] + s[1..];
      CleanIsSame(s[1..]);
    }
  }

  // ----- any two of them -----

  /** A string that two of the encodings accept means the same bytes in both. */
  lemma Agreement(e: Encoding, f: Encoding, s: string)
    requires Decode(e, s).Some? && Decode(f, s).Some?
    ensures Decode(e, s) == Decode(f, s)
  {
    QuantaAgree(e, f, Clean(s));
  }

  lemma {:induction false} QuantaAgree(e: Encoding, f: Encoding, s: string)
    requires Quanta(e, s).Some? && Quanta(f, s).Some?
    ensures Quanta(e, s) == Quanta(f, s)
  {
    if s != "" {
      if Digits(e, s, 4) {
        if !Digits(f, s, 4) { LastIsNotFull(f, e, s); }
        BytesAgree(e, f, s[..4]);
        QuantaAgree(e, f, s[4..]);
      } else {
        if Digits(f, s, 4) { LastIsNotFull(e, f, s); }
        LastAgrees(e, f, s);
      }
    }
  }

  lemma DigitsAgree(e: Encoding, f: Encoding, c: char)
    ensures DigitOf(e, c).Some? && DigitOf(f, c).Some? ==> DigitOf(e, c) == DigitOf(f, c)
    ensures DigitOf(e, '=').None?
  {
  }

  lemma BytesAgree(e: Encoding, f: Encoding, s: string)
    requires 2 <= |s| <= 4 && Digits(e, s, |s|) && Digits(f, s, |s|)
    ensures Bytes(e, s) == Bytes(f, s)
  {
    forall i | 0 <= i < |s| ensures DigitOf(e, s[i]) == DigitOf(f, s[i]) { DigitsAgree(e, f, s[i]); }
  }

  /** A quantum that ends the string in one encoding is not four digits of another. */
  lemma LastIsNotFull(e: Encoding, f: Encoding, s: string)
    requires LastQuantum(e, s).Some?
    ensures !Digits(f, s, 4)
  {
    DigitsAgree(f, f, '=');
    if |s| >= 4 { assert s[3] == '='; }
  }

  lemma LastAgrees(e: Encoding, f: Encoding, s: string)
    requires LastQuantum(e, s).Some? && LastQuantum(f, s).Some?
    ensures LastQuantum(e, s) == LastQuantum(f, s)
  {
    assert e.padded == f.padded;
    var n := if !e.padded then |s| else if s[2] == '=' then 2 else 3;
    BytesAgree(e, f, s[..n]);
  }

  // ----- the key decoder -----

  /** The first encoding that accepts the string decodes it. */
  method DecodeBase64(raw: string) returns (r: Option<seq<Byte>>)
    ensures r.None? <==> forall e <- ENCODINGS :: Decode(e, raw).None?
    ensures r.Some? ==> forall e <- ENCODINGS :: Decode(e, raw).Some? ==> Decode(e, raw) == r
  {
    for i := 0 to |ENCODINGS|
      invariant forall j :: 0 <= j < i ==> Decode(ENCODINGS[j], raw).None?
    {
      r := Decode(ENCODINGS[i], raw);
      if r.Some? {
        forall e | e in ENCODINGS && Decode(e, raw).Some? ensures Decode(e, raw) == r {
          Agreement(ENCODINGS[i], e, raw);
        }
        return;
      }
    }
    r := None;
  }

  datatype Key = Key(bytes: seq<Byte>) | Missing | NotBase64 | WrongLength

  /** What the key variable means: every encoding that accepts it decides alike. */
  ghost predicate KeyMeaning(env: string, size: nat, exact: bool, r: Key) {
    var raw := TrimSpace(env);
    && (r.Missing? <==> raw == "")
    && (r.NotBase64? <==> raw != "" && forall e <- ENCODINGS :: Decode(e, raw).None?)
    && forall e <- ENCODINGS :: raw != "" && Decode(e, raw).Some? ==>
         r == if Fits(Decode(e, raw).value, size, exact) then Key(Decode(e, raw).value) else WrongLength
  }

  method DecodeKey(env: string, size: nat, exact: bool) returns (r: Key)
    ensures KeyMeaning(env, size, exact, r)
  {
    var raw := TrimSpace(env);
    if raw == "" { return Missing; }
    var key := DecodeBase64(raw);
    if key.None? { return NotBase64; }
    if exact && |key.value| != size { return WrongLength; }
    if !exact && |key.value| < size { return WrongLength; }
    return Key(key.value);
  }

  predicate Fits(k: seq<Byte>, size: nat, exact: bool) {
    if exact then |k| == size else |k| >= size
  }

  /** However a key was encoded and whatever white space surrounds it, the decoder gives the key back, or says
      that its length is wrong. */
  lemma KeyRoundTrip(e: Encoding, k: seq<Byte>, before: string, after: string, size: nat, exact: bool, r: Key)
    requires k != [] && forall c <- before + after :: IsSpace(c)
    requires KeyMeaning(before + Encode(e, k) + after, size, exact, r)
    ensures r == if Fits(k, size, exact) then Key(k) else WrongLength
  {
    var s := Encode(e, k);
    EncodeIsClean(e, k);
    assert s[0] in s && s[|s| - 1] in s;
    TrimSurroundings(before, s, after);
    RoundTrip(e, k);
    assert e in ENCODINGS;
  }
}
