/**
 * String helpers of the Wi-Fi card inventory (src/sysutil_wifi.cpp):
 * white-space trimming, ASCII upper-casing, substring search, the
 * canonical form of vendor/device ids and chipset tags, decimal rendering
 * of milliwatt levels and JSON string escaping.
 *
 * Strings are sequences of characters; the C++ code works on bytes in the
 * "C" locale, so only the ASCII letters change case and only the six ASCII
 * white-space characters are trimmed.
 */
module Text {
  import opened Wrappers

  /** std::isspace in the "C" locale. */
  predicate IsSpace(c: char) {
    c == ' ' || c == '\t' || c == '\n' || c == '\r' || c == '\U{0B}' || c == '\U{0C}'
  }

  /** No leading and no trailing white space. */
  predicate IsTrimmed(s: string) {
    s == [] || (!IsSpace(s[0]) && !IsSpace(s[|s| - 1]))
  }

  /** The first erase of trim_copy: leading white space removed. */
  function TrimLeft(s: string): (r: string)
    ensures |r| <= |s| && r == s[|s| - |r|..]
    ensures forall k :: 0 <= k < |s| - |r| ==> IsSpace(s[k])
    ensures r == [] || !IsSpace(r[0])
  {
    if |s| > 0 && IsSpace(s[0]) then TrimLeft(s[1..]) else s
  }

  /** The second erase of trim_copy: trailing white space removed. */
  function TrimRight(s: string): (r: string)
    ensures |r| <= |s| && r == s[..|r|]
    ensures forall k :: |r| <= k < |s| ==> IsSpace(s[k])
    ensures r == [] || !IsSpace(r[|r| - 1])
  {
    if |s| > 0 && IsSpace(s[|s| - 1]) then TrimRight(s[..|s| - 1]) else s
  }

  /** trim_copy: leading, then trailing white space removed. */
  function TrimCopy(s: string): (r: string)
    ensures IsTrimmed(r) && |r| <= |s|
  {
    TrimRight(TrimLeft(s))
  }

  /** Trimming a string that is already trimmed gives it back, and only then. */
  lemma TrimCopyFixedPoints(s: string)
    ensures TrimCopy(s) == s <==> IsTrimmed(s)
  {
  }

  lemma TrimCopyIdempotent(s: string)
    ensures TrimCopy(TrimCopy(s)) == TrimCopy(s)
  {
    TrimCopyFixedPoints(TrimCopy(s));
  }

  /** Trailing white space after a leading character. */
  lemma {:induction false} TrimRightCons(c: char, t: string)
    ensures TrimRight([c] + t) == if IsSpace(c) && TrimRight(t) == [] then [] else [c] + TrimRight(t)
    decreases |t|
  {
    if |t| > 0 && IsSpace(t[|t| - 1]) {
      assert ([c] + t)[..|t|] == [c] + t[..|t| - 1];
      TrimRightCons(c, t[..|t| - 1]);
    }
  }

  /** The two erases of trim_copy commute. */
  lemma {:induction false} TrimLeftRightCommute(s: string)
    ensures TrimLeft(TrimRight(s)) == TrimRight(TrimLeft(s))
    decreases |s|
  {
    if |s| > 0 {
      assert s == [s[0]] + s[1..];
      TrimRightCons(s[0], s[1..]);
      if IsSpace(s[0]) {
        TrimLeftRightCommute(s[1..]);
      }
    }
  }

  /** Removing trailing white space first does not change trim_copy. */
  lemma TrimCopyAfterTrimRight(s: string)
    ensures TrimCopy(TrimRight(s)) == TrimCopy(s)
  {
    TrimLeftRightCommute(s);
  }

  /** A line made of a trimmed-at-both-ends head and any tail trims only the tail's end. */
  lemma {:induction false} TrimCopyWithHead(p: string, v: string)
    requires p != [] && !IsSpace(p[0]) && !IsSpace(p[|p| - 1])
    ensures TrimCopy(p + v) == p + TrimRight(v)
    decreases |v|
  {
    if |v| > 0 && IsSpace(v[|v| - 1]) {
      assert (p + v)[..|p + v| - 1] == p + v[..|v| - 1];
      TrimCopyWithHead(p, v[..|v| - 1]);
    } else if v == [] {
      assert p + v == p;
    }
  }

  /** Trimming a string that starts with a non-space keeps that first character. */
  lemma TrimCopyKeepsHead(s: string)
    requires s != [] && !IsSpace(s[0])
    ensures TrimCopy(s) != [] && TrimCopy(s)[0] == s[0]
  {
    assert TrimLeft(s) == s;
  }

  /** Trimming only removes characters. */
  lemma TrimCopyWithin(s: string)
    ensures forall c :: c in TrimCopy(s) ==> c in s
  {
    var l := TrimLeft(s);
    var r := TrimRight(l);
    forall c | c in r
      ensures c in s
    {
      var i :| 0 <= i < |r| && r[i] == c;
      assert r[i] == l[i] == s[|s| - |l| + i];
    }
  }

  /** C toupper on one character: only 'a'..'z' change. */
  function UpperChar(c: char): char {
    if 'a' <= c <= 'z' then (c as int - 32) as char else c
  }

  /** to_upper: every character upper-cased, in place. */
  function ToUpper(s: string): string {
    seq(|s|, i requires 0 <= i < |s| => UpperChar(s[i]))
  }

  lemma ToUpperIdempotent(s: string)
    ensures ToUpper(ToUpper(s)) == ToUpper(s)
  {
  }

  lemma ToUpperAppend(a: string, b: string)
    ensures ToUpper(a + b) == ToUpper(a) + ToUpper(b)
  {
  }

  /** Upper-casing neither creates nor removes leading or trailing white space. */
  lemma ToUpperKeepsTrimmed(s: string)
    requires IsTrimmed(s)
    ensures IsTrimmed(ToUpper(s))
  {
  }

  /** Upper-casing commutes with trim_copy, since white space has no case. */
  lemma {:induction false} TrimLeftUpper(s: string)
    ensures TrimLeft(ToUpper(s)) == ToUpper(TrimLeft(s))
    decreases |s|
  {
    if |s| > 0 {
      var u := ToUpper(s);
      assert u[0] == UpperChar(s[0]);
      assert IsSpace(u[0]) <==> IsSpace(s[0]);
      if IsSpace(s[0]) {
        assert u[1..] == ToUpper(s[1..]);
        TrimLeftUpper(s[1..]);
      }
    }
  }

  lemma {:induction false} TrimRightUpper(s: string)
    ensures TrimRight(ToUpper(s)) == ToUpper(TrimRight(s))
    decreases |s|
  {
    if |s| > 0 {
      var u := ToUpper(s);
      assert u[|s| - 1] == UpperChar(s[|s| - 1]);
      assert IsSpace(u[|s| - 1]) <==> IsSpace(s[|s| - 1]);
      if IsSpace(s[|s| - 1]) {
        assert u[..|s| - 1] == ToUpper(s[..|s| - 1]);
        TrimRightUpper(s[..|s| - 1]);
      }
    }
  }

  lemma TrimCopyUpper(s: string)
    ensures TrimCopy(ToUpper(s)) == ToUpper(TrimCopy(s))
  {
    TrimLeftUpper(s);
    TrimRightUpper(TrimLeft(s));
  }

  /** equal_after_uppercase */
  predicate EqualAfterUppercase(lhs: string, rhs: string) {
    ToUpper(lhs) == ToUpper(rhs)
  }

  /** `t` occurs in `s` at position `i`. */
  predicate OccursAt(s: string, t: string, i: nat) {
    i + |t| <= |s| && s[i..i + |t|] == t
  }

  /** `p` is a prefix of `s` (the rfind(p, 0) == 0 idiom). */
  predicate StartsWith(s: string, p: string) {
    OccursAt(s, p, 0)
  }

  /** std::string::find(t, from): the first position at or after `from` where `t` occurs. */
  function Find(s: string, t: string, from: nat): (r: Option<nat>)
    ensures r.Some? ==> from <= r.value && OccursAt(s, t, r.value)
    ensures r.Some? ==> forall j :: from <= j < r.value ==> !OccursAt(s, t, j)
    ensures r.None? ==> forall j :: from <= j ==> !OccursAt(s, t, j)
    decreases |s| - from
  {
    if from + |t| > |s| then None
    else if OccursAt(s, t, from) then Some(from)
    else Find(s, t, from + 1)
  }

  /** A one-character string occurs exactly where its character is. */
  lemma OccursCharAt(s: string, c: char, j: nat)
    ensures OccursAt(s, [c], j) <==> j < |s| && s[j] == c
  {
    if j < |s| {
      assert s[j..j + 1] == [s[j]];
    }
  }

  /** The find of a character that does not occur in `p` lands just after `p`. */
  lemma FindAfterHead(p: string, c: char, rest: string)
    requires c !in p
    ensures Find(p + [c] + rest, [c], 0) == Some(|p|)
  {
    var s := p + [c] + rest;
    OccursCharAt(s, c, |p|);
    forall j: nat | j < |p|
      ensures !OccursAt(s, [c], j)
    {
      OccursCharAt(s, c, j);
      assert s[j] == p[j];
    }
  }

  /** A character found first at `p` does not occur before `p`. */
  lemma FindCharPrefix(s: string, c: char, p: nat)
    requires Find(s, [c], 0) == Some(p)
    ensures p < |s| && s[p] == c && c !in s[..p]
  {
    OccursCharAt(s, c, p);
    forall j | 0 <= j < p
      ensures s[j] != c
    {
      OccursCharAt(s, c, j);
    }
  }

  /** A character that is absent is not found. */
  lemma FindAbsent(s: string, c: char)
    requires c !in s
    ensures Find(s, [c], 0) == None
  {
    forall j: nat | j + 1 <= |s|
      ensures !OccursAt(s, [c], j)
    {
      OccursCharAt(s, c, j);
    }
  }

  /** contains_after_uppercase */
  predicate ContainsAfterUppercase(haystack: string, needle: string) {
    Find(ToUpper(haystack), ToUpper(needle), 0).Some?
  }

  /** contains_after_uppercase holds exactly when the upper-cased needle occurs somewhere. */
  lemma ContainsAfterUppercaseMeans(haystack: string, needle: string, i: nat)
    requires OccursAt(ToUpper(haystack), ToUpper(needle), i)
    ensures ContainsAfterUppercase(haystack, needle)
  {
  }

  /** normalize_id: the canonical `0x` + upper-case form of a vendor or device id, or "". */
  function NormalizeId(value: string): string {
    var t := TrimCopy(value);
    if t == [] then []
    else if StartsWith(t, "0x") || StartsWith(t, "0X") then "0x" + ToUpper(t[2..])
    else "0x" + ToUpper(t)
  }

  /** The canonical id form: empty, or `0x` followed by an upper-case, untrimmable rest. */
  predicate IsCanonicalId(s: string) {
    s == [] || (StartsWith(s, "0x") && IsTrimmed(s) && ToUpper(s[2..]) == s[2..])
  }

  /** `0x` and an upper-cased rest that does not end in white space is a canonical id. */
  lemma UpperIdIsCanonical(x: string)
    requires x == [] || !IsSpace(x[|x| - 1])
    ensures IsCanonicalId("0x" + ToUpper(x))
  {
    var r := "0x" + ToUpper(x);
    assert r[..2] == "0x" && r[2..] == ToUpper(x);
    ToUpperIdempotent(x);
    if x != [] {
      assert r[|r| - 1] == UpperChar(x[|x| - 1]);
    }
  }

  /** The canonical form of normalize_id, as a characterisation. */
  lemma NormalizeIdShape(value: string)
    ensures NormalizeId(value) == [] <==> TrimCopy(value) == []
    ensures IsCanonicalId(NormalizeId(value))
  {
    var t := TrimCopy(value);
    if t != [] {
      if StartsWith(t, "0x") || StartsWith(t, "0X") {
        var x := t[2..];
        assert x == [] || x[|x| - 1] == t[|t| - 1];
        UpperIdIsCanonical(x);
      } else {
        UpperIdIsCanonical(t);
      }
    }
  }

  /** normalize_id of a trimmed, non-empty id, by its first two characters. */
  lemma NormalizeIdOfTrimmed(t: string)
    requires t != [] && IsTrimmed(t)
    ensures NormalizeId(t) ==
      if |t| >= 2 && t[0] == '0' && (t[1] == 'x' || t[1] == 'X') then "0x" + ToUpper(t[2..]) else "0x" + ToUpper(t)
  {
    TrimCopyFixedPoints(t);
    HexPrefixByChars(t);
  }

  /** normalize_id leaves an id alone exactly when it is already canonical. */
  lemma NormalizeIdFixedPoints(s: string)
    ensures NormalizeId(s) == s <==> IsCanonicalId(s)
  {
    NormalizeIdShape(s);
    if IsCanonicalId(s) && s != [] {
      TrimCopyFixedPoints(s);
      assert s == "0x" + s[2..];
    }
  }

  lemma NormalizeIdIdempotent(value: string)
    ensures NormalizeId(NormalizeId(value)) == NormalizeId(value)
  {
    NormalizeIdShape(value);
    NormalizeIdFixedPoints(NormalizeId(value));
  }

  /** `0x`/`0X` prefix test, character by character. */
  lemma HexPrefixByChars(s: string)
    ensures (StartsWith(s, "0x") || StartsWith(s, "0X")) <==> (|s| >= 2 && s[0] == '0' && (s[1] == 'x' || s[1] == 'X'))
  {
    if |s| >= 2 {
      assert s[..2] == [s[0], s[1]];
    }
  }

  /** Upper-casing commutes with dropping a prefix. */
  lemma ToUpperDrop(t: string, k: nat)
    requires k <= |t|
    ensures ToUpper(t)[k..] == ToUpper(t[k..])
  {
  }

  /** Upper-casing keeps the `0x`/`0X` prefix and does not create one. */
  lemma HexPrefixUpper(t: string)
    ensures (StartsWith(ToUpper(t), "0x") || StartsWith(ToUpper(t), "0X")) <==> (StartsWith(t, "0x") || StartsWith(t, "0X"))
  {
    HexPrefixByChars(t);
    HexPrefixByChars(ToUpper(t));
    if |t| >= 2 {
      assert ToUpper(t)[0] == UpperChar(t[0]) && ToUpper(t)[1] == UpperChar(t[1]);
    }
  }

  /** normalize_id does not see the case of its input. */
  lemma NormalizeIdIgnoresCase(value: string)
    ensures NormalizeId(ToUpper(value)) == NormalizeId(value)
  {
    var t := TrimCopy(value);
    TrimCopyUpper(value);
    var u := ToUpper(t);
    assert TrimCopy(ToUpper(value)) == u;
    HexPrefixUpper(t);
    if u != [] && (StartsWith(u, "0x") || StartsWith(u, "0X")) {
      ToUpperDrop(t, 2);
      ToUpperIdempotent(t[2..]);
      assert NormalizeId(ToUpper(value)) == "0x" + ToUpper(u[2..]);
    } else {
      ToUpperIdempotent(t);
    }
  }

  lemma NormalizeIdOfBareId()
    ensures NormalizeId("0bda") == "0x" + ToUpper("0bda")
  {
    NormalizeIdOfTrimmed("0bda");
  }

  lemma NormalizeIdOfLowerPrefixed()
    ensures NormalizeId("0x0bda") == "0x" + ToUpper("0bda")
  {
    NormalizeIdOfTrimmed("0x0bda");
    assert "0x0bda"[2..] == "0bda";
  }

  lemma NormalizeIdOfUpperPrefixed()
    ensures NormalizeId("0X0BDA") == "0x" + ToUpper("0BDA")
  {
    NormalizeIdOfTrimmed("0X0BDA");
    assert "0X0BDA"[2..] == "0BDA";
  }

  lemma UpperOfHexDigits()
    ensures "0x" + ToUpper("0bda") == "0x0BDA"
    ensures "0x" + ToUpper("0BDA") == "0x0BDA"
  {
    assert ToUpper("0bda") == "0BDA";
    assert ToUpper("0BDA") == "0BDA";
  }

  lemma NormalizeIdOfBlank()
    ensures NormalizeId(" \t\n") == ""
  {
    assert TrimLeft(" \t\n") == [];
  }

  /** The three spellings of one id normalise alike; a blank id normalises to "". */
  lemma NormalizeIdExamples()
    ensures NormalizeId("0bda") == "0x0BDA"
    ensures NormalizeId("0x0bda") == "0x0BDA"
    ensures NormalizeId("0X0BDA") == "0x0BDA"
    ensures NormalizeId(" \t\n") == ""
  {
    NormalizeIdOfBareId();
    NormalizeIdOfLowerPrefixed();
    NormalizeIdOfUpperPrefixed();
    UpperOfHexDigits();
    NormalizeIdOfBlank();
  }

  /** No lower-case ASCII letter. */
  predicate NoLower(s: string) {
    forall i :: 0 <= i < |s| ==> !('a' <= s[i] <= 'z')
  }

  lemma UpperOfNoLower(s: string)
    requires NoLower(s)
    ensures ToUpper(s) == s
  {
  }

  /** An id already in `0x` + upper-case form is its own normal form. */
  lemma NormalizeIdOfCanonical(s: string)
    requires |s| > 2 && s[0] == '0' && s[1] == 'x' && !IsSpace(s[|s| - 1]) && NoLower(s[2..])
    ensures NormalizeId(s) == s
  {
    NormalizeIdOfTrimmed(s);
    UpperOfNoLower(s[2..]);
  }

  /** normalize_chipset: trimmed and upper-cased. */
  function NormalizeChipset(value: string): (r: string)
    ensures IsTrimmed(r) && ToUpper(r) == r
  {
    ToUpperKeepsTrimmed(TrimCopy(value));
    ToUpperIdempotent(TrimCopy(value));
    ToUpper(TrimCopy(value))
  }

  /** A trimmed tag without lower-case letters is its own normal form. */
  lemma NormalizeChipsetOfNormal(s: string)
    requires IsTrimmed(s) && NoLower(s)
    ensures NormalizeChipset(s) == s
  {
    TrimCopyFixedPoints(s);
    UpperOfNoLower(s);
  }

  lemma NormalizeChipsetIdempotent(value: string)
    ensures NormalizeChipset(NormalizeChipset(value)) == NormalizeChipset(value)
  {
    TrimCopyFixedPoints(NormalizeChipset(value));
  }

  /** A trimmed value normalises like the raw one. */
  lemma NormalizeAfterTrim(value: string)
    ensures NormalizeId(TrimCopy(value)) == NormalizeId(value)
    ensures NormalizeChipset(TrimCopy(value)) == NormalizeChipset(value)
  {
    TrimCopyIdempotent(value);
  }

  predicate IsDigit(c: char) {
    '0' <= c <= '9'
  }

  predicate IsDigits(s: string) {
    forall i :: 0 <= i < |s| ==> IsDigit(s[i])
  }

  function DigitChar(d: nat): char
    requires d < 10
  {
    ('0' as int + d) as char
  }

  /** std::to_string on a non-negative value: decimal digits, no leading zero. */
  function NatToDecimal(n: nat): (r: string)
    ensures |r| > 0 && IsDigits(r)
    ensures r[0] == '0' <==> n == 0
    decreases n
  {
    if n < 10 then [DigitChar(n)] else NatToDecimal(n / 10) + [DigitChar(n % 10)]
  }

  /** The value a string of decimal digits denotes (a reference reading of NatToDecimal). */
  function DecimalValue(s: string): nat
    requires IsDigits(s)
  {
    if s == [] then 0 else DecimalValue(s[..|s| - 1]) * 10 + (s[|s| - 1] as int - '0' as int)
  }

  lemma {:induction false} DecimalRoundTrip(n: nat)
    ensures DecimalValue(NatToDecimal(n)) == n
    decreases n
  {
    if n >= 10 {
      DecimalRoundTrip(n / 10);
      var r := NatToDecimal(n);
      assert r[..|r| - 1] == NatToDecimal(n / 10);
    }
  }

  /** Two values have the same decimal rendering only if they are equal. */
  lemma DecimalInjective(m: nat, n: nat)
    requires NatToDecimal(m) == NatToDecimal(n)
    ensures m == n
  {
    DecimalRoundTrip(m);
    DecimalRoundTrip(n);
  }

  /** to_string_if: the decimal rendering of a positive value, "" for any other. */
  function ToStringIf(value: int): (r: string)
    ensures r == [] <==> value <= 0
    ensures value > 0 ==> IsDigits(r) && r[0] != '0' && DecimalValue(r) == value
  {
    if value <= 0 then [] else DecimalRoundTrip(value); NatToDecimal(value)
  }

  /** The escape sequence json_escape writes for one character. */
  function EscapeChar(c: char): string {
    if c == '\\' then "\\\\"
    else if c == '"' then "\\\""
    else if c == '\n' then "\\n"
    else if c == '\r' then "\\r"
    else if c == '\t' then "\\t"
    else [c]
  }

  /** The text json_escape produces. */
  function Escaped(s: string): string {
    if s == [] then [] else EscapeChar(s[0]) + Escaped(s[1..])
  }

  /** Reading an escaped JSON string body back (the inverse direction). */
  function Unescaped(t: string): string {
    if t == [] then []
    else if t[0] == '\\' && |t| >= 2 then
      var c := t[1];
      [if c == 'n' then '\n' else if c == 'r' then '\r' else if c == 't' then '\t' else c] + Unescaped(t[2..])
    else [t[0]] + Unescaped(t[1..])
  }

  lemma {:induction false} EscapedAppend(a: string, b: string)
    ensures Escaped(a + b) == Escaped(a) + Escaped(b)
    decreases |a|
  {
    if a != [] {
      assert (a + b)[1..] == a[1..] + b;
      EscapedAppend(a[1..], b);
    } else {
      assert a + b == b;
    }
  }

  /** One escaped character reads back as itself, whatever follows it. */
  lemma UnescapeEscapedChar(c: char, rest: string)
    ensures Unescaped(EscapeChar(c) + rest) == [c] + Unescaped(rest)
  {
    var t := EscapeChar(c) + rest;
    if c == '\\' || c == '"' || c == '\n' || c == '\r' || c == '\t' {
      assert |EscapeChar(c)| == 2 && t[0] == '\\';
      assert t[2..] == rest;
    } else {
      assert t[0] == c && t[1..] == rest;
    }
  }

  /** Escaping loses nothing: the escaped text reads back as the original. */
  lemma {:induction false} UnescapeEscaped(s: string)
    ensures Unescaped(Escaped(s)) == s
    decreases |s|
  {
    if s != [] {
      UnescapeEscaped(s[1..]);
      UnescapeEscapedChar(s[0], Escaped(s[1..]));
      assert s == [s[0]] + s[1..];
    }
  }

  /** Escaped text is one line: it holds no raw line break or tab. */
  lemma {:induction false} EscapedIsOneLine(s: string)
    ensures forall i :: 0 <= i < |Escaped(s)| ==> Escaped(s)[i] !in {'\n', '\r', '\t'}
    decreases |s|
  {
    if s != [] {
      EscapedIsOneLine(s[1..]);
    }
  }

  /** json_escape, character by character. */
  method JsonEscape(input: string) returns (out: string)
    ensures out == Escaped(input)
  {
    out := [];
    var i := 0;
    while i < |input|
      invariant 0 <= i <= |input|
      invariant out == Escaped(input[..i])
    {
      var c := input[i];
      if c == '\\' {
        out := out + "\\\\";
      } else if c == '"' {
        out := out + "\\\"";
      } else if c == '\n' {
        out := out + "\\n";
      } else if c == '\r' {
        out := out + "\\r";
      } else if c == '\t' {
        out := out + "\\t";
      } else {
        out := out + [c];
      }
      EscapedAppend(input[..i], [c]);
      assert input[..i + 1] == input[..i] + [c];
      i := i + 1;
    }
    assert input[..i] == input;
  }

  /** The text an std::ofstream receives when every line is written with a trailing "\n". */
  function JoinLines(lines: seq<string>): string {
    if lines == [] then [] else lines[0] + "\n" + JoinLines(lines[1..])
  }

  /** The lines std::getline reads from a text: split at each '\n', no empty line after a final '\n'. */
  function SplitLines(text: string): seq<string>
    decreases |text|
  {
    if text == [] then []
    else match Find(text, "\n", 0)
      case None => [text]
      case Some(i) => [text[..i]] + SplitLines(text[i + 1..])
  }

  lemma {:induction false} JoinLinesAppend(a: seq<string>, b: seq<string>)
    ensures JoinLines(a + b) == JoinLines(a) + JoinLines(b)
    decreases |a|
  {
    if a != [] {
      assert (a + b)[0] == a[0] && (a + b)[1..] == a[1..] + b;
      JoinLinesAppend(a[1..], b);
      calc {
        JoinLines(a + b);
        a[0] + "\n" + JoinLines(a[1..] + b);
        a[0] + "\n" + (JoinLines(a[1..]) + JoinLines(b));
        (a[0] + "\n" + JoinLines(a[1..])) + JoinLines(b);
      }
    } else {
      assert a + b == b;
    }
  }

  /** Reading back a written text gives the written lines, provided none holds a line break. */
  lemma {:induction false} SplitJoinLines(lines: seq<string>)
    requires forall k :: 0 <= k < |lines| ==> '\n' !in lines[k]
    ensures SplitLines(JoinLines(lines)) == lines
    decreases |lines|
  {
    if lines != [] {
      var text := JoinLines(lines);
      FindAfterHead(lines[0], '\n', JoinLines(lines[1..]));
      assert text == lines[0] + ['\n'] + JoinLines(lines[1..]);
      assert text[..|lines[0]|] == lines[0];
      assert text[|lines[0]| + 1..] == JoinLines(lines[1..]);
      SplitJoinLines(lines[1..]);
    }
  }

  /** The parts on either side of a separator. */
  lemma SplitAround<T>(a: seq<T>, x: T, b: seq<T>)
    ensures (a + [x] + b)[..|a|] == a && (a + [x] + b)[|a| + 1..] == b
  {
    var s := a + [x] + b;
    assert s[..|a|] == a;
    assert s[|a| + 1..] == b;
  }
}
