/** String operations the components perform with `String.prototype`
    methods and small regular expressions, stated over `seq<char>`:
    `trim`, `\s`, `\D`, `startsWith`, `includes`, ASCII case mapping,
    `split`, `join`, one-character `replace`, and decimal rendering of
    numbers in template strings. */
module Text {
  import Lists

  /** The characters JavaScript's `\s` matches and `trim()` strips:
      ECMAScript WhiteSpace (including every space separator) and LineTerminator. */
  predicate IsSpace(c: char)
  {
    c == ' ' || c == '\t' || c == '\n' || c == '\r' || c == '\U{000B}' || c == '\U{000C}'
    || c == '\U{00A0}' || c == '\U{1680}' || ('\U{2000}' <= c <= '\U{200A}')
    || c == '\U{2028}' || c == '\U{2029}' || c == '\U{202F}' || c == '\U{205F}'
    || c == '\U{3000}' || c == '\U{FEFF}'
  }

  /** `\d`: an ASCII decimal digit. */
  predicate IsDigit(c: char) { '0' <= c <= '9' }

  /** `[A-Z]` */
  predicate IsUpper(c: char) { 'A' <= c <= 'Z' }

  /** `[a-z]` */
  predicate IsLower(c: char) { 'a' <= c <= 'z' }

  function LowerChar(c: char): (d: char)
    ensures IsUpper(c) ==> IsLower(d) && d as int == c as int + 32
    ensures !IsUpper(c) ==> d == c
  {
    if IsUpper(c) then (c as int + 32) as char else c
  }

  function UpperChar(c: char): (d: char)
    ensures IsLower(c) ==> IsUpper(d) && d as int == c as int - 32
    ensures !IsLower(c) ==> d == c
  {
    if IsLower(c) then (c as int - 32) as char else c
  }

  /** `toLowerCase()` restricted to ASCII letters. */
  function ToLower(s: string): (r: string)
    ensures |r| == |s|
    ensures forall i :: 0 <= i < |s| ==> r[i] == LowerChar(s[i])
  {
    seq(|s|, i requires 0 <= i < |s| => LowerChar(s[i]))
  }

  /** Lower-casing twice is lower-casing once. */
  lemma ToLowerIdempotent(s: string)
    ensures ToLower(ToLower(s)) == ToLower(s)
  {
    forall i | 0 <= i < |s|
      ensures ToLower(ToLower(s))[i] == ToLower(s)[i]
    {
      var c := s[i];
      assert ToLower(s)[i] == LowerChar(c);
      if IsUpper(c) {
        assert !IsUpper(LowerChar(c));
      }
    }
  }

  /** `s.charAt(0).toUpperCase() + s.slice(1)` */
  function Capitalize(s: string): (r: string)
    ensures |r| == |s|
    ensures s != [] ==> r[0] == UpperChar(s[0]) && r[1..] == s[1..]
  {
    if s == [] then [] else [UpperChar(s[0])] + s[1..]
  }

  /** `s.startsWith(p)` */
  predicate StartsWith(s: string, p: string)
  {
    |p| <= |s| && s[..|p|] == p
  }

  /** `s.includes(sub)`: `sub` occurs in `s` at some position (the empty string always does). */
  predicate Contains(s: string, sub: string)
    decreases |s|
  {
    StartsWith(s, sub) || (s != [] && Contains(s[1..], sub))
  }

  /** `s.length`: JavaScript counts UTF-16 code units, so a character
      outside the Basic Multilingual Plane counts twice. */
  function Utf16Length(s: string): (n: nat)
    ensures |s| <= n <= 2 * |s|
    ensures (forall i :: 0 <= i < |s| ==> s[i] as int <= 0xFFFF) ==> n == |s|
  {
    if s == [] then 0
    else (if s[0] as int > 0xFFFF then 2 else 1) + Utf16Length(s[1..])
  }

  /** `sub` found at position `k` means `s` contains it; and a string
      without the first character of `sub` does not contain it. */
  lemma {:induction false} ContainsAt(s: string, sub: string, k: nat)
    ensures k + |sub| <= |s| && s[k..k + |sub|] == sub ==> Contains(s, sub)
    ensures sub != [] && sub[0] !in s ==> !Contains(s, sub)
  {
    if k > 0 && k + |sub| <= |s| && s[k..k + |sub|] == sub {
      assert s[1..][k - 1..k - 1 + |sub|] == sub;
      ContainsAt(s[1..], sub, k - 1);
    }
    if sub != [] && sub[0] !in s && s != [] {
      assert !StartsWith(s, sub) by {
        if |sub| <= |s| {
          assert s[..|sub|][0] == s[0];
        }
      }
      assert forall c :: c in s[1..] ==> c in s;
      ContainsAt(s[1..], sub, 0);
    }
  }

  /** Leading part of `trim()`: drops the whitespace prefix. */
  function TrimStart(s: string): (r: string)
    ensures |r| <= |s| && r == s[|s| - |r|..]
    ensures forall i :: 0 <= i < |s| - |r| ==> IsSpace(s[i])
    ensures r != [] ==> !IsSpace(r[0])
  {
    if s != [] && IsSpace(s[0]) then TrimStart(s[1..]) else s
  }

  /** Trailing part of `trim()`: drops the whitespace suffix. */
  function TrimEnd(s: string): (r: string)
    ensures |r| <= |s| && r == s[..|r|]
    ensures forall i :: |r| <= i < |s| ==> IsSpace(s[i])
    ensures r != [] ==> !IsSpace(r[|r| - 1])
  {
    if s != [] && IsSpace(s[|s| - 1]) then TrimEnd(s[..|s| - 1]) else s
  }

  /** `s.trim()`: a middle slice of `s` that neither starts nor ends with whitespace. */
  function Trim(s: string): (r: string)
    ensures |r| <= |TrimStart(s)| <= |s|
    ensures r == s[|s| - |TrimStart(s)|..|s| - |TrimStart(s)| + |r|]
    ensures r != [] ==> !IsSpace(r[0]) && !IsSpace(r[|r| - 1])
  {
    TrimEnd(TrimStart(s))
  }

  /** `s.trim() === ''` holds exactly for strings made only of whitespace. */
  lemma TrimEmptyIffBlank(s: string)
    ensures Trim(s) == [] <==> forall i :: 0 <= i < |s| ==> IsSpace(s[i])
  {
    var t := TrimStart(s);
    var k := |s| - |t|;
    if Trim(s) == [] {
      // a non-empty `t` would start with a non-space, which `TrimEnd` keeps
      assert |t| == 0;
    } else {
      assert Trim(s)[0] == s[k];
    }
  }

  /** `s.trim() === ''`: every character of `s` is whitespace. */
  predicate Blank(s: string)
  {
    forall i :: 0 <= i < |s| ==> IsSpace(s[i])
  }

  /** `Blank` is exactly what comparing the trimmed string with `''` tests. */
  lemma BlankIffTrimEmpty(s: string)
    ensures Blank(s) <==> Trim(s) == []
  {
    TrimEmptyIffBlank(s);
  }

  /** Trimming is idempotent. */
  lemma TrimIdempotent(s: string)
    ensures Trim(Trim(s)) == Trim(s)
  {
    var t := Trim(s);
    if t != [] {
      assert TrimStart(t) == t;
      assert TrimEnd(t) == t;
    }
  }

  predicate NotSpace(c: char) { !IsSpace(c) }

  /** `s.replace(/\s/g, '')`: every whitespace character removed, the
      others kept in order: character k of the result is the one at the
      k-th non-space position. */
  function RemoveSpaces(s: string): (r: string)
    ensures forall i :: 0 <= i < |r| ==> !IsSpace(r[i])
    ensures var ix := Lists.KeptIndices(s, NotSpace);
      && |r| == |ix| && Lists.StrictlyIncreasing(ix)
      && (forall k :: 0 <= k < |ix| ==> ix[k] < |s| && r[k] == s[ix[k]])
      && (forall j :: 0 <= j < |s| && !IsSpace(s[j]) ==> j in ix)
  {
    Lists.FilterKeepsOrder(s, NotSpace);
    Lists.Filter(s, NotSpace)
  }

  /** `s.replace(/\D/g, '')`: only the decimal digits kept, in order:
      character k of the result is the one at the k-th digit position. */
  function DigitsOnly(s: string): (r: string)
    ensures forall i :: 0 <= i < |r| ==> IsDigit(r[i])
    ensures var ix := Lists.KeptIndices(s, IsDigit);
      && |r| == |ix| && Lists.StrictlyIncreasing(ix)
      && (forall k :: 0 <= k < |ix| ==> ix[k] < |s| && r[k] == s[ix[k]])
      && (forall j :: 0 <= j < |s| && IsDigit(s[j]) ==> j in ix)
  {
    Lists.FilterKeepsOrder(s, IsDigit);
    Lists.Filter(s, IsDigit)
  }

  /** Position of the first occurrence of `c` in `s`. */
  function FirstIndex(s: string, c: char): (i: nat)
    requires c in s
    ensures i < |s| && s[i] == c && c !in s[..i]
  {
    if s[0] == c then 0 else 1 + FirstIndex(s[1..], c)
  }

  /** The position of `c` that no earlier `c` precedes is the first index. */
  lemma FirstIndexAt(s: string, c: char, i: nat)
    requires i < |s| && s[i] == c && c !in s[..i]
    ensures FirstIndex(s, c) == i
  {
  }

  /** `s.replace(c, '')` with a one-character string pattern: only the first
      occurrence of `c` is removed. */
  function RemoveFirst(s: string, c: char): (r: string)
    ensures c !in s ==> r == s
    ensures c in s ==> r == s[..FirstIndex(s, c)] + s[FirstIndex(s, c) + 1..]
  {
    if s == [] then []
    else if s[0] == c then s[1..]
    else
      var rest := RemoveFirst(s[1..], c);
      RemoveFirstCons(s, c, rest);
      [s[0]] + rest
  }

  /** Removing the first `c` after a first character that is not `c`. */
  lemma RemoveFirstCons(s: string, c: char, rest: string)
    requires s != [] && s[0] != c
    requires c !in s[1..] ==> rest == s[1..]
    requires c in s[1..] ==> rest == s[1..][..FirstIndex(s[1..], c)] + s[1..][FirstIndex(s[1..], c) + 1..]
    ensures c !in s ==> [s[0]] + rest == s
    ensures c in s ==> [s[0]] + rest == s[..FirstIndex(s, c)] + s[FirstIndex(s, c) + 1..]
  {
    assert s == [s[0]] + s[1..];
    if c in s {
      assert c in s[1..];
      var j := FirstIndex(s[1..], c);
      assert FirstIndex(s, c) == j + 1;
      assert [s[0]] + s[1..][..j] == s[..j + 1];
      assert s[1..][j + 1..] == s[j + 2..];
    }
  }

  /** `s.replace(/([A-Z])/g, ' $1')`: a space inserted before every capital letter. */
  function SpaceBeforeCapitals(s: string): (r: string)
  {
    if s == [] then []
    else (if IsUpper(s[0]) then [' ', s[0]] else [s[0]]) + SpaceBeforeCapitals(s[1..])
  }

  /** The capitals of a concatenation are spaced part by part. */
  lemma {:induction false} SpaceBeforeCapitalsAppend(a: string, b: string)
    ensures SpaceBeforeCapitals(a + b) == SpaceBeforeCapitals(a) + SpaceBeforeCapitals(b)
  {
    if a == [] {
      assert a + b == b;
    } else {
      var head := if IsUpper(a[0]) then [' ', a[0]] else [a[0]];
      calc {
        SpaceBeforeCapitals(a + b);
        { assert (a + b)[1..] == a[1..] + b; assert (a + b)[0] == a[0]; }
        head + SpaceBeforeCapitals(a[1..] + b);
        { SpaceBeforeCapitalsAppend(a[1..], b); }
        head + (SpaceBeforeCapitals(a[1..]) + SpaceBeforeCapitals(b));
        head + SpaceBeforeCapitals(a[1..]) + SpaceBeforeCapitals(b);
      }
    }
  }

  /** A string without capitals is left as it is. */
  lemma {:induction false} SpaceBeforeNoCapitals(s: string)
    requires forall i :: 0 <= i < |s| ==> !IsUpper(s[i])
    ensures SpaceBeforeCapitals(s) == s
  {
    if s != [] {
      SpaceBeforeNoCapitals(s[1..]);
      assert [s[0]] + s[1..] == s;
    }
  }

  /** A word with one leading capital gets one space in front. */
  lemma SpaceBeforeCapitalizedWord(w: string)
    requires w != [] && IsUpper(w[0])
    requires forall i :: 1 <= i < |w| ==> !IsUpper(w[i])
    ensures SpaceBeforeCapitals(w) == [' '] + w
  {
    SpaceBeforeNoCapitals(w[1..]);
    assert [' ', w[0]] + w[1..] == [' '] + w;
  }

  /** `trim()` leaves a string that neither starts nor ends with whitespace alone. */
  lemma TrimUntouched(s: string)
    requires s != [] && !IsSpace(s[0]) && !IsSpace(s[|s| - 1])
    ensures Trim(s) == s
  {
    assert TrimStart(s) == s;
  }

  /** `parts.join(sep)` */
  function Join(parts: seq<string>, sep: string): (r: string)
    ensures |parts| == 0 ==> r == ""
    ensures |parts| == 1 ==> r == parts[0]
  {
    if |parts| == 0 then ""
    else if |parts| == 1 then parts[0]
    else parts[0] + sep + Join(parts[1..], sep)
  }

  /** `s.split(c)` with a one-character separator. */
  function Split(s: string, c: char): (r: seq<string>)
    ensures |r| >= 1
  {
    if s == [] then [[]]
    else
      var rest := Split(s[1..], c);
      if s[0] == c then [[]] + rest else [[s[0]] + rest[0]] + rest[1..]
  }

  /** Without the separator, `split` yields the whole string. */
  lemma {:induction false} SplitNone(s: string, c: char)
    requires c !in s
    ensures Split(s, c) == [s]
  {
    if s != [] {
      SplitNone(s[1..], c);
      assert [s[0]] + s[1..] == s;
    }
  }

  /** `split` cuts at the first separator and continues on the rest. */
  lemma {:induction false} SplitAtFirst(a: string, c: char, b: string)
    requires c !in a
    ensures Split(a + [c] + b, c) == [a] + Split(b, c)
  {
    if a == [] {
      assert a + [c] + b == [c] + b;
      assert ([c] + b)[1..] == b;
    } else {
      assert (a + [c] + b)[1..] == a[1..] + [c] + b;
      SplitAtFirst(a[1..], c, b);
      assert [a[0]] + a[1..] == a;
    }
  }

  /** `join` then `split` on a separator that no part contains gives the parts back. */
  lemma {:induction false} SplitJoin(parts: seq<string>, c: char)
    requires |parts| >= 1
    requires forall k :: 0 <= k < |parts| ==> c !in parts[k]
    ensures Split(Join(parts, [c]), c) == parts
  {
    if |parts| == 1 {
      SplitNone(parts[0], c);
    } else {
      SplitJoin(parts[1..], c);
      SplitAtFirst(parts[0], c, Join(parts[1..], [c]));
      assert [parts[0]] + parts[1..] == parts;
    }
  }

  function DigitChar(d: nat): (c: char)
    requires d < 10
    ensures IsDigit(c) && c as int - '0' as int == d
  {
    ('0' as int + d) as char
  }

  /** Decimal rendering of a natural number, as a template string prints it. */
  function NatToString(n: nat): (r: string)
    ensures r != [] && forall i :: 0 <= i < |r| ==> IsDigit(r[i])
  {
    if n < 10 then [DigitChar(n)] else NatToString(n / 10) + [DigitChar(n % 10)]
  }

  /** Decimal rendering of an integer (a leading `-` when negative). */
  function IntToString(n: int): string
  {
    if n < 0 then "-" + NatToString(-n) else NatToString(n)
  }

  /** Value of a string of decimal digits. */
  function DecimalValue(s: string): nat
    requires forall i :: 0 <= i < |s| ==> IsDigit(s[i])
  {
    if s == [] then 0
    else
      var last := s[|s| - 1];
      assert IsDigit(last);
      DecimalValue(s[..|s| - 1]) * 10 + (last as int - '0' as int)
  }

  /** Reading back the decimal rendering gives the number: `NatToString` is injective. */
  lemma {:induction false} DecimalRoundTrip(n: nat)
    ensures DecimalValue(NatToString(n)) == n
  {
    if n >= 10 {
      DecimalRoundTrip(n / 10);
      var s := NatToString(n);
      assert s[..|s| - 1] == NatToString(n / 10);
    }
  }

  /** Distinct numbers render as distinct strings, so rendered indices can key a map. */
  lemma NatToStringInjective()
    ensures forall i: nat, j: nat :: NatToString(i) == NatToString(j) ==> i == j
  {
    forall i: nat, j: nat | NatToString(i) == NatToString(j)
      ensures i == j
    {
      DecimalRoundTrip(i);
      DecimalRoundTrip(j);
    }
  }
}
