/**
 * The string operations that the server and the client apply to request
 * fields and to the model's free-form text: JavaScript's `trim`, `includes`,
 * `startsWith`, `endsWith`, `split` on one character, `replace` of every
 * occurrence of one character, the `\s`, `\d` and `.` classes of its regular
 * expressions, and decimal conversion of numbers.
 */
module Text {
  import opened Wrappers

  /** A request field: absent (`None`) or a string. */
  type Field = Option<string>

  /** JavaScript truthiness of a string field: present and not empty. */
  predicate Truthy(f: Field) {
    f.Some? && f.value != ""
  }

  /** How a template literal renders a field: an absent one as "undefined". */
  function Show(f: Field): (r: string)
    ensures f.Some? ==> r == f.value
  {
    match f
    case Some(s) => s
    case None => "undefined"
  }

  /** `f || fallback` for a string field. */
  function OrElse(f: Field, fallback: string): (r: string)
    ensures Truthy(f) ==> r == f.value
    ensures !Truthy(f) ==> r == fallback
  {
    if Truthy(f) then f.value else fallback
  }

  /** JavaScript's WhiteSpace and LineTerminator characters: what `\s` matches and `trim` removes. */
  predicate IsSpace(c: char) {
    || c == ' ' || c == '\t' || c == '\n' || c == '\r' || c == '\U{B}' || c == '\U{C}'
    || c == '\U{A0}' || c == '\U{1680}' || ('\U{2000}' <= c <= '\U{200A}')
    || c == '\U{2028}' || c == '\U{2029}' || c == '\U{202F}' || c == '\U{205F}'
    || c == '\U{3000}' || c == '\U{FEFF}'
  }

  /** The characters that `.` does not match in a regular expression without the `s` flag. */
  predicate IsLineTerminator(c: char) {
    c == '\n' || c == '\r' || c == '\U{2028}' || c == '\U{2029}'
  }

  /** `\d`: an ASCII decimal digit. */
  predicate IsDigit(c: char) {
    '0' <= c <= '9'
  }

  // ---------------------------------------------------------------- trimming

  /** `trimStart`: drops the leading whitespace and nothing else. */
  function TrimStart(s: string): (r: string)
    ensures |r| <= |s| && r == s[|s| - |r|..]
    ensures forall k :: 0 <= k < |s| - |r| ==> IsSpace(s[k])
    ensures r != [] ==> !IsSpace(r[0])
  {
    if s != [] && IsSpace(s[0]) then TrimStart(s[1..]) else s
  }

  /** `trimEnd`: drops the trailing whitespace and nothing else. */
  function TrimEnd(s: string): (r: string)
    ensures |r| <= |s| && r == s[..|r|]
    ensures forall k :: |r| <= k < |s| ==> IsSpace(s[k])
    ensures r != [] ==> !IsSpace(r[|r| - 1])
  {
    if s != [] && IsSpace(s[|s| - 1]) then TrimEnd(s[..|s| - 1]) else s
  }

  /** How many whitespace characters `s` starts with: where the trimmed text begins. */
  function LeadingSpaces(s: string): (n: nat)
    ensures n <= |s|
    ensures forall k :: 0 <= k < n ==> IsSpace(s[k])
    ensures n < |s| ==> !IsSpace(s[n])
  {
    var t := TrimStart(s);
    assert t != [] ==> t[0] == s[|s| - |t|];
    |s| - |t|
  }

  /** The trimmed text keeps no character `s` lacks, and starts and ends with a non-space. */
  lemma TrimParts(s: string)
    ensures var r := TrimEnd(TrimStart(s));
      && (r != [] ==> !IsSpace(r[0]) && !IsSpace(r[|r| - 1]))
      && forall c :: c in r ==> c in s
  {
    var t := TrimStart(s);
    var r := TrimEnd(t);
    forall c | c in r ensures c in s {
      var k :| 0 <= k < |r| && r[k] == c;
      assert r[k] == t[k] == s[|s| - |t| + k];
    }
    if r != [] {
      assert r[0] == t[0];
    }
  }

  /** `trim`: the longest infix of `s` that neither starts nor ends with whitespace. */
  function Trim(s: string): (r: string)
    ensures |r| <= |s|
    ensures r != [] ==> !IsSpace(r[0]) && !IsSpace(r[|r| - 1])
    ensures forall c :: c in r ==> c in s
  {
    TrimParts(s);
    TrimEnd(TrimStart(s))
  }

  /**
   * The trimmed text is the infix of `s` that starts right after the leading
   * whitespace and is followed only by whitespace: with the ends `Trim`
   * promises, this fixes it.
   */
  lemma TrimIsInfix(s: string)
    ensures var r := Trim(s);
      var n := LeadingSpaces(s);
      && n + |r| <= |s| && r == s[n..n + |r|]
      && forall k :: n + |r| <= k < |s| ==> IsSpace(s[k])
  {
    var t := TrimStart(s);
    var r := TrimEnd(t);
    var n := |s| - |t|;
    assert Trim(s) == r by {}
    assert LeadingSpaces(s) == n by {}
    InfixAfter(s, t, r, n);
  }

  /** A prefix `r` of the suffix `t` of `s` that is followed in `t` only by whitespace is followed in `s` only by it too. */
  lemma InfixAfter(s: string, t: string, r: string, n: nat)
    requires n <= |s| && t == s[n..] && |r| <= |t| && r == t[..|r|]
    requires forall j :: |r| <= j < |t| ==> IsSpace(t[j])
    ensures n + |r| <= |s| && r == s[n..n + |r|]
    ensures forall k :: n + |r| <= k < |s| ==> IsSpace(s[k])
  {
    forall k | n + |r| <= k < |s| ensures IsSpace(s[k]) {
      assert s[k] == t[k - n];
    }
  }

  /** Trimming changes nothing when `s` neither starts nor ends with whitespace. */
  lemma TrimKeeps(s: string)
    requires s != [] ==> !IsSpace(s[0]) && !IsSpace(s[|s| - 1])
    ensures Trim(s) == s
  {
  }

  /** Trimming gives the empty string exactly when every character is whitespace. */
  lemma {:induction false} TrimEmptyIff(s: string)
    ensures Trim(s) == [] <==> forall k :: 0 <= k < |s| ==> IsSpace(s[k])
  {
    var t := TrimStart(s);
    if t != [] {
      assert !IsSpace(s[|s| - |t|]);
      assert TrimEnd(t) != [];
    }
  }

  /** Trimming twice is trimming once. */
  lemma TrimIdempotent(s: string)
    ensures Trim(Trim(s)) == Trim(s)
  {
    TrimKeeps(Trim(s));
  }

  // ---------------------------------------------------------------- scanning

  /** Index of the first line terminator at or after `i`, or `|s|`: where a `.+` run stops. */
  function LineEnd(s: string, i: nat): (j: nat)
    requires i <= |s|
    ensures i <= j <= |s|
    ensures forall k :: i <= k < j ==> !IsLineTerminator(s[k])
    ensures j < |s| ==> IsLineTerminator(s[j])
    decreases |s| - i
  {
    if i == |s| || IsLineTerminator(s[i]) then i else LineEnd(s, i + 1)
  }

  /** Index of the first non-whitespace character at or after `i`, or `|s|`: where a greedy `\s*` stops. */
  function SkipSpaces(s: string, i: nat): (j: nat)
    requires i <= |s|
    ensures i <= j <= |s|
    ensures forall k :: i <= k < j ==> IsSpace(s[k])
    ensures j < |s| ==> !IsSpace(s[j])
    decreases |s| - i
  {
    if i == |s| || !IsSpace(s[i]) then i else SkipSpaces(s, i + 1)
  }

  /** Index of the first non-digit at or after `i`, or `|s|`: where a greedy `\d+` stops. */
  function DigitsEnd(s: string, i: nat): (j: nat)
    requires i <= |s|
    ensures i <= j <= |s|
    ensures forall k :: i <= k < j ==> IsDigit(s[k])
    ensures j < |s| ==> !IsDigit(s[j])
    decreases |s| - i
  {
    if i == |s| || !IsDigit(s[i]) then i else DigitsEnd(s, i + 1)
  }

  /** `t` occurs in `s` starting at index `i`. */
  predicate OccursAt(s: string, t: string, i: nat) {
    i + |t| <= |s| && s[i..i + |t|] == t
  }

  /** `s.indexOf(t, from)`: the first occurrence of `t` at or after `from`, if any. */
  function IndexFrom(s: string, t: string, from: nat): (r: Option<nat>)
    ensures r.Some? ==> from <= r.value && OccursAt(s, t, r.value)
    ensures r.Some? ==> forall k :: from <= k < r.value ==> !OccursAt(s, t, k)
    ensures r.None? ==> forall k :: from <= k ==> !OccursAt(s, t, k)
    decreases |s| - from
  {
    if from + |t| > |s| then None
    else if OccursAt(s, t, from) then Some(from)
    else IndexFrom(s, t, from + 1)
  }

  /** `s.includes(t)`. */
  predicate Contains(s: string, t: string) {
    ContainsFrom(s, t, 0)
  }

  /** Whether `t` occurs in `s` at or after `from`. */
  predicate ContainsFrom(s: string, t: string, from: nat)
    decreases |s| - from
  {
    from + |t| <= |s| && (OccursAt(s, t, from) || ContainsFrom(s, t, from + 1))
  }

  /** An occurrence at or after `from` exists exactly when `indexOf` from there finds one. */
  lemma {:induction false} ContainsFromIff(s: string, t: string, from: nat)
    ensures ContainsFrom(s, t, from) <==> exists i: nat :: from <= i && OccursAt(s, t, i)
    ensures ContainsFrom(s, t, from) <==> IndexFrom(s, t, from).Some?
    decreases |s| - from
  {
    if from + |t| <= |s| {
      ContainsFromIff(s, t, from + 1);
      if OccursAt(s, t, from) {
        assert from <= from && OccursAt(s, t, from);
      } else if exists i: nat :: from <= i && OccursAt(s, t, i) {
        var i: nat :| from <= i && OccursAt(s, t, i);
        assert from + 1 <= i;
      }
    }
  }

  /** `includes` means some occurrence, wherever it is, and agrees with `indexOf`. */
  lemma ContainsIff(s: string, t: string)
    ensures Contains(s, t) <==> exists i: nat :: OccursAt(s, t, i)
    ensures Contains(s, t) <==> IndexFrom(s, t, 0).Some?
  {
    ContainsFromIff(s, t, 0);
  }

  /** A string built around `t` contains `t`. */
  lemma ContainsInfix(a: string, t: string, b: string)
    ensures Contains(a + t + b, t)
  {
    assert OccursAt(a + t + b, t, |a|);
    ContainsIff(a + t + b, t);
  }

  /** Text added after a string keeps what it contains. */
  lemma ContainsAppend(s: string, q: string, t: string)
    requires Contains(s, t)
    ensures Contains(s + q, t)
  {
    ContainsIff(s, t);
    var i: nat :| OccursAt(s, t, i);
    assert (s + q)[i..i + |t|] == s[i..i + |t|];
    assert OccursAt(s + q, t, i);
    ContainsIff(s + q, t);
  }

  /** Text added before a string keeps what it contains. */
  lemma ContainsPrepend(p: string, s: string, t: string)
    requires Contains(s, t)
    ensures Contains(p + s, t)
  {
    ContainsIff(s, t);
    var i: nat :| OccursAt(s, t, i);
    assert (p + s)[|p| + i..|p| + i + |t|] == s[i..i + |t|];
    assert OccursAt(p + s, t, |p| + i);
    ContainsIff(p + s, t);
  }

  /** The parts of a template literal joined in order: `parts.join('')`. */
  function Concat(parts: seq<string>): (s: string)
    ensures |parts| == 1 ==> s == parts[0]
  {
    if parts == [] then "" else Concat(parts[..|parts| - 1]) + parts[|parts| - 1]
  }

  /** Joining two runs of parts is joining each and concatenating. */
  lemma {:induction false} ConcatAppend(a: seq<string>, b: seq<string>)
    ensures Concat(a + b) == Concat(a) + Concat(b)
    decreases |b|
  {
    if b == [] {
      assert a + b == a;
    } else {
      var c := a + b;
      assert c[..|c| - 1] == a + b[..|b| - 1];
      ConcatAppend(a, b[..|b| - 1]);
    }
  }

  /** Three parts joined. */
  lemma Concat3(a: string, b: string, c: string)
    ensures Concat([a, b, c]) == a + b + c
  {
    assert [a, b, c][..2] == [a, b];
    assert [a, b][..1] == [a];
  }

  /** A value written between double quotes after a prefix can be read back by position. */
  lemma QuotedReadBack(a: string, x: string, b: string)
    ensures var s, k := a + ("\"" + x + "\"") + b, |a| + 1;
      |s| == |a| + |x| + 2 + |b| && s[k..k + |x|] == x
  {
  }

  /** The value between the quotes is determined by the whole text, prefix and suffix fixed. */
  lemma QuotedInjective(a: string, x: string, y: string, b: string)
    requires a + ("\"" + x + "\"") + b == a + ("\"" + y + "\"") + b
    ensures x == y
  {
    QuotedReadBack(a, x, b);
    QuotedReadBack(a, y, b);
  }

  /** Joining the parts is joining those before a cut and those after it. */
  lemma ConcatSplit(parts: seq<string>, k: nat)
    requires k <= |parts|
    ensures Concat(parts) == Concat(parts[..k]) + Concat(parts[k..])
  {
    assert parts[..k] + parts[k..] == parts;
    ConcatAppend(parts[..k], parts[k..]);
  }

  /** Any run of consecutive parts occurs in the joined text. */
  lemma ConcatContains(parts: seq<string>, i: nat, j: nat)
    requires i <= j <= |parts|
    ensures Contains(Concat(parts), Concat(parts[i..j]))
  {
    var before, middle, after := Concat(parts[..i]), Concat(parts[i..j]), Concat(parts[j..]);
    assert Concat(parts) == before + middle + after by {
      var front := parts[..j];
      ConcatSplit(parts, j);
      ConcatSplit(front, i);
      assert front[..i] == parts[..i] && front[i..] == parts[i..j];
    }
    ContainsInfix(before, middle, after);
  }

  /** Every part occurs in the joined text. */
  lemma ConcatContainsPart(parts: seq<string>, i: nat)
    requires i < |parts|
    ensures Contains(Concat(parts), parts[i])
  {
    ConcatContains(parts, i, i + 1);
  }

  /** Two neighbouring parts occur together in the joined text. */
  lemma ConcatContainsPair(parts: seq<string>, i: nat)
    requires i + 1 < |parts|
    ensures Contains(Concat(parts), parts[i] + parts[i + 1])
  {
    ConcatContains(parts, i, i + 2);
    var two := parts[i..i + 2];
    assert two[..1] == [parts[i]];
  }

  /** A string all of whose characters lie outside `t` cannot contain a nonempty `t`. */
  lemma NotContainsByChar(s: string, t: string, c: char)
    requires c in t && c !in s
    ensures !Contains(s, t)
  {
    ContainsIff(s, t);
  }

  /**
   * An occurrence of `t` in `a + [c] + b`, where `c` is not a character of
   * `t`, lies wholly in `a` or wholly in `b`.
   */
  lemma NoStraddle(a: string, c: char, b: string, t: string)
    requires c !in t
    ensures Contains(a + [c] + b, t) ==> Contains(a, t) || Contains(b, t)
  {
    var s := a + [c] + b;
    ContainsIff(s, t);
    if Contains(s, t) {
      var i: nat :| OccursAt(s, t, i);
      assert s[i..i + |t|] == t;
      assert forall k :: i <= k < i + |t| ==> s[k] != c;
      assert s[|a|] == c;
      if i + |t| <= |a| {
        assert s[i..i + |t|] == a[i..i + |t|];
        assert OccursAt(a, t, i);
        ContainsIff(a, t);
      } else if i > |a| {
        var j := i - |a| - 1;
        assert s[|a| + 1..] == b;
        assert s[i..i + |t|] == b[j..j + |t|];
        assert OccursAt(b, t, j);
        ContainsIff(b, t);
      }
    }
  }

  /** `s.startsWith(p)`. */
  predicate StartsWith(s: string, p: string) {
    |p| <= |s| && s[..|p|] == p
  }

  /** `s.endsWith(p)`. */
  predicate EndsWith(s: string, p: string) {
    |p| <= |s| && s[|s| - |p|..] == p
  }

  // ---------------------------------------------------------------- splitting and joining

  /** Index of the first `c` in `s`, or `|s|`. */
  function CharIndex(s: string, c: char): (i: nat)
    ensures i <= |s|
    ensures c !in s[..i]
    ensures i < |s| ==> s[i] == c
  {
    if s == [] then 0
    else if s[0] == c then 0
    else 1 + CharIndex(s[1..], c)
  }

  /** `s.split(sep)` for a one-character separator: the pieces between separators, never none. */
  function Split(s: string, sep: char): (parts: seq<string>)
    ensures |parts| >= 1
    ensures forall p :: p in parts ==> sep !in p
    decreases |s|
  {
    var i := CharIndex(s, sep);
    if i == |s| then [s] else [s[..i]] + Split(s[i + 1..], sep)
  }

  /** `parts.join(sep)`. */
  function Join(parts: seq<string>, sep: string): string {
    if |parts| == 0 then ""
    else if |parts| == 1 then parts[0]
    else parts[0] + sep + Join(parts[1..], sep)
  }

  /** Joining the pieces of a split with the separator gives back the string. */
  lemma {:induction false} JoinSplit(s: string, sep: char)
    ensures Join(Split(s, sep), [sep]) == s
    decreases |s|
  {
    var i := CharIndex(s, sep);
    if i < |s| {
      var rest := Split(s[i + 1..], sep);
      JoinSplit(s[i + 1..], sep);
      var parts := [s[..i]] + rest;
      assert Split(s, sep) == parts;
      assert parts[1..] == rest;
      assert Join(parts, [sep]) == s[..i] + [sep] + Join(rest, [sep]);
      assert s == s[..i] + [sep] + s[i + 1..];
    }
  }

  // ---------------------------------------------------------------- subsequences

  /** `a` is `b` with some elements left out, the rest in their order. */
  predicate Subsequence<T(==)>(a: seq<T>, b: seq<T>)
    decreases |b|
  {
    a == [] || (b != [] && ((a[0] == b[0] && Subsequence(a[1..], b[1..])) || Subsequence(a, b[1..])))
  }

  /** A prefix is a subsequence. */
  lemma {:induction false} PrefixIsSubsequence<T>(b: seq<T>, n: nat)
    requires n <= |b|
    ensures Subsequence(b[..n], b)
    decreases |b|
  {
    if n > 0 {
      PrefixIsSubsequence(b[1..], n - 1);
      assert b[..n][1..] == b[1..][..n - 1];
    }
  }

  /** Subsequences compose. */
  lemma {:induction false} SubsequenceTrans<T>(a: seq<T>, b: seq<T>, c: seq<T>)
    requires Subsequence(a, b) && Subsequence(b, c)
    ensures Subsequence(a, c)
    decreases |c|
  {
    if a != [] {
      if a[0] == b[0] && Subsequence(a[1..], b[1..]) {
        if b[0] == c[0] && Subsequence(b[1..], c[1..]) {
          SubsequenceTrans(a[1..], b[1..], c[1..]);
        } else {
          SubsequenceTrans(a, b, c[1..]);
        }
      } else {
        if b[0] == c[0] && Subsequence(b[1..], c[1..]) {
          SubsequenceTrans(a, b[1..], c[1..]);
        } else {
          SubsequenceTrans(a, b, c[1..]);
        }
      }
    }
  }

  /** `s.replace(/c/g, '')`: `s` with every `c` removed and the rest kept in order. */
  function RemoveAll(s: string, c: char): (r: string)
    ensures c !in r
    ensures forall x :: x in r <==> x in s && x != c
    ensures forall x :: multiset(r)[x] == if x == c then 0 else multiset(s)[x]
    ensures Subsequence(r, s)
    ensures c !in s ==> r == s
    ensures |r| <= |s|
  {
    if s == [] then []
    else
      assert s == [s[0]] + s[1..];
      var rest := RemoveAll(s[1..], c);
      if s[0] == c then rest
      else
        assert ([s[0]] + rest)[1..] == rest;
        [s[0]] + rest
  }

  /** One step of the removal: the first character goes unless it is `c`. */
  lemma RemoveAllCons(s: string, c: char)
    requires s != []
    ensures RemoveAll(s, c) == (if s[0] == c then [] else [s[0]]) + RemoveAll(s[1..], c)
  {
  }

  /** Removing from a concatenation removes from each part: the kept characters keep their order. */
  lemma {:induction false} RemoveAllAppend(a: string, b: string, c: char)
    ensures RemoveAll(a + b, c) == RemoveAll(a, c) + RemoveAll(b, c)
  {
    if a == [] {
      assert a + b == b;
    } else {
      var head := if a[0] == c then [] else [a[0]];
      assert (a + b)[0] == a[0] && (a + b)[1..] == a[1..] + b;
      calc {
        RemoveAll(a + b, c);
        { RemoveAllCons(a + b, c); }
        head + RemoveAll(a[1..] + b, c);
        { RemoveAllAppend(a[1..], b, c); }
        head + (RemoveAll(a[1..], c) + RemoveAll(b, c));
        (head + RemoveAll(a[1..], c)) + RemoveAll(b, c);
        { RemoveAllCons(a, c); }
        RemoveAll(a, c) + RemoveAll(b, c);
      }
    }
  }

  // ---------------------------------------------------------------- case and numbers

  /** ASCII lower-casing of one character; every other character is left alone. */
  function LowerChar(c: char): char {
    if 'A' <= c <= 'Z' then (c as int + 32) as char else c
  }

  /** `s` lower-cased letter by letter; positions are kept. */
  function Lower(s: string): (r: string)
    ensures |r| == |s|
    ensures forall k :: 0 <= k < |s| ==> r[k] == LowerChar(s[k])
  {
    seq(|s|, k requires 0 <= k < |s| => LowerChar(s[k]))
  }

  /** The value of a digit. */
  function DigitValue(c: char): (d: nat)
    requires IsDigit(c)
    ensures d < 10
  {
    c as int - '0' as int
  }

  /** The digit for a value below ten. */
  function DigitChar(d: nat): (c: char)
    requires d < 10
    ensures IsDigit(c) && DigitValue(c) == d
  {
    ('0' as int + d) as char
  }

  /** `parseInt` on a run of decimal digits. */
  function ParseDigits(ds: string): nat
    requires forall k :: 0 <= k < |ds| ==> IsDigit(ds[k])
  {
    if ds == [] then 0 else ParseDigits(ds[..|ds| - 1]) * 10 + DigitValue(ds[|ds| - 1])
  }

  /** The decimal rendering of a natural number, as `${n}` gives it. */
  function NatToString(n: nat): (s: string)
    ensures s != []
    ensures forall k :: 0 <= k < |s| ==> IsDigit(s[k])
  {
    if n < 10 then [DigitChar(n)] else NatToString(n / 10) + [DigitChar(n % 10)]
  }

  /** The decimal rendering of an integer, with a leading '-' when negative. */
  function IntToString(n: int): string {
    if n < 0 then "-" + NatToString(-n) else NatToString(n)
  }

  /** Parsing the rendering of a number gives the number back. */
  lemma {:induction false} ParseNatToString(n: nat)
    ensures ParseDigits(NatToString(n)) == n
  {
    if n >= 10 {
      ParseNatToString(n / 10);
      var s := NatToString(n);
      assert s[..|s| - 1] == NatToString(n / 10);
    }
  }
}
