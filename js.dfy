/**
 * The few JavaScript built-ins the client's logic relies on, restricted to
 * ASCII text: `String.prototype.trim`, `toLowerCase`, `includes`, `split`
 * on a one-character separator, `Array.prototype.join`, and `Number()` /
 * `isNaN()` applied to a string.
 */
module Js {

  /** The ASCII members of the set JavaScript treats as white space
      (`\s`, `trim`, and the white space skipped by `Number()`). */
  predicate IsWhitespace(c: char) {
    c == ' ' || c == '\t' || c == '\n' || c == '\r' || c == '\U{000B}' || c == '\U{000C}'
  }

  predicate IsDigit(c: char) {
    '0' <= c <= '9'
  }

  predicate AllDigits(s: string) {
    forall i :: 0 <= i < |s| ==> IsDigit(s[i])
  }

  predicate HasWhitespace(s: string) {
    exists i :: 0 <= i < |s| && IsWhitespace(s[i])
  }

  /** A string of white space only (what `trim` empties). */
  predicate IsBlank(s: string) {
    forall i :: 0 <= i < |s| ==> IsWhitespace(s[i])
  }

  /** A string with no white space at either end (what `trim` returns). */
  predicate IsTrimmed(s: string) {
    s == [] || (!IsWhitespace(s[0]) && !IsWhitespace(s[|s| - 1]))
  }

  /** `s` without its leading white space. */
  function TrimStart(s: string): (r: string)
    ensures |r| <= |s|
    ensures r == [] || !IsWhitespace(r[0])
  {
    if s != [] && IsWhitespace(s[0]) then TrimStart(s[1..]) else s
  }

  /** `s` without its trailing white space. */
  function TrimEnd(s: string): (r: string)
    ensures |r| <= |s|
    ensures r == [] || !IsWhitespace(r[|r| - 1])
  {
    if s != [] && IsWhitespace(s[|s| - 1]) then TrimEnd(s[..|s| - 1]) else s
  }

  /** What `TrimStart` drops is white space, and what it keeps is a suffix. */
  lemma {:induction false} TrimStartSuffix(s: string)
    ensures TrimStart(s) == s[|s| - |TrimStart(s)|..]
    ensures forall i :: 0 <= i < |s| - |TrimStart(s)| ==> IsWhitespace(s[i])
    decreases |s|
  {
    if s != [] && IsWhitespace(s[0]) {
      TrimStartSuffix(s[1..]);
    }
  }

  /** What `TrimEnd` drops is white space, and what it keeps is a prefix. */
  lemma {:induction false} TrimEndPrefix(s: string)
    ensures TrimEnd(s) == s[..|TrimEnd(s)|]
    ensures forall i :: |TrimEnd(s)| <= i < |s| ==> IsWhitespace(s[i])
    decreases |s|
  {
    if s != [] && IsWhitespace(s[|s| - 1]) {
      TrimEndPrefix(s[..|s| - 1]);
    }
  }

  /** `s.trim()`: `s` without the white space at either end. That the
      result is a slice of `s` with only white space around it is
      `TrimIsSlice`, kept out of this contract so that callers do not pay
      for its quantifiers. */
  function Trim(s: string): (r: string)
    ensures IsTrimmed(r)
    ensures r == [] <==> IsBlank(s)
  {
    TrimFacts(s);
    TrimEnd(TrimStart(s))
  }

  lemma TrimFacts(s: string)
    ensures IsTrimmed(TrimEnd(TrimStart(s)))
    ensures TrimEnd(TrimStart(s)) == [] <==> IsBlank(s)
  {
    var t := TrimStart(s);
    var r := TrimEnd(t);
    TrimStartSuffix(s);
    TrimEndPrefix(t);
    if r != [] {
      assert r[0] == t[0];
    }
  }

  /** `Trim(s)` is the slice of `s` that starts after the leading white
      space, and only white space lies before and after it. */
  lemma TrimIsSlice(s: string)
    ensures var k := |s| - |TrimStart(s)|; var r := Trim(s);
      && k + |r| <= |s| && r == s[k..k + |r|]
      && IsBlank(s[..k]) && IsBlank(s[k + |r|..])
  {
    var t := TrimStart(s);
    TrimStartSuffix(s);
    TrimEndPrefix(t);
    TrimSlice(s, t, TrimEnd(t));
  }

  /** A prefix `r` of a suffix `t` of `s` is a slice of `s`, and white space
      after `r` in `t` is white space after that slice in `s`. */
  lemma TrimSlice(s: string, t: string, r: string)
    requires |t| <= |s| && t == s[|s| - |t|..]
    requires |r| <= |t| && r == t[..|r|]
    requires forall i :: 0 <= i < |s| - |t| ==> IsWhitespace(s[i])
    requires forall i :: |r| <= i < |t| ==> IsWhitespace(t[i])
    ensures var k := |s| - |t|;
      && k + |r| <= |s| && r == s[k..k + |r|]
      && IsBlank(s[..k]) && IsBlank(s[k + |r|..])
  {
    var k := |s| - |t|;
    assert s[k + |r|..] == t[|r|..];
  }

  /** Trimming a string that is already trimmed changes nothing. */
  lemma TrimTrimmed(s: string)
    requires IsTrimmed(s)
    ensures Trim(s) == s
  {
  }

  /** A blank in front of a string makes no difference to its trim. */
  lemma TrimLeadingBlank(s: string)
    ensures Trim([' '] + s) == Trim(s)
  {
    assert ([' '] + s)[1..] == s;
  }

  /** A character missing from `s` is missing from its trim. */
  lemma TrimWithout(s: string, c: char)
    requires c !in s
    ensures c !in Trim(s)
  {
    var t := TrimStart(s);
    TrimStartSuffix(s);
    TrimEndPrefix(t);
    assert Trim(s) == TrimEnd(t);
    assert forall i :: 0 <= i < |Trim(s)| ==> Trim(s)[i] == t[i] == s[|s| - |t| + i];
  }

  function LowerChar(c: char): char {
    if 'A' <= c <= 'Z' then (c as int + 32) as char else c
  }

  /** `s.toLowerCase()` on ASCII text. */
  function ToLower(s: string): (r: string)
    ensures |r| == |s|
    ensures forall i :: 0 <= i < |s| ==> r[i] == LowerChar(s[i])
  {
    seq(|s|, i requires 0 <= i < |s| => LowerChar(s[i]))
  }

  /** What `toLowerCase` leaves has no ASCII capital, and it changes no
      character other than a capital. */
  lemma {:induction false} ToLowerNoCapitals(s: string)
    ensures forall i :: 0 <= i < |s| ==> !('A' <= ToLower(s)[i] <= 'Z')
    ensures forall i :: 0 <= i < |s| && !('A' <= s[i] <= 'Z') ==> ToLower(s)[i] == s[i]
  {
    forall i | 0 <= i < |s|
      ensures !('A' <= ToLower(s)[i] <= 'Z')
    {
      assert ToLower(s)[i] == LowerChar(s[i]);
    }
  }

  /** Lower-casing twice is lower-casing once. */
  lemma ToLowerIdempotent(s: string)
    ensures ToLower(ToLower(s)) == ToLower(s)
  {
    ToLowerNoCapitals(s);
    var t := ToLower(s);
    assert forall i :: 0 <= i < |t| ==> ToLower(t)[i] == t[i];
  }

  /** The independent statement of "`sub` occurs in `s`". */
  ghost predicate OccursAt(s: string, sub: string, k: int) {
    0 <= k && k + |sub| <= |s| && s[k..k + |sub|] == sub
  }

  /** `s.includes(sub)`, searching from the front. */
  function Includes(s: string, sub: string): (b: bool)
    decreases |s|
  {
    if |sub| <= |s| && s[..|sub|] == sub then true
    else if s == [] then false
    else Includes(s[1..], sub)
  }

  /** `Includes` finds `sub` exactly when it occurs somewhere in `s`. */
  lemma {:induction false} IncludesIff(s: string, sub: string)
    ensures Includes(s, sub) <==> exists k :: OccursAt(s, sub, k)
    decreases |s|
  {
    if |sub| <= |s| && s[..|sub|] == sub {
      assert OccursAt(s, sub, 0);
    } else if s == [] {
    } else {
      IncludesIff(s[1..], sub);
      if exists k :: OccursAt(s[1..], sub, k) {
        var k :| OccursAt(s[1..], sub, k);
        assert s[k + 1..k + 1 + |sub|] == s[1..][k..k + |sub|];
        assert OccursAt(s, sub, k + 1);
      }
      if exists k :: OccursAt(s, sub, k) {
        var k :| OccursAt(s, sub, k);
        assert k != 0;
        assert s[1..][k - 1..k - 1 + |sub|] == s[k..k + |sub|];
        assert OccursAt(s[1..], sub, k - 1);
      }
    }
  }

  /** The empty string occurs in every string. */
  lemma IncludesEmpty(s: string)
    ensures Includes(s, "")
  {
  }

  /** `xs.join(sep)`. */
  function Join(xs: seq<string>, sep: string): (r: string)
    decreases |xs|
  {
    if |xs| == 0 then ""
    else if |xs| == 1 then xs[0]
    else xs[0] + sep + Join(xs[1..], sep)
  }

  /** `s.split(sep)` for a one-character separator: the pieces between the
      separators, so there is always one more piece than separators. */
  function Split(s: string, sep: char): (r: seq<string>)
    ensures |r| >= 1
    ensures forall i :: 0 <= i < |r| ==> sep !in r[i]
    decreases |s|
  {
    if s == [] then [""]
    else
      var rest := Split(s[1..], sep);
      if s[0] == sep then [""] + rest
      else [[s[0]] + rest[0]] + rest[1..]
  }

  /** Joining the pieces back with the separator gives the original string. */
  lemma {:induction false} JoinSplit(s: string, sep: char)
    ensures Join(Split(s, sep), [sep]) == s
    decreases |s|
  {
    if s != [] {
      JoinSplit(s[1..], sep);
      var rest := Split(s[1..], sep);
      if s[0] != sep {
        if |rest| > 1 {
          assert rest == [rest[0]] + rest[1..];
          assert Join(rest, [sep]) == rest[0] + [sep] + Join(rest[1..], [sep]);
          var r := [[s[0]] + rest[0]] + rest[1..];
          assert r[1..] == rest[1..];
          assert s == [s[0]] + s[1..];
        } else {
          assert s == [s[0]] + s[1..];
        }
      } else {
        assert s == [sep] + s[1..];
      }
    }
  }

  /** Splitting a join of separator-free pieces gives the pieces back. */
  lemma {:induction false} SplitJoin(xs: seq<string>, sep: char)
    requires |xs| >= 1
    requires forall i :: 0 <= i < |xs| ==> sep !in xs[i]
    ensures Split(Join(xs, [sep]), sep) == xs
    decreases |xs|, |xs[0]|
  {
    if |xs| == 1 {
      SplitFree(xs[0], sep);
    } else {
      var x := xs[0];
      if x == [] {
        SplitJoin(xs[1..], sep);
        assert Join(xs, [sep]) == [sep] + Join(xs[1..], [sep]);
        assert xs == [""] + xs[1..];
      } else {
        var ys := [x[1..]] + xs[1..];
        assert ys[1..] == xs[1..];
        SplitJoin(ys, sep);
        assert Join(xs, [sep]) == [x[0]] + Join(ys, [sep]);
        assert ([x[0]] + Join(ys, [sep]))[1..] == Join(ys, [sep]);
        assert [x[0]] + x[1..] == x;
      }
    }
  }

  /** Two separator-free pieces joined by the separator split back into them. */
  lemma SplitPair(a: string, b: string, sep: char)
    requires sep !in a && sep !in b
    ensures Split(a + [sep] + b, sep) == [a, b]
  {
    SplitJoin([a, b], sep);
    assert Join([b], [sep]) == b;
    assert Join([a, b], [sep]) == a + [sep] + b;
  }

  /** A separator-free first piece comes off the front of the split. */
  lemma {:induction false} SplitCons(a: string, b: string, sep: char)
    requires sep !in a
    ensures Split(a + [sep] + b, sep) == [a] + Split(b, sep)
    decreases |a|
  {
    if a == [] {
      assert a + [sep] + b == [sep] + b;
      assert ([sep] + b)[1..] == b;
    } else {
      SplitCons(a[1..], b, sep);
      assert (a + [sep] + b)[1..] == a[1..] + [sep] + b;
      assert [a[0]] + a[1..] == a;
    }
  }

  /** A string without the separator splits into itself. */
  lemma {:induction false} SplitFree(s: string, sep: char)
    requires sep !in s
    ensures Split(s, sep) == [s]
    decreases |s|
  {
    if s != [] {
      SplitFree(s[1..], sep);
      assert [s[0]] + s[1..] == s;
    }
  }

  // ----- `Number(s)` and `isNaN(s)` on a string -----

  /** What `Number()` gives. Integers written in decimal (with a sign or
      not) are computed; every other numeric value (fractions, exponents,
      hexadecimal, `Infinity`) is `OtherNumber`, known only to be a number. */
  datatype JsNumber = NaN | Int(value: int) | OtherNumber

  function DigitsValue(s: string): (n: nat)
    requires AllDigits(s)
    decreases |s|
  {
    if s == [] then 0 else DigitsValue(s[..|s| - 1]) * 10 + (s[|s| - 1] as int - '0' as int)
  }

  /** DecimalDigits: one or more decimal digits. */
  predicate IsDigits(s: string) {
    s != [] && AllDigits(s)
  }

  predicate IsHexDigit(c: char) {
    IsDigit(c) || 'a' <= c <= 'f' || 'A' <= c <= 'F'
  }

  /** SignedInteger of an exponent part. */
  predicate IsSignedInteger(s: string) {
    IsDigits(s) || (s != [] && (s[0] == '+' || s[0] == '-') && IsDigits(s[1..]))
  }

  /** An optional ExponentPart: empty, or `e`/`E` followed by a SignedInteger. */
  predicate IsOptExponent(s: string) {
    s == [] || ((s[0] == 'e' || s[0] == 'E') && IsSignedInteger(s[1..]))
  }

  /** The number of leading decimal digits of `s`. */
  function LeadingDigits(s: string): (k: nat)
    ensures k <= |s| && AllDigits(s[..k])
    ensures k < |s| ==> !IsDigit(s[k])
    decreases |s|
  {
    if s != [] && IsDigit(s[0]) then
      var k := 1 + LeadingDigits(s[1..]);
      assert s[..k] == [s[0]] + s[1..][..k - 1];
      k
    else 0
  }

  /** StrUnsignedDecimalLiteral: `Infinity`, `12`, `12.`, `12.5`, `.5`, each
      optionally followed by an exponent. */
  predicate IsUnsignedDecimal(s: string) {
    s == "Infinity" ||
    var k := LeadingDigits(s);
    var rest := s[k..];
    if rest != [] && rest[0] == '.' then
      var f := LeadingDigits(rest[1..]);
      (k > 0 || f > 0) && IsOptExponent(rest[1..][f..])
    else
      k > 0 && IsOptExponent(rest)
  }

  /** NonDecimalIntegerLiteral: `0x`/`0X`, `0o`/`0O` or `0b`/`0B` and digits. */
  predicate IsNonDecimal(s: string) {
    |s| >= 3 && s[0] == '0' &&
    var ds := s[2..];
    if s[1] == 'x' || s[1] == 'X' then forall i :: 0 <= i < |ds| ==> IsHexDigit(ds[i])
    else if s[1] == 'o' || s[1] == 'O' then forall i :: 0 <= i < |ds| ==> '0' <= ds[i] <= '7'
    else if s[1] == 'b' || s[1] == 'B' then forall i :: 0 <= i < |ds| ==> ds[i] == '0' || ds[i] == '1'
    else false
  }

  /** StrNumericLiteral: a possibly signed decimal literal or an unsigned
      non-decimal one. */
  predicate IsNumericLiteral(s: string) {
    IsUnsignedDecimal(s) || IsNonDecimal(s) ||
    (s != [] && (s[0] == '+' || s[0] == '-') && IsUnsignedDecimal(s[1..]))
  }

  /** `Number(s)`: white space around the literal is ignored and a blank
      string is 0; anything that is not a numeric literal is NaN. */
  function ToNumber(s: string): (n: JsNumber) {
    var t := Trim(s);
    if t == [] then Int(0)
    else if !IsNumericLiteral(t) then NaN
    else if AllDigits(t) then Int(DigitsValue(t))
    else if (t[0] == '+' || t[0] == '-') && IsDigits(t[1..]) then
      Int(if t[0] == '-' then 0 - DigitsValue(t[1..]) else DigitsValue(t[1..]) as int)
    else OtherNumber
  }

  /** A string of decimal digits is the number it spells; the empty string is 0. */
  lemma DigitsToNumber(s: string)
    requires AllDigits(s)
    ensures ToNumber(s) == Int(if s == [] then 0 else DigitsValue(s))
  {
    TrimTrimmed(s);
    if s != [] {
      assert LeadingDigits(s) == |s|;
      assert IsUnsignedDecimal(s);
    }
  }

  /** A trimmed numeric literal is a number. */
  lemma LiteralIsNumber(s: string)
    requires IsTrimmed(s) && s != [] && IsNumericLiteral(s)
    ensures !ToNumber(s).NaN?
  {
    TrimTrimmed(s);
  }

  /** A trimmed, non-empty string that is not a numeric literal is NaN. */
  lemma NonLiteralIsNaN(s: string)
    requires IsTrimmed(s) && s != [] && !IsNumericLiteral(s)
    ensures ToNumber(s).NaN?
  {
    TrimTrimmed(s);
  }

  /** `isNaN(s)` on a string. */
  predicate IsNaN(s: string) {
    ToNumber(s).NaN?
  }

  // ----- `Array.prototype.filter` and subsequences -----

  /** `a` is `b` with some elements left out, the rest in their order. */
  ghost predicate IsSubsequence<T>(a: seq<T>, b: seq<T>)
    decreases |b|
  {
    if a == [] then true
    else if b == [] then false
    else (a[0] == b[0] && IsSubsequence(a[1..], b[1..])) || IsSubsequence(a, b[1..])
  }

  /** `s.filter(keep)`: the elements `keep` accepts, in their order. */
  function Filter<T(!new)>(s: seq<T>, keep: T -> bool): (r: seq<T>)
    ensures |r| <= |s|
    ensures forall x :: x in r <==> x in s && keep(x)
    decreases |s|
  {
    if s == [] then []
    else (if keep(s[0]) then [s[0]] else []) + Filter(s[1..], keep)
  }

  /** `filter` keeps every copy of an element the test accepts and no
      copy of one it refuses. */
  lemma {:induction false} FilterCount<T(!new)>(s: seq<T>, keep: T -> bool)
    ensures forall x :: multiset(Filter(s, keep))[x] == if keep(x) then multiset(s)[x] else 0
    decreases |s|
  {
    if s != [] {
      FilterCount(s[1..], keep);
      assert s == [s[0]] + s[1..];
    }
  }

  /** What `filter` keeps stays in the order it had. */
  lemma {:induction false} FilterIsSubsequence<T(!new)>(s: seq<T>, keep: T -> bool)
    ensures IsSubsequence(Filter(s, keep), s)
    decreases |s|
  {
    if s != [] {
      FilterIsSubsequence(s[1..], keep);
      var r := Filter(s, keep);
      if keep(s[0]) {
        assert r[0] == s[0] && r[1..] == Filter(s[1..], keep);
      } else {
        assert r == Filter(s[1..], keep);
      }
    }
  }

  /** Filtering a list that `keep` accepts throughout gives the list back. */
  lemma {:induction false} FilterKeepsAll<T(!new)>(s: seq<T>, keep: T -> bool)
    requires forall i :: 0 <= i < |s| ==> keep(s[i])
    ensures Filter(s, keep) == s
    decreases |s|
  {
    if s != [] {
      FilterKeepsAll(s[1..], keep);
      assert [s[0]] + s[1..] == s;
    }
  }

  /** Filtering distributes over concatenation. */
  lemma {:induction false} FilterAppend<T(!new)>(a: seq<T>, b: seq<T>, keep: T -> bool)
    ensures Filter(a + b, keep) == Filter(a, keep) + Filter(b, keep)
    decreases |a|
  {
    if a != [] {
      FilterAppend(a[1..], b, keep);
      assert (a + b)[1..] == a[1..] + b;
    } else {
      assert a + b == b;
    }
  }

  // ----- Dynamically typed response bodies -----

  /** A JSON-like value whose arrays hold records of type `T`. */
  datatype Value<T> =
    | Undefined
    | Null
    | Bool(b: bool)
    | Num(n: int)
    | Str(s: string)
    | Arr(items: seq<T>)
    | Obj(fields: map<string, Value<T>>)

  /** JavaScript truthiness: `undefined`, `null`, `false`, `0` and `""` are falsy. */
  predicate Truthy<T>(v: Value<T>) {
    match v
    case Undefined => false
    case Null => false
    case Bool(b) => b
    case Num(n) => n != 0
    case Str(s) => s != ""
    case Arr(_) => true
    case Obj(_) => true
  }

  /** `a || b`. */
  function Or<T>(a: Value<T>, b: Value<T>): (r: Value<T>)
    ensures Truthy(a) ==> r == a
    ensures !Truthy(a) ==> r == b
    ensures r == a || r == b
    ensures Truthy(r) <==> Truthy(a) || Truthy(b)
  {
    if Truthy(a) then a else b
  }

  /** `(a || b) || c` and `a || (b || c)` pick the same value. */
  lemma OrAssociative<T>(a: Value<T>, b: Value<T>, c: Value<T>)
    ensures Or(Or(a, b), c) == Or(a, Or(b, c))
  {
    if !Truthy(a) {
      assert Or(a, b) == b;
    }
  }

  /** A falsy left operand makes no difference: `a || b` is `b`, and `b || a`
      is `b` whenever `b` is truthy. */
  lemma OrFalsyUnit<T>(a: Value<T>, b: Value<T>)
    requires !Truthy(a)
    ensures Or(a, b) == b
    ensures Truthy(b) ==> Or(b, a) == b
  {
  }
}
