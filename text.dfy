/** The string operations the front end relies on, over ASCII:
    `trim`, `toLowerCase`/`toUpperCase`, `includes`, `split(' ')`/`join(' ')`,
    decimal rendering of numbers and `parseInt`. */
module Text {
  import opened Common

  // ---------------------------------------------------------------- trim

  /** The ASCII white-space characters `String.prototype.trim` removes. */
  predicate IsSpace(c: char)
  {
    c == ' ' || ('\t' <= c <= '\r')
  }

  function TrimStart(s: string): (r: string)
    ensures |r| <= |s|
  {
    if s != [] && IsSpace(s[0]) then TrimStart(s[1..]) else s
  }

  function TrimEnd(s: string): (r: string)
    ensures |r| <= |s|
  {
    if s != [] && IsSpace(s[|s| - 1]) then TrimEnd(s[..|s| - 1]) else s
  }

  /** `trimStart` drops exactly the leading white space. */
  lemma {:induction false} TrimStartShape(s: string)
    ensures TrimStart(s) == s[|s| - |TrimStart(s)|..]
    ensures TrimStart(s) == [] || !IsSpace(TrimStart(s)[0])
    ensures forall i :: 0 <= i < |s| - |TrimStart(s)| ==> IsSpace(s[i])
  {
    if s != [] && IsSpace(s[0]) {
      TrimStartShape(s[1..]);
      assert forall i :: 1 <= i < |s| ==> s[i] == s[1..][i - 1];
    }
  }

  /** `trimEnd` drops exactly the trailing white space. */
  lemma {:induction false} TrimEndShape(s: string)
    ensures TrimEnd(s) <= s
    ensures TrimEnd(s) == [] || !IsSpace(TrimEnd(s)[|TrimEnd(s)| - 1])
    ensures forall i :: |TrimEnd(s)| <= i < |s| ==> IsSpace(s[i])
  {
    if s != [] && IsSpace(s[|s| - 1]) {
      TrimEndShape(s[..|s| - 1]);
    }
  }

  /** `s.trim()` */
  function Trim(s: string): string
  {
    TrimEnd(TrimStart(s))
  }

  /** `!s.trim()`: the string is empty once trimmed. */
  predicate IsBlank(s: string)
  {
    Trim(s) == ""
  }

  /** A string is blank exactly when every character is white space. */
  lemma BlankIffAllSpace(s: string)
    ensures IsBlank(s) <==> forall i :: 0 <= i < |s| ==> IsSpace(s[i])
  {
    var t := TrimStart(s);
    TrimStartShape(s);
    TrimEndShape(t);
    if t != [] {
      assert s[|s| - |t|] == t[0];
    }
  }

  /** Where the trimmed string starts inside the original. */
  function TrimOffset(s: string): nat
  {
    |s| - |TrimStart(s)|
  }

  /** The trimmed string is a piece of the original without white space at
      either end. */
  lemma TrimShape(s: string)
    ensures TrimOffset(s) + |Trim(s)| <= |s|
    ensures s[TrimOffset(s)..TrimOffset(s) + |Trim(s)|] == Trim(s)
    ensures Trim(s) == [] || (!IsSpace(Trim(s)[0]) && !IsSpace(Trim(s)[|Trim(s)| - 1]))
  {
    var t := TrimStart(s);
    var r := TrimEnd(t);
    TrimStartShape(s);
    TrimEndShape(t);
    var k := |s| - |t|;
    assert r == t[..|r|];
    assert s[k..k + |r|] == t[..|r|];
    if r != [] {
      assert r[0] == t[0];
    }
  }

  // ---------------------------------------------------------------- letter case

  function LowerChar(c: char): char
  {
    if 'A' <= c <= 'Z' then (c as int + 32) as char else c
  }

  function UpperChar(c: char): char
  {
    if 'a' <= c <= 'z' then (c as int - 32) as char else c
  }

  /** `s.toLowerCase()` on ASCII letters. */
  function Lower(s: string): (r: string)
    ensures |r| == |s|
    ensures forall i :: 0 <= i < |s| ==> r[i] == LowerChar(s[i])
  {
    if s == [] then [] else [LowerChar(s[0])] + Lower(s[1..])
  }

  /** `s.toUpperCase()` on ASCII letters. */
  function Upper(s: string): (r: string)
    ensures |r| == |s|
    ensures forall i :: 0 <= i < |s| ==> r[i] == UpperChar(s[i])
  {
    if s == [] then [] else [UpperChar(s[0])] + Upper(s[1..])
  }

  /** No lower-case ASCII letter occurs in `s`. */
  predicate NoLowerCase(s: string)
  {
    forall i :: 0 <= i < |s| ==> !('a' <= s[i] <= 'z')
  }

  /** Upper-casing leaves no lower-case letter, and lower-casing forgets
      which case the letters had. */
  lemma CaseFolding(s: string)
    ensures NoLowerCase(Upper(s))
    ensures Lower(Upper(s)) == Lower(s)
    ensures Lower(Lower(s)) == Lower(s)
  {
    assert forall i :: 0 <= i < |s| ==> Lower(Upper(s))[i] == Lower(s)[i];
    assert forall i :: 0 <= i < |s| ==> Lower(Lower(s))[i] == Lower(s)[i];
  }

  // ---------------------------------------------------------------- substring

  /** `needle` occurs in `hay` starting at index `i`. */
  predicate OccursAt(hay: string, needle: string, i: nat)
  {
    i + |needle| <= |hay| && hay[i..i + |needle|] == needle
  }

  /** `hay.includes(needle)` */
  function Contains(hay: string, needle: string): (r: bool)
    ensures needle == [] ==> r
    decreases |hay|
  {
    if needle <= hay then true
    else if hay == [] then false
    else Contains(hay[1..], needle)
  }

  /** `includes` holds exactly when the needle occurs at some position. */
  lemma {:induction false} ContainsIff(hay: string, needle: string)
    ensures Contains(hay, needle) <==> exists i: nat :: OccursAt(hay, needle, i)
    decreases |hay|
  {
    if needle <= hay {
      assert OccursAt(hay, needle, 0);
    } else if hay == [] {
      assert forall i: nat :: !OccursAt(hay, needle, i);
    } else {
      ContainsIff(hay[1..], needle);
      if Contains(hay, needle) {
        var i: nat :| OccursAt(hay[1..], needle, i);
        assert hay[1..][i..i + |needle|] == hay[i + 1..i + 1 + |needle|];
        assert OccursAt(hay, needle, i + 1);
      }
      if exists i: nat :: OccursAt(hay, needle, i) {
        assert !OccursAt(hay, needle, 0);
        var i: nat :| OccursAt(hay, needle, i);
        assert hay[1..][i - 1..i - 1 + |needle|] == hay[i..i + |needle|];
        assert OccursAt(hay[1..], needle, i - 1);
      }
    }
  }

  // ---------------------------------------------------------------- split / join

  /** Number of occurrences of `sep` in `s`. */
  function CountOf(s: string, sep: char): (n: nat)
    ensures n <= |s|
  {
    if s == [] then 0 else (if s[0] == sep then 1 else 0) + CountOf(s[1..], sep)
  }

  lemma {:induction false} CountOfConcat(a: string, b: string, sep: char)
    ensures CountOf(a + b, sep) == CountOf(a, sep) + CountOf(b, sep)
  {
    if a != [] {
      assert (a + b)[0] == a[0];
      assert (a + b)[1..] == a[1..] + b;
      CountOfConcat(a[1..], b, sep);
    } else {
      assert a + b == b;
    }
  }

  lemma {:induction false} CountOfAbsent(s: string, sep: char)
    requires sep !in s
    ensures CountOf(s, sep) == 0
  {
    if s != [] {
      CountOfAbsent(s[1..], sep);
    }
  }

  /** `s.split(sep)` for a one-character separator: the pieces between
      separators, empty pieces kept. */
  function SplitOn(s: string, sep: char): (r: seq<string>)
    ensures |r| >= 1
    ensures forall i :: 0 <= i < |r| ==> sep !in r[i]
  {
    if s == [] then [[]]
    else
      var t := SplitOn(s[1..], sep);
      if s[0] == sep then [[]] + t else [[s[0]] + t[0]] + t[1..]
  }

  /** `ps.join(sep)` */
  function JoinOn(ps: seq<string>, sep: char): string
  {
    if ps == [] then []
    else if |ps| == 1 then ps[0]
    else ps[0] + [sep] + JoinOn(ps[1..], sep)
  }

  /** Joining the pieces of a split gives back the original string. */
  lemma {:induction false} JoinSplit(s: string, sep: char)
    ensures JoinOn(SplitOn(s, sep), sep) == s
  {
    if s != [] {
      var t := SplitOn(s[1..], sep);
      JoinSplit(s[1..], sep);
      if s[0] == sep {
        assert ([[]] + t)[1..] == t;
      } else if |t| > 1 {
        var ps := [[s[0]] + t[0]] + t[1..];
        assert ps[1..] == t[1..];
        assert JoinOn(ps, sep) == ([s[0]] + t[0]) + [sep] + JoinOn(t[1..], sep);
        assert JoinOn(t, sep) == t[0] + [sep] + JoinOn(t[1..], sep);
      }
    }
  }

  /** Splitting a join of separator-free pieces gives back the pieces. */
  lemma {:induction false} SplitJoin(ps: seq<string>, sep: char)
    requires |ps| >= 1
    requires forall i :: 0 <= i < |ps| ==> sep !in ps[i]
    ensures SplitOn(JoinOn(ps, sep), sep) == ps
  {
    if |ps| > 1 {
      SplitJoin(ps[1..], sep);
      SplitPrefix(ps[0], [sep] + JoinOn(ps[1..], sep), sep);
      assert JoinOn(ps, sep) == ps[0] + ([sep] + JoinOn(ps[1..], sep));
      assert ([sep] + JoinOn(ps[1..], sep))[1..] == JoinOn(ps[1..], sep);
      assert [ps[0]] + ps[1..] == ps;
    } else {
      SplitNoSep(ps[0], sep);
    }
  }

  /** A string without the separator splits into itself alone. */
  lemma {:induction false} SplitNoSep(s: string, sep: char)
    requires sep !in s
    ensures SplitOn(s, sep) == [s]
  {
    if s != [] {
      SplitNoSep(s[1..], sep);
      assert [s[0]] + s[1..] == s;
    }
  }

  /** Splitting `w + rest`, where `w` has no separator and `rest` starts
      with one, yields `w` followed by the pieces of what follows. */
  lemma {:induction false} SplitPrefix(w: string, rest: string, sep: char)
    requires sep !in w
    requires rest != [] && rest[0] == sep
    ensures SplitOn(w + rest, sep) == [w] + SplitOn(rest[1..], sep)
  {
    if w == [] {
      assert w + rest == rest;
    } else {
      SplitPrefix(w[1..], rest, sep);
      assert (w + rest)[1..] == w[1..] + rest;
      assert [w[0]] + w[1..] == w;
    }
  }

  /** Joining the first `k` pieces gives a prefix of joining all of them,
      followed by the separator when pieces remain. */
  lemma {:induction false} JoinPrefix(ps: seq<string>, sep: char, k: nat)
    requires 1 <= k <= |ps|
    ensures JoinOn(ps[..k], sep) <= JoinOn(ps, sep)
    ensures k < |ps| ==>
      |JoinOn(ps[..k], sep)| < |JoinOn(ps, sep)| && JoinOn(ps, sep)[|JoinOn(ps[..k], sep)|] == sep
  {
    if k > 1 {
      JoinPrefix(ps[1..], sep, k - 1);
      assert ps[..k][1..] == ps[1..][..k - 1];
      assert JoinOn(ps[..k], sep) == ps[0] + [sep] + JoinOn(ps[1..][..k - 1], sep);
      assert JoinOn(ps, sep) == ps[0] + [sep] + JoinOn(ps[1..], sep);
    }
  }

  /** A join of separator-free pieces has one separator between each pair. */
  lemma {:induction false} JoinCount(ps: seq<string>, sep: char)
    requires |ps| >= 1
    requires forall i :: 0 <= i < |ps| ==> sep !in ps[i]
    ensures CountOf(JoinOn(ps, sep), sep) == |ps| - 1
  {
    CountOfAbsent(ps[0], sep);
    if |ps| > 1 {
      JoinCount(ps[1..], sep);
      CountOfConcat(ps[0] + [sep], JoinOn(ps[1..], sep), sep);
      CountOfConcat(ps[0], [sep], sep);
    }
  }

  // ---------------------------------------------------------------- numbers

  predicate IsDigit(c: char)
  {
    '0' <= c <= '9'
  }

  predicate AllDigits(s: string)
  {
    forall i :: 0 <= i < |s| ==> IsDigit(s[i])
  }

  function DigitChar(d: nat): (c: char)
    requires d < 10
    ensures IsDigit(c) && c as int - '0' as int == d
  {
    ('0' as int + d) as char
  }

  /** The decimal rendering of a natural number, as `String(n)` gives it. */
  function ShowNat(n: nat): (r: string)
    ensures |r| >= 1 && AllDigits(r)
  {
    if n < 10 then [DigitChar(n)] else ShowNat(n / 10) + [DigitChar(n % 10)]
  }

  /** `String(i)` for an integer, as used when numbers are spliced into text. */
  function ShowInt(i: int): (r: string)
    ensures |r| >= 1
  {
    if i < 0 then "-" + ShowNat(-i) else ShowNat(i)
  }

  /** The value of a string of decimal digits. */
  function DigitsValue(ds: string): nat
    requires AllDigits(ds)
  {
    if ds == [] then 0
    else DigitsValue(ds[..|ds| - 1]) * 10 + (ds[|ds| - 1] as int - '0' as int)
  }

  lemma {:induction false} DigitsValueShowNat(n: nat)
    ensures DigitsValue(ShowNat(n)) == n
  {
    if n >= 10 {
      var r := ShowNat(n);
      assert r[..|r| - 1] == ShowNat(n / 10);
      DigitsValueShowNat(n / 10);
    }
  }

  /** The longest prefix of `s` made of digits. */
  function LeadingDigits(s: string): (r: string)
    ensures r <= s && AllDigits(r)
    ensures |r| == |s| || !IsDigit(s[|r|])
  {
    if s != [] && IsDigit(s[0]) then [s[0]] + LeadingDigits(s[1..]) else []
  }

  /** The value of the digits `parseInt` reads after the sign, if any. */
  function ParseDigits(body: string): Option<nat>
  {
    var ds := LeadingDigits(body);
    if ds == [] then None else Some(DigitsValue(ds))
  }

  /** `parseInt(s)` in base 10: leading white space is skipped, one optional
      sign is read, then the longest run of digits; `None` is `NaN`. */
  function ParseInt(s: string): Option<int>
  {
    var t := TrimStart(s);
    if t != [] && t[0] == '-' then
      match ParseDigits(t[1..])
      case Some(v) => Some(-(v as int))
      case None => None
    else if t != [] && t[0] == '+' then
      match ParseDigits(t[1..])
      case Some(v) => Some(v)
      case None => None
    else
      match ParseDigits(t)
      case Some(v) => Some(v)
      case None => None
  }

  /** `parseInt(s) || 0`: `NaN` (and zero) become 0. */
  function ParseIntOrZero(s: string): int
  {
    match ParseInt(s)
    case Some(v) => v
    case None => 0
  }

  lemma ParseDigitsShowNat(n: nat)
    ensures ParseDigits(ShowNat(n)) == Some(n)
  {
    LeadingDigitsAll(ShowNat(n));
    DigitsValueShowNat(n);
  }

  /** `parseInt` reads back every integer from its decimal rendering. */
  lemma ParseShowInt(i: int)
    ensures ParseInt(ShowInt(i)) == Some(i)
  {
    if i < 0 {
      var ds := ShowNat(-i);
      ParseDigitsShowNat(-i);
      var s := "-" + ds;
      assert s[0] == '-' && s[1..] == ds;
      assert TrimStart(s) == s;
      assert ShowInt(i) == s;
    } else {
      var s := ShowNat(i);
      ParseDigitsShowNat(i);
      assert IsDigit(s[0]);
      assert TrimStart(s) == s;
    }
  }

  /** A string that starts with no digit is read as `NaN`, so as 0 by
      `parseInt(s) || 0`. */
  lemma ParseNoDigits(s: string)
    requires s == [] || (!IsDigit(s[0]) && !IsSpace(s[0]) && s[0] != '-' && s[0] != '+')
    ensures ParseInt(s) == None && ParseIntOrZero(s) == 0
  {
  }

  lemma {:induction false} LeadingDigitsAll(s: string)
    requires AllDigits(s)
    ensures LeadingDigits(s) == s
  {
    if s != [] {
      LeadingDigitsAll(s[1..]);
    }
  }

  /** An optionally negative run of decimal digits: the values a select
      built from integer ids can hold. */
  predicate IsIntLiteral(s: string)
  {
    var body := if s != [] && s[0] == '-' then s[1..] else s;
    body != [] && AllDigits(body)
  }

  lemma ShowIntIsLiteral(i: int)
    ensures IsIntLiteral(ShowInt(i))
  {
    if i < 0 {
      assert ShowInt(i)[1..] == ShowNat(-i);
    }
  }
}
