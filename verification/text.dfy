/**
  * String helpers shared by the model: the JavaScript and Python string
  * operations the handlers use (`indexOf`, `split`, `startsWith`, `endsWith`,
  * `includes`, `replace`, `upper`), written out over `seq<char>`.
  */
module Text {

  /** Index of the first `c` in `s`, or `|s|` when there is none. */
  function IndexOf(s: string, c: char): (i: nat)
    ensures i <= |s|
    ensures forall j :: 0 <= j < i ==> s[j] != c
    ensures i < |s| ==> s[i] == c
  {
    if |s| == 0 then 0
    else if s[0] == c then 0
    else 1 + IndexOf(s[1..], c)
  }

  /** The first-occurrence property determines `IndexOf`. */
  lemma IndexOfUnique(s: string, c: char, k: nat)
    requires k <= |s|
    requires forall j :: 0 <= j < k ==> s[j] != c
    requires k < |s| ==> s[k] == c
    ensures IndexOf(s, c) == k
  {
  }

  /** `IndexOf` stops short of the end only on an occurrence of `c`. */
  lemma IndexOfFound(s: string, c: char)
    ensures IndexOf(s, c) < |s| <==> c in s
  {
    var i := IndexOf(s, c);
    if i < |s| {
      assert s[i] == c;
    }
    if c in s {
      var j :| 0 <= j < |s| && s[j] == c;
      assert i <= j;
    }
  }

  /** `s.split(sep)` for a one-character separator: always at least one piece. */
  function Split(s: string, sep: char): (parts: seq<string>)
    ensures |parts| >= 1
    ensures forall p :: p in parts ==> sep !in p
    decreases |s|
  {
    var k := IndexOf(s, sep);
    if k == |s| then [s]
    else [s[..k]] + Split(s[k + 1..], sep)
  }

  /** `parts.join(sep)`. */
  function Join(parts: seq<string>, sep: char): string
  {
    if |parts| == 0 then ""
    else if |parts| == 1 then parts[0]
    else parts[0] + [sep] + Join(parts[1..], sep)
  }

  /** Joining the pieces of a split gives the string back. */
  lemma {:induction false} JoinSplit(s: string, sep: char)
    ensures Join(Split(s, sep), sep) == s
    decreases |s|
  {
    var k := IndexOf(s, sep);
    if k < |s| {
      var rest := Split(s[k + 1..], sep);
      JoinSplit(s[k + 1..], sep);
      var parts := [s[..k]] + rest;
      assert Split(s, sep) == parts;
      assert parts[1..] == rest;
      assert Join(parts, sep) == s[..k] + [sep] + Join(rest, sep);
      assert s == s[..k] + [sep] + s[k + 1..];
    }
  }

  /** A separator-free head followed by the separator splits off as the first piece. */
  lemma SplitFirst(head: string, sep: char, tail: string)
    requires sep !in head
    ensures Split(head + [sep] + tail, sep) == [head] + Split(tail, sep)
  {
    var s := head + [sep] + tail;
    assert s[..|head|] == head;
    assert s[|head|] == sep;
    assert forall j :: 0 <= j < |head| ==> s[j] == head[j];
    IndexOfUnique(s, sep, |head|);
    assert s[|head| + 1..] == tail;
  }

  /** Splitting a join of separator-free pieces gives the pieces back. */
  lemma {:induction false} SplitJoin(parts: seq<string>, sep: char)
    requires |parts| >= 1
    requires forall p :: p in parts ==> sep !in p
    ensures Split(Join(parts, sep), sep) == parts
    decreases |parts|
  {
    if |parts| > 1 {
      assert parts[0] in parts;
      assert Join(parts, sep) == parts[0] + [sep] + Join(parts[1..], sep);
      SplitFirst(parts[0], sep, Join(parts[1..], sep));
      assert forall p :: p in parts[1..] ==> p in parts;
      SplitJoin(parts[1..], sep);
      assert parts == [parts[0]] + parts[1..];
    } else {
      var p := parts[0];
      assert p in parts;
      assert Join(parts, sep) == p;
      IndexOfFound(p, sep);
      assert Split(p, sep) == [p];
    }
  }

  /** `f` occurs in `s` as a whole field between separators (or the ends). */
  ghost predicate IsField(s: string, sep: char, f: string)
  {
    sep !in f && exists i :: FieldAt(s, sep, f, i)
  }

  /** `f` stands at index `i` of `s`, with a separator or an end on each side. */
  predicate FieldAt(s: string, sep: char, f: string, i: int)
  {
    0 <= i <= |s| - |f| && s[i..i + |f|] == f &&
    (i == 0 || s[i - 1] == sep) &&
    (i + |f| == |s| || s[i + |f|] == sep)
  }

  /** Without a separator the only field is the whole string. */
  lemma NoSeparatorField(s: string, sep: char, f: string)
    requires sep !in s
    ensures IsField(s, sep, f) <==> f == s
  {
    if IsField(s, sep, f) {
      var i :| FieldAt(s, sep, f, i);
      assert i == 0 && i + |f| == |s|;
      assert f == s[..];
    }
    if f == s {
      var i := 0;
      assert s[i..i + |f|] == f;
      assert FieldAt(s, sep, f, i);
    }
  }

  /** A field of the text after the first separator is a field of the whole. */
  lemma FieldOfRest(s: string, sep: char, f: string, k: nat)
    requires k < |s| && s[k] == sep
    requires IsField(s[k + 1..], sep, f)
    ensures IsField(s, sep, f)
  {
    var rest := s[k + 1..];
    var i :| FieldAt(rest, sep, f, i);
    var j := i + k + 1;
    assert s[j..j + |f|] == rest[i..i + |f|];
    assert j + |f| < |s| ==> s[j + |f|] == rest[i + |f|];
    assert s[j - 1] == sep by {
      if i > 0 { assert s[j - 1] == rest[i - 1]; }
    }
    assert FieldAt(s, sep, f, j);
  }

  /** A field that starts after position `k` is still a field once `s[..k + 1]` is dropped. */
  lemma FieldShift(s: string, sep: char, f: string, k: nat, i: nat)
    requires k < i && FieldAt(s, sep, f, i)
    ensures FieldAt(s[k + 1..], sep, f, i - k - 1)
  {
    var rest := s[k + 1..];
    var j := i - k - 1;
    assert rest[j..j + |f|] == s[i..i + |f|];
    if j > 0 {
      assert rest[j - 1] == s[i - 1];
    }
    if j + |f| < |rest| {
      assert rest[j + |f|] == s[i + |f|];
    }
  }

  /** A field that does not start the string lies after the first separator. */
  lemma FieldInRest(s: string, sep: char, f: string, k: nat, i: nat)
    requires k == IndexOf(s, sep) && k < |s|
    requires sep !in f
    requires FieldAt(s, sep, f, i) && i > 0
    ensures IsField(s[k + 1..], sep, f)
  {
    assert s[i - 1] == sep;
    assert k <= i - 1;
    FieldShift(s, sep, f, k, i);
  }

  /** A field that starts the string is the first piece. */
  lemma FieldAtStart(s: string, sep: char, f: string, k: nat)
    requires k == IndexOf(s, sep)
    requires sep !in f
    requires |f| <= |s| && s[..|f|] == f
    requires |f| == |s| || s[|f|] == sep
    ensures f == s[..k]
  {
    IndexOfUnique(s, sep, |f|);
  }

  /** Every piece of a split is a whole field of the string. */
  lemma {:induction false} PieceIsField(s: string, sep: char, f: string)
    requires f in Split(s, sep)
    ensures IsField(s, sep, f)
    decreases |s|
  {
    var k := IndexOf(s, sep);
    if k == |s| {
      NoSeparatorField(s, sep, f);
    } else {
      var rest := s[k + 1..];
      assert Split(s, sep) == [s[..k]] + Split(rest, sep);
      if f == s[..k] {
        var i := 0;
        assert s[i..i + |f|] == f;
        assert FieldAt(s, sep, f, i);
      } else {
        PieceIsField(rest, sep, f);
        FieldOfRest(s, sep, f, k);
      }
    }
  }

  /** Every whole field of the string is a piece of its split. */
  lemma {:induction false} FieldIsPiece(s: string, sep: char, f: string)
    requires IsField(s, sep, f)
    ensures f in Split(s, sep)
    decreases |s|
  {
    var k := IndexOf(s, sep);
    if k == |s| {
      NoSeparatorField(s, sep, f);
    } else {
      var rest := s[k + 1..];
      assert Split(s, sep) == [s[..k]] + Split(rest, sep);
      var i :| FieldAt(s, sep, f, i);
      if i == 0 {
        assert s[..|f|] == s[i..i + |f|];
        FieldAtStart(s, sep, f, k);
      } else {
        FieldInRest(s, sep, f, k, i);
        FieldIsPiece(rest, sep, f);
      }
    }
  }

  /** List membership after a split is exactly whole-field occurrence. */
  lemma SplitMembership(s: string, sep: char, f: string)
    ensures f in Split(s, sep) <==> IsField(s, sep, f)
  {
    if f in Split(s, sep) { PieceIsField(s, sep, f); }
    if IsField(s, sep, f) { FieldIsPiece(s, sep, f); }
  }

  /** `s.startsWith(p)`. */
  predicate StartsWith(s: string, p: string)
  {
    |p| <= |s| && s[..|p|] == p
  }

  /** `s.endsWith(p)`. */
  predicate EndsWith(s: string, p: string)
  {
    |p| <= |s| && s[|s| - |p|..] == p
  }

  /** `s.includes(sub)` / Python's `sub in s`. */
  predicate Contains(s: string, sub: string)
    decreases |s|
  {
    StartsWith(s, sub) || (|s| > 0 && Contains(s[1..], sub))
  }

  /** Nothing longer than a string stands inside it. */
  lemma {:induction false} ContainsLength(s: string, sub: string)
    requires Contains(s, sub)
    ensures |sub| <= |s|
    decreases |s|
  {
    if !StartsWith(s, sub) {
      ContainsLength(s[1..], sub);
    }
  }

  /** A string contains whatever stands inside it. */
  lemma {:induction false} ContainsMiddle(a: string, sub: string, b: string)
    ensures Contains(a + sub + b, sub)
    decreases |a|
  {
    if |a| == 0 {
      assert a + sub + b == sub + b;
      assert (sub + b)[..|sub|] == sub;
    } else {
      assert (a + sub + b)[1..] == a[1..] + sub + b;
      ContainsMiddle(a[1..], sub, b);
    }
  }

  /** `s.replace(c, d)` with a one-character string pattern: the first occurrence only. */
  function ReplaceFirst(s: string, c: char, d: char): (r: string)
    ensures |r| == |s|
    ensures forall j :: 0 <= j < |s| ==> r[j] == (if j == IndexOf(s, c) then d else s[j])
  {
    var k := IndexOf(s, c);
    if k == |s| then s else s[..k] + [d] + s[k + 1..]
  }

  /** `s.replace(/c/g, d)`: every occurrence. */
  function ReplaceAll(s: string, c: char, d: char): (r: string)
    ensures |r| == |s|
    ensures forall j :: 0 <= j < |s| ==> r[j] == (if s[j] == c then d else s[j])
  {
    if |s| == 0 then ""
    else [if s[0] == c then d else s[0]] + ReplaceAll(s[1..], c, d)
  }

  /** `s.split(c)[0]`: the part before the first `c`. */
  function FirstPiece(s: string, c: char): (r: string)
    ensures r == s[..IndexOf(s, c)]
  {
    Split(s, c)[0]
  }

  predicate IsDigit(c: char)
  {
    '0' <= c <= '9'
  }

  predicate AllDigits(s: string)
  {
    forall i :: 0 <= i < |s| ==> IsDigit(s[i])
  }

  /** The number a string of decimal digits denotes. */
  function DigitsValue(s: string): nat
    requires AllDigits(s)
  {
    if |s| == 0 then 0
    else 10 * DigitsValue(s[..|s| - 1]) + (s[|s| - 1] - '0') as nat
  }

  /** Decimal rendering of a natural number, as `String(n)` does. */
  function NatToString(n: nat): (r: string)
    ensures |r| >= 1 && AllDigits(r)
    decreases n
  {
    if n < 10 then [('0' as int + n) as char]
    else NatToString(n / 10) + [('0' as int + n % 10) as char]
  }

  /** Rendering and reading decimal digits are inverse. */
  lemma {:induction false} DigitsValueOfNatToString(n: nat)
    ensures DigitsValue(NatToString(n)) == n
    decreases n
  {
    if n >= 10 {
      var s := NatToString(n);
      assert s[..|s| - 1] == NatToString(n / 10);
      DigitsValueOfNatToString(n / 10);
    }
  }

  /** Decimal rendering of an integer, with a leading `-` when negative. */
  function IntToString(n: int): string
  {
    if n < 0 then "-" + NatToString(-n) else NatToString(n)
  }

  /** `c * n` in Python, `c.repeat(n)` in JavaScript. */
  function Repeat(c: char, n: nat): (r: string)
    ensures |r| == n
    ensures forall i :: 0 <= i < n ==> r[i] == c
  {
    if n == 0 then "" else [c] + Repeat(c, n - 1)
  }

  /** ASCII upper case (the model does not fold non-ASCII letters). */
  function Upper(s: string): (r: string)
    ensures |r| == |s|
    ensures forall i :: 0 <= i < |s| ==>
      r[i] == if 'a' <= s[i] <= 'z' then (s[i] as int - 32) as char else s[i]
  {
    if |s| == 0 then ""
    else [if 'a' <= s[0] <= 'z' then (s[0] as int - 32) as char else s[0]] + Upper(s[1..])
  }

  /** Upper-casing works character by character, so it distributes over concatenation. */
  lemma {:induction false} UpperConcat(a: string, b: string)
    ensures Upper(a + b) == Upper(a) + Upper(b)
    decreases |a|
  {
    if a == [] {
      assert a + b == b;
    } else {
      assert (a + b)[1..] == a[1..] + b;
      UpperConcat(a[1..], b);
    }
  }

  /** Code-point order on strings, the order Python's `sorted` uses. */
  predicate Below(a: string, b: string)
    decreases |a|
  {
    if |a| == 0 then |b| > 0
    else if |b| == 0 then false
    else if a[0] != b[0] then a[0] < b[0]
    else Below(a[1..], b[1..])
  }

  lemma {:induction false} BelowIrreflexive(a: string)
    ensures !Below(a, a)
    decreases |a|
  {
    if |a| > 0 { BelowIrreflexive(a[1..]); }
  }

  lemma {:induction false} BelowTransitive(a: string, b: string, c: string)
    requires Below(a, b) && Below(b, c)
    ensures Below(a, c)
    decreases |a|
  {
    if |a| > 0 && |b| > 0 && |c| > 0 && a[0] == b[0] && b[0] == c[0] {
      BelowTransitive(a[1..], b[1..], c[1..]);
    }
  }

  lemma {:induction false} BelowTotal(a: string, b: string)
    requires a != b
    ensures Below(a, b) || Below(b, a)
    decreases |a|
  {
    if |a| > 0 && |b| > 0 && a[0] == b[0] {
      assert a == [a[0]] + a[1..] && b == [b[0]] + b[1..];
      BelowTotal(a[1..], b[1..]);
    }
  }
}
