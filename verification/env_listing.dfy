/**
  * The environment listing of `analysis/notebooks/example.py`: variables in
  * ascending key order, with the values of sensitive-looking keys masked.
  */
module EnvListing {
  import opened Text

  /** A key is sensitive when its upper-cased form contains KEY, SECRET, PASSWORD or TOKEN. */
  predicate IsSensitive(key: string)
    ensures IsSensitive(key) ==> |key| >= 3
  {
    var k := Upper(key);
    if Contains(k, "KEY") then ContainsLength(k, "KEY"); true
    else if Contains(k, "SECRET") then ContainsLength(k, "SECRET"); true
    else if Contains(k, "PASSWORD") then ContainsLength(k, "PASSWORD"); true
    else if Contains(k, "TOKEN") then ContainsLength(k, "TOKEN"); true
    else false
  }

  /** A marker spelled in any case anywhere in a key makes it sensitive. */
  lemma MarkerInAnyCase(a: string, marker: string, b: string)
    requires Upper(marker) in {"KEY", "SECRET", "PASSWORD", "TOKEN"}
    ensures IsSensitive(a + marker + b)
  {
    UpperConcat(a, marker);
    UpperConcat(a + marker, b);
    ContainsMiddle(Upper(a), Upper(marker), Upper(b));
    assert Contains(Upper(a + marker + b), Upper(marker));
  }

  function Min(a: int, b: int): int { if a <= b then a else b }
  function Max(a: int, b: int): int { if a >= b then a else b }

  /** How many leading characters of a sensitive value stay visible: 30% of it, at least 3, at most 10. */
  function VisibleLength(n: nat): (v: nat)
    ensures 3 <= v <= 10
    ensures n >= 10 ==> v * 10 <= 3 * n
    ensures n <= 9 ==> v == 3
  {
    Min(10, Max(3, 3 * n / 10))
  }

  /** The masked form: the visible prefix, `...`, and one `*` per hidden character; short values are shown whole. */
  function Mask(value: string): (r: string)
    ensures |value| <= 3 ==> r == value
    ensures |value| >= 4 ==> |r| == |value| + 3
    ensures |value| >= 4 ==> var v := VisibleLength(|value|);
      v < |value| && r[..v] == value[..v] && r[v..v + 3] == "..." &&
      forall i :: v + 3 <= i < |r| ==> r[i] == '*'
  {
    var v := VisibleLength(|value|);
    if v < |value| then
      var r := value[..v] + "..." + Repeat('*', |value| - v);
      assert r[..v] == value[..v];
      assert r[v..v + 3] == "...";
      assert forall i :: v + 3 <= i < |r| ==> r[i] == Repeat('*', |value| - v)[i - v - 3];
      r
    else value
  }

  /** A masked value reveals at most ten of the original characters, and never more than 30% of a long one. */
  lemma {:induction false} MaskReveals(value: string)
    requires |value| >= 4
    ensures var v := VisibleLength(|value|);
      v <= 10 && (|value| >= 10 ==> v * 10 <= 3 * |value|) &&
      multiset(Mask(value)) == multiset(value[..v]) + multiset("...") + multiset(Repeat('*', |value| - v))
  {
    var v := VisibleLength(|value|);
    assert Mask(value) == value[..v] + "..." + Repeat('*', |value| - v);
  }

  /** The value shown for a key. */
  function Shown(key: string, value: string): (r: string)
    ensures !IsSensitive(key) ==> r == value
    ensures IsSensitive(key) ==> r == Mask(value)
  {
    if IsSensitive(key) then Mask(value) else value
  }

  /** One printed line: `- <key>: <shown value>`. */
  function Line(key: string, value: string): (line: string)
    ensures !IsSensitive(key) ==> line == "- " + key + ": " + value
    ensures IsSensitive(key) ==> line == "- " + key + ": " + Mask(value)
  {
    "- " + key + ": " + Shown(key, value)
  }

  /** Strictly ascending in code-point order. */
  predicate Ascending(keys: seq<string>)
  {
    forall i, j :: 0 <= i < j < |keys| ==> Below(keys[i], keys[j])
  }

  /** The smallest key of a non-empty set. */
  method MinKey(s: set<string>) returns (m: string)
    requires s != {}
    ensures m in s
    ensures forall x :: x in s && x != m ==> Below(m, x)
  {
    m :| m in s;
    var rest := s - {m};
    while rest != {}
      invariant rest <= s && m in s && m !in rest
      invariant forall x :: x in s && x !in rest && x != m ==> Below(m, x)
      decreases |rest|
    {
      var x :| x in rest;
      if Below(x, m) {
        forall y | y in s && y !in rest && y != x
          ensures Below(x, y)
        {
          if y != m {
            BelowTransitive(x, m, y);
          }
        }
        m := x;
      } else {
        BelowTotal(m, x);
      }
      rest := rest - {x};
    }
  }

  /** `sorted(keys)`, by repeatedly taking the smallest remaining key. */
  method SortKeys(s: set<string>) returns (keys: seq<string>)
    ensures Ascending(keys)
    ensures forall k :: k in keys <==> k in s
  {
    keys := [];
    var remaining := s;
    while remaining != {}
      invariant remaining <= s
      invariant forall k :: k in s <==> (k in remaining || k in keys)
      invariant forall k :: k in keys ==> k !in remaining
      invariant Ascending(keys)
      invariant forall i, r :: 0 <= i < |keys| && r in remaining ==> Below(keys[i], r)
      decreases |remaining|
    {
      var m := MinKey(remaining);
      keys := keys + [m];
      remaining := remaining - {m};
    }
  }

  lemma FirstIsMember(b: seq<string>)
    ensures |b| > 0 ==> b[0] in b
  {
  }

  /** There is one ascending enumeration of a set of keys: the listing order is fully determined. */
  lemma {:induction false} AscendingUnique(a: seq<string>, b: seq<string>)
    requires Ascending(a) && Ascending(b)
    requires forall k :: k in a <==> k in b
    ensures a == b
    decreases |a|
  {
    if |a| == 0 {
      if |b| > 0 {
        FirstIsMember(b);
        assert false;
      }
    } else {
      assert a[0] in a;
      assert |b| > 0;
      if a[0] != b[0] {
        assert b[0] in b;
        var i :| 0 <= i < |a| && a[i] == b[0];
        var j :| 0 <= j < |b| && b[j] == a[0];
        assert i > 0 && j > 0;
        assert Below(a[0], b[0]) && Below(b[0], a[0]);
        BelowTransitive(a[0], b[0], a[0]);
        BelowIrreflexive(a[0]);
      }
      forall k ensures k in a[1..] <==> k in b[1..] {
        if k in a[1..] {
          var i :| 1 <= i < |a| && a[i] == k;
          assert Below(a[0], k);
          if k == b[0] {
            BelowIrreflexive(k);
          }
          assert k in b;
          var j :| 0 <= j < |b| && b[j] == k;
          assert b[1..][j - 1] == k;
        }
        if k in b[1..] {
          var j :| 1 <= j < |b| && b[j] == k;
          assert Below(b[0], k);
          if k == a[0] {
            BelowIrreflexive(k);
          }
          assert k in a;
          var i :| 0 <= i < |a| && a[i] == k;
          assert a[1..][i - 1] == k;
        }
      }
      AscendingUnique(a[1..], b[1..]);
    }
  }

  /** The listing loop: one line per variable, in ascending key order. */
  method ListVariables(env: map<string, string>) returns (keys: seq<string>, lines: seq<string>)
    ensures Ascending(keys)
    ensures forall k :: k in keys <==> k in env
    ensures |lines| == |keys|
    ensures forall i :: 0 <= i < |keys| ==> lines[i] == Line(keys[i], env[keys[i]])
  {
    keys := SortKeys(env.Keys);
    lines := [];
    for n := 0 to |keys|
      invariant |lines| == n
      invariant forall i :: 0 <= i < n ==> lines[i] == Line(keys[i], env[keys[i]])
    {
      var line := Line(keys[n], env[keys[n]]);
      assert (lines + [line])[..n] == lines;
      lines := lines + [line];
    }
  }
}
