/**
 * The order in which the storage engine lists records: ascending by primary
 * key, every number before every string, numbers by value and strings by
 * their UTF-16 code units, a proper prefix before its extensions.
 */
module KeyOrder {
  import opened Values

  /**
   * The UTF-16 encoding of one character: the character itself below
   * U+10000, otherwise a high surrogate followed by a low surrogate.
   */
  function Utf16(c: char): (u: seq<int>)
    ensures |u| == 1 <==> (c as int) < 0x1_0000
    ensures |u| == 1 || |u| == 2
    ensures |u| == 1 ==> u[0] == c as int && !(0xD800 <= u[0] < 0xDC00)
    ensures |u| == 2 ==> 0xD800 <= u[0] < 0xDC00 && 0xDC00 <= u[1] < 0xE000
  {
    var v := c as int;
    if v < 0x1_0000 then [v]
    else [0xD800 + (v - 0x1_0000) / 0x400, 0xDC00 + (v - 0x1_0000) % 0x400]
  }

  /** Two characters with the same encoding are the same character. */
  lemma Utf16Injective(a: char, b: char)
    requires Utf16(a) == Utf16(b)
    ensures a == b
  {
    var u := Utf16(a);
    if |u| == 2 {
      var x, y := a as int - 0x1_0000, b as int - 0x1_0000;
      assert x == (x / 0x400) * 0x400 + x % 0x400;
      assert y == (y / 0x400) * 0x400 + y % 0x400;
    }
  }

  /** The UTF-16 code units of a string, in order. */
  function CodeUnits(s: string): (u: seq<int>)
    ensures |u| >= |s|
  {
    if s == [] then [] else Utf16(s[0]) + CodeUnits(s[1..])
  }

  /** Distinct strings have distinct encodings. */
  lemma {:induction false} CodeUnitsInjective(a: string, b: string)
    requires CodeUnits(a) == CodeUnits(b)
    ensures a == b
  {
    if a != [] && b != [] {
      var ua, ub := Utf16(a[0]), Utf16(b[0]);
      assert CodeUnits(a)[0] == ua[0] && CodeUnits(b)[0] == ub[0];
      assert |ua| == |ub|;
      assert ua == CodeUnits(a)[..|ua|] && ub == CodeUnits(b)[..|ub|];
      Utf16Injective(a[0], b[0]);
      assert CodeUnits(a[1..]) == CodeUnits(a)[|ua|..] && CodeUnits(b[1..]) == CodeUnits(b)[|ub|..];
      CodeUnitsInjective(a[1..], b[1..]);
      assert a == [a[0]] + a[1..] && b == [b[0]] + b[1..];
    }
  }

  /** Lexicographic order on code-unit sequences; a proper prefix comes first. */
  predicate UnitsLess(a: seq<int>, b: seq<int>) {
    if a == [] then b != []
    else if b == [] then false
    else a[0] < b[0] || (a[0] == b[0] && UnitsLess(a[1..], b[1..]))
  }

  /** The engine's string comparison: lexicographic on UTF-16 code units. */
  predicate StrLess(a: string, b: string) {
    UnitsLess(CodeUnits(a), CodeUnits(b))
  }

  /** The engine's key comparison restricted to the key kinds modelled. */
  predicate KeyLess(a: Value, b: Value) {
    match (a, b)
    case (Num(x), Num(y)) => x < y
    case (Num(_), Str(_)) => true
    case (Str(s), Str(t)) => StrLess(s, t)
    case _ => false
  }

  lemma {:induction false} UnitsLessIrreflexive(a: seq<int>)
    ensures !UnitsLess(a, a)
  {
    if a != [] {
      UnitsLessIrreflexive(a[1..]);
    }
  }

  lemma {:induction false} UnitsLessTransitive(a: seq<int>, b: seq<int>, c: seq<int>)
    requires UnitsLess(a, b) && UnitsLess(b, c)
    ensures UnitsLess(a, c)
  {
    if a != [] && b != [] && c != [] && a[0] == b[0] && b[0] == c[0] {
      UnitsLessTransitive(a[1..], b[1..], c[1..]);
    }
  }

  lemma {:induction false} UnitsLessTotal(a: seq<int>, b: seq<int>)
    requires a != b
    ensures UnitsLess(a, b) || UnitsLess(b, a)
  {
    if a != [] && b != [] && a[0] == b[0] {
      assert a == [a[0]] + a[1..] && b == [b[0]] + b[1..];
      UnitsLessTotal(a[1..], b[1..]);
    }
  }

  /**
   * Code-unit order is not code-point order: U+10000 is encoded from the
   * surrogate 0xD800 and so sorts before U+FFFF.
   */
  lemma SupplementaryBeforeHighBmp()
    ensures StrLess("\U{10000}", "\U{FFFF}") && !StrLess("\U{FFFF}", "\U{10000}")
  {
    assert CodeUnits("\U{10000}") == [0xD800, 0xDC00];
    assert CodeUnits("\U{FFFF}") == [0xFFFF];
  }

  /** Key order is a strict total order on the values that may serve as keys. */
  lemma KeyLessStrictTotal(a: Value, b: Value, c: Value)
    requires IsKey(a) && IsKey(b) && IsKey(c)
    ensures !KeyLess(a, a)
    ensures KeyLess(a, b) && KeyLess(b, c) ==> KeyLess(a, c)
    ensures a != b ==> KeyLess(a, b) || KeyLess(b, a)
  {
    if a.Str? {
      UnitsLessIrreflexive(CodeUnits(a.s));
    }
    if a.Str? && b.Str? && c.Str? && KeyLess(a, b) && KeyLess(b, c) {
      UnitsLessTransitive(CodeUnits(a.s), CodeUnits(b.s), CodeUnits(c.s));
    }
    if a.Str? && b.Str? && a != b {
      if CodeUnits(a.s) == CodeUnits(b.s) {
        CodeUnitsInjective(a.s, b.s);
      }
      UnitsLessTotal(CodeUnits(a.s), CodeUnits(b.s));
    }
  }

  predicate IsMin(m: Value, keys: set<Value>) {
    m in keys && forall k :: k in keys ==> !KeyLess(k, m)
  }

  lemma {:induction false} MinExists(keys: set<Value>)
    requires keys != {} && forall k :: k in keys ==> IsKey(k)
    ensures exists m :: IsMin(m, keys)
    decreases |keys|
  {
    var x :| x in keys;
    if keys != {x} {
      var rest := keys - {x};
      MinExists(rest);
      var m :| IsMin(m, rest);
      if KeyLess(x, m) {
        forall k | k in keys
          ensures !KeyLess(k, x)
        {
          KeyLessStrictTotal(k, x, m);
          KeyLessStrictTotal(x, x, x);
        }
        assert IsMin(x, keys);
      } else {
        assert IsMin(m, keys);
      }
    } else {
      KeyLessStrictTotal(x, x, x);
      assert IsMin(x, keys);
    }
  }

  lemma MinUnique(keys: set<Value>, m1: Value, m2: Value)
    requires forall k :: k in keys ==> IsKey(k)
    requires IsMin(m1, keys) && IsMin(m2, keys)
    ensures m1 == m2
  {
    KeyLessStrictTotal(m1, m2, m2);
  }

  /** The smallest key of a non-empty set of keys. */
  function MinKey(keys: set<Value>): (m: Value)
    requires keys != {} && forall k :: k in keys ==> IsKey(k)
    ensures IsMin(m, keys)
  {
    MinExists(keys);
    assert forall m1, m2 :: IsMin(m1, keys) && IsMin(m2, keys) ==> m1 == m2 by {
      forall m1, m2 | IsMin(m1, keys) && IsMin(m2, keys)
        ensures m1 == m2
      {
        MinUnique(keys, m1, m2);
      }
    }
    var m :| IsMin(m, keys);
    m
  }

  /** The keys of a set in strictly ascending key order, each once. */
  function SortedKeys(keys: set<Value>): (s: seq<Value>)
    requires forall k :: k in keys ==> IsKey(k)
    ensures |s| == |keys|
    ensures forall k :: k in s <==> k in keys
    ensures forall i, j :: 0 <= i < j < |s| ==> KeyLess(s[i], s[j])
    decreases |keys|
  {
    if keys == {} then []
    else
      var m := MinKey(keys);
      var rest := SortedKeys(keys - {m});
      assert forall k :: k in rest ==> KeyLess(m, k) by {
        forall k | k in rest
          ensures KeyLess(m, k)
        {
          KeyLessStrictTotal(m, k, k);
        }
      }
      [m] + rest
  }

  /** Listing a table keyed by U+FFFF and U+10000 puts U+10000 first. */
  lemma SortedSupplementaryFirst()
    ensures SortedKeys({Str("\U{FFFF}"), Str("\U{10000}")}) == [Str("\U{10000}"), Str("\U{FFFF}")]
  {
    var s := SortedKeys({Str("\U{FFFF}"), Str("\U{10000}")});
    SupplementaryBeforeHighBmp();
    assert |s| == 2;
    assert s[0] in {Str("\U{FFFF}"), Str("\U{10000}")} && s[1] in {Str("\U{FFFF}"), Str("\U{10000}")};
    assert KeyLess(s[0], s[1]);
  }
}
