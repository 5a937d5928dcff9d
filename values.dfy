/**
 * The JSON-like values that the portal stores, and the sequence filter
 * that the graph store and the navigation menu both use.
 */
module Values {

  datatype Option<+T> = None | Some(value: T)

  /** A stored field value. Numbers are integers here (epoch milliseconds, amounts). */
  datatype Value = Str(s: string) | Num(n: int) | Bool(b: bool) | Null

  /** An opaque record: a mapping from field name to value. */
  type Record = map<string, Value>

  /** The values the storage engine accepts as a primary key: strings and numbers. */
  predicate IsKey(v: Value) {
    v.Str? || v.Num?
  }

  /** The field `f` of record `r`, absent (JavaScript's `undefined`) when `r` has no such field. */
  function Field(r: Record, f: string): (v: Option<Value>)
    ensures v.Some? <==> f in r
    ensures v.Some? ==> v.value == r[f]
  {
    if f in r then Some(r[f]) else None
  }

  /** `s.filter(p)`: the elements of `s` that satisfy `p`, in their order in `s`. */
  function Filter<T>(s: seq<T>, p: T -> bool): (r: seq<T>)
    ensures |r| <= |s|
  {
    if s == [] then []
    else if p(s[0]) then [s[0]] + Filter(s[1..], p)
    else Filter(s[1..], p)
  }

  /** The filter keeps exactly the elements of `s` that satisfy `p`. */
  lemma {:induction false} FilterMembers<T>(s: seq<T>, p: T -> bool, x: T)
    ensures x in Filter(s, p) <==> x in s && p(x)
  {
    if s != [] {
      FilterMembers(s[1..], p, x);
      assert s == [s[0]] + s[1..];
    }
  }

  /** The number of elements of `s` that satisfy `p`. */
  function Count<T>(s: seq<T>, p: T -> bool): nat {
    if s == [] then 0 else (if p(s[0]) then 1 else 0) + Count(s[1..], p)
  }

  /** Filtering distributes over concatenation: the kept elements stay in their original order. */
  lemma {:induction false} FilterAppend<T>(a: seq<T>, b: seq<T>, p: T -> bool)
    ensures Filter(a + b, p) == Filter(a, p) + Filter(b, p)
  {
    if a == [] {
      assert a + b == b;
    } else {
      assert (a + b)[1..] == a[1..] + b;
      FilterAppend(a[1..], b, p);
    }
  }

  /** A filter keeps exactly as many elements as satisfy the predicate. */
  lemma {:induction false} FilterLength<T>(s: seq<T>, p: T -> bool)
    ensures |Filter(s, p)| == Count(s, p)
  {
    if s != [] {
      FilterLength(s[1..], p);
    }
  }

  /** Appending one element extends the filter by that element exactly when it satisfies `p`. */
  lemma FilterSnoc<T>(s: seq<T>, x: T, p: T -> bool)
    ensures Filter(s + [x], p) == if p(x) then Filter(s, p) + [x] else Filter(s, p)
  {
    FilterAppend(s, [x], p);
    assert Filter([x], p) == if p(x) then [x] else [];
  }

  lemma {:induction false} FilterNone<T>(s: seq<T>, p: T -> bool)
    requires forall i :: 0 <= i < |s| ==> !p(s[i])
    ensures Filter(s, p) == []
  {
    if s != [] {
      FilterNone(s[1..], p);
    }
  }

  lemma {:induction false} FilterAll<T>(s: seq<T>, p: T -> bool)
    requires forall i :: 0 <= i < |s| ==> p(s[i])
    ensures Filter(s, p) == s
  {
    if s != [] {
      FilterAll(s[1..], p);
    }
  }

  lemma {:induction false} FilterSamePredicate<T>(s: seq<T>, p: T -> bool, q: T -> bool)
    requires forall x :: p(x) == q(x)
    ensures Filter(s, p) == Filter(s, q)
  {
    if s != [] {
      FilterSamePredicate(s[1..], p, q);
    }
  }

  /** Filtering a prefix one element longer keeps that element exactly when it satisfies `p`. */
  lemma FilterPrefixStep<T>(s: seq<T>, p: T -> bool, k: nat)
    requires k < |s|
    ensures Filter(s[..k + 1], p) == Filter(s[..k], p) + (if p(s[k]) then [s[k]] else [])
  {
    assert s[..k + 1] == s[..k] + [s[k]];
    FilterSnoc(s[..k], s[k], p);
  }
}
