/**
 * The two Ruby Array operators the gem builds every field list with:
 * `a | b` (ordered union without duplicates) and `a - b` (order-keeping
 * removal of every occurrence), together with the algebra the grant builders
 * and the role merge rely on.
 */
module RubyArray {

  /** No element occurs twice. */
  ghost predicate NoDup<T(!new)>(s: seq<T>)
  {
    forall x :: multiset(s)[x] <= 1
  }

  lemma AppendAssoc<T>(a: seq<T>, b: seq<T>, c: seq<T>)
    ensures a + (b + c) == (a + b) + c
  {
  }

  /** Splitting a duplicate-free list into its last element and the rest. */
  lemma NoDupInit<T(!new)>(s: seq<T>)
    requires NoDup(s) && s != []
    ensures NoDup(s[..|s| - 1]) && s[|s| - 1] !in s[..|s| - 1]
  {
    var init := s[..|s| - 1];
    var y := s[|s| - 1];
    assert init + [y] == s;
    assert multiset(s) == multiset(init) + multiset{y};
    forall x ensures multiset(init)[x] <= 1 {
      assert multiset(init)[x] <= multiset(s)[x];
    }
    assert multiset(s)[y] == multiset(init)[y] + 1;
  }

  lemma NoDupSnoc<T(!new)>(s: seq<T>, y: T)
    requires NoDup(s) && y !in s
    ensures NoDup(s + [y])
  {
    assert multiset(s + [y]) == multiset(s) + multiset{y};
    assert multiset(s)[y] == 0;
  }

  /** `s.uniq`: the first occurrence of every element, in order of first appearance. */
  function Dedup<T(==,!new)>(s: seq<T>): (r: seq<T>)
    ensures forall x {:trigger x in r} :: x in r <==> x in s
    ensures |r| <= |s|
  {
    if s == [] then []
    else
      var d := Dedup(s[..|s| - 1]);
      assert forall i :: 0 <= i < |d| ==> d[i] in d;
      if s[|s| - 1] in d then d else d + [s[|s| - 1]]
  }

  /** `uniq` repeats nothing. */
  lemma {:induction false} DedupNoDup<T(!new)>(s: seq<T>)
    ensures NoDup(Dedup(s))
  {
    if s != [] {
      var init := s[..|s| - 1];
      DedupNoDup(init);
      if s[|s| - 1] !in Dedup(init) {
        NoDupSnoc(Dedup(init), s[|s| - 1]);
      }
    }
  }

  /** Ruby `a | b`. */
  function Union<T(==,!new)>(a: seq<T>, b: seq<T>): (r: seq<T>)
    ensures forall x {:trigger x in r} :: x in r <==> x in a || x in b
  {
    Dedup(a + b)
  }

  /** Ruby `a - b`: every element of `a` that does not occur in `b`, in the order of `a`. */
  function Minus<T(==,!new)>(a: seq<T>, b: seq<T>): (r: seq<T>)
    ensures forall x {:trigger x in r} :: x in r <==> x in a && x !in b
    ensures |r| <= |a|
  {
    if a == [] then []
    else
      var last := a[|a| - 1];
      assert forall x :: x in a[..|a| - 1] ==> x in a;
      Minus(a[..|a| - 1], b) + (if last in b then [] else [last])
  }

  /** Removing elements from a duplicate-free list leaves it duplicate-free. */
  lemma {:induction false} MinusNoDup<T(!new)>(a: seq<T>, b: seq<T>)
    requires NoDup(a)
    ensures NoDup(Minus(a, b))
  {
    if a != [] {
      var init := a[..|a| - 1];
      NoDupInit(a);
      MinusNoDup(init, b);
      var m := Minus(init, b);
      assert a[|a| - 1] !in m;
      if a[|a| - 1] !in b {
        NoDupSnoc(m, a[|a| - 1]);
      } else {
        assert m + [] == m;
      }
    }
  }

  /** With nothing to remove, `a - []` is `a` itself, duplicates included. */
  lemma {:induction false} MinusNothing<T(!new)>(a: seq<T>)
    ensures Minus(a, []) == a
  {
    if a != [] {
      MinusNothing(a[..|a| - 1]);
      assert a[..|a| - 1] + [a[|a| - 1]] == a;
    }
  }

  /** Removing a superset of `a` leaves nothing. */
  lemma {:induction false} MinusCovered<T(!new)>(a: seq<T>, b: seq<T>)
    requires forall x :: x in a ==> x in b
    ensures Minus(a, b) == []
  {
    if a != [] {
      MinusCovered(a[..|a| - 1], b);
    }
  }

  lemma {:induction false} MinusAppend<T(!new)>(a: seq<T>, c: seq<T>, b: seq<T>)
    ensures Minus(a + c, b) == Minus(a, b) + Minus(c, b)
    decreases |c|
  {
    if c == [] {
      assert a + c == a;
    } else {
      var init := c[..|c| - 1];
      MinusAppend(a, init, b);
      assert (a + c)[..|a + c| - 1] == a + init;
    }
  }

  /** A duplicate-free list is its own `uniq`. */
  lemma {:induction false} DedupOfNoDup<T(!new)>(s: seq<T>)
    requires NoDup(s)
    ensures Dedup(s) == s
  {
    if s != [] {
      var init := s[..|s| - 1];
      NoDupInit(s);
      DedupOfNoDup(init);
      assert init + [s[|s| - 1]] == s;
    }
  }

  /** `uniq` may be applied early: only first occurrences matter. */
  lemma {:induction false} DedupAppend<T(!new)>(s: seq<T>, t: seq<T>)
    ensures Dedup(Dedup(s) + t) == Dedup(s + t)
    decreases |t|
  {
    if t == [] {
      assert Dedup(s) + t == Dedup(s);
      assert s + t == s;
      DedupNoDup(s);
      DedupOfNoDup(Dedup(s));
    } else {
      var init := t[..|t| - 1];
      var y := t[|t| - 1];
      DedupAppend(s, init);
      assert t == init + [y];
      AppendAssoc(Dedup(s), init, [y]);
      AppendAssoc(s, init, [y]);
      DedupSnoc(Dedup(s) + init, y);
      DedupSnoc(s + init, y);
    }
  }

  /** Ruby `uniq` of a list extended by one element. */
  lemma DedupSnoc<T(!new)>(s: seq<T>, y: T)
    ensures Dedup(s + [y]) == if y in Dedup(s) then Dedup(s) else Dedup(s) + [y]
  {
    assert (s + [y])[..|s|] == s;
  }

  /** `a - [y]` is `a` itself, and `[y] - b` is `[y]` unless `y` is in `b`. */
  lemma MinusSingle<T(!new)>(y: T, b: seq<T>)
    ensures Minus([y], b) == if y in b then [] else [y]
  {
    assert [y][..0] == [];
  }

  /** `(a | b) | c == a | (b | c)`. */
  lemma UnionAssociative<T(!new)>(a: seq<T>, b: seq<T>, c: seq<T>)
    ensures Union(Union(a, b), c) == Union(a, Union(b, c))
  {
    var abc := a + b + c;
    calc {
      Union(Union(a, b), c);
      Dedup(Dedup(a + b) + c);
      { DedupAppend(a + b, c); }
      Dedup(abc);
      { assert abc == a + (b + c); }
      Dedup(a + (b + c));
      { DedupPrepend(a, b + c); }
      Dedup(a + Dedup(b + c));
      Union(a, Union(b, c));
    }
  }

  lemma {:induction false} DedupPrepend<T(!new)>(a: seq<T>, t: seq<T>)
    ensures Dedup(a + Dedup(t)) == Dedup(a + t)
    decreases |t|
  {
    if t == [] {
      assert a + Dedup(t) == a + t;
    } else {
      var init := t[..|t| - 1];
      DedupPrepend(a, init);
      assert init + [t[|t| - 1]] == t;
      DedupPrependStep(a, init, t[|t| - 1]);
    }
  }

  lemma DedupPrependStep<T(!new)>(a: seq<T>, init: seq<T>, y: T)
    requires Dedup(a + Dedup(init)) == Dedup(a + init)
    ensures Dedup(a + Dedup(init + [y])) == Dedup(a + (init + [y]))
  {
    AppendAssoc(a, init, [y]);
    DedupSnoc(a + init, y);
    DedupSnoc(init, y);
    if y in Dedup(init) {
      assert y in a + init;
    } else {
      DedupPrependNew(a, Dedup(init), y);
    }
  }

  lemma DedupPrependNew<T(!new)>(a: seq<T>, d: seq<T>, y: T)
    ensures Dedup(a + (d + [y])) == Dedup((a + d) + [y])
  {
    AppendAssoc(a, d, [y]);
  }

  /**
   * The shape of `d | b` for a duplicate-free `d`: `d` itself, followed by the
   * new elements of `b` in order of first appearance.
   */
  lemma {:induction false} UnionShape<T(!new)>(d: seq<T>, b: seq<T>)
    requires NoDup(d)
    ensures Union(d, b) == d + Minus(Dedup(b), d)
    decreases |b|
  {
    if b == [] {
      assert d + b == d;
      DedupOfNoDup(d);
    } else {
      var init := b[..|b| - 1];
      UnionShape(d, init);
      assert init + [b[|b| - 1]] == b;
      UnionShapeStep(d, init, b[|b| - 1]);
    }
  }

  lemma UnionShapeStep<T(!new)>(d: seq<T>, init: seq<T>, y: T)
    requires Union(d, init) == d + Minus(Dedup(init), d)
    ensures Union(d, init + [y]) == d + Minus(Dedup(init + [y]), d)
  {
    assert d + (init + [y]) == (d + init) + [y];
    DedupSnoc(d + init, y);
    DedupSnoc(init, y);
    if y in Dedup(init) {
      assert y in Dedup(d + init);
    } else {
      UnionShapeNew(d, init, y);
    }
  }

  lemma UnionShapeNew<T(!new)>(d: seq<T>, init: seq<T>, y: T)
    requires Union(d, init) == d + Minus(Dedup(init), d)
    requires y !in Dedup(init)
    ensures Dedup((d + init) + [y]) == d + Minus(Dedup(init) + [y], d)
  {
    var di := Dedup(init);
    var m := Minus(di, d);
    DedupSnoc(d + init, y);
    MinusAppend(di, [y], d);
    MinusSingle(y, d);
    if y in d {
      assert y in Dedup(d + init);
      assert m + [] == m;
    } else {
      assert y !in init;
      assert y !in Dedup(d + init);
      AppendAssoc(d, m, [y]);
    }
  }

  /** Appending what is already there changes nothing: `a | b == a` when every element of `b` is in `a`. */
  lemma UnionAbsorb<T(!new)>(a: seq<T>, b: seq<T>)
    requires NoDup(a)
    requires forall x :: x in b ==> x in a
    ensures Union(a, b) == a
  {
    UnionShape(a, b);
    MinusCovered(Dedup(b), a);
  }
}
