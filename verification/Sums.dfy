/** Finite sums indexed by a set of keys. */
module Sums {
  ghost function SumOver(s: set<string>, f: string -> int): int {
    if s == {} then 0 else var x :| x in s; f(x) + SumOver(s - {x}, f)
  }

  lemma {:induction false} SumRemove(s: set<string>, f: string -> int, x: string)
    requires x in s
    ensures SumOver(s, f) == f(x) + SumOver(s - {x}, f)
    decreases s
  {
    var y :| y in s && SumOver(s, f) == f(y) + SumOver(s - {y}, f);
    if x != y {
      SumRemove(s - {y}, f, x);
      SumRemove(s - {x}, f, y);
      assert s - {y} - {x} == s - {x} - {y};
    }
  }

  lemma {:induction false} SumAdds(s: set<string>, f: string -> int, g: string -> int, h: string -> int)
    requires forall x :: x in s ==> h(x) == f(x) + g(x)
    ensures SumOver(s, h) == SumOver(s, f) + SumOver(s, g)
    decreases s
  {
    if s != {} {
      var x :| x in s;
      SumRemove(s, f, x);
      SumRemove(s, g, x);
      SumRemove(s, h, x);
      SumAdds(s - {x}, f, g, h);
    }
  }

  /** Keys that contribute nothing may be left out. */
  lemma {:induction false} SumIgnoresZeros(s: set<string>, t: set<string>, f: string -> int)
    requires s <= t && forall x :: x in t && x !in s ==> f(x) == 0
    ensures SumOver(t, f) == SumOver(s, f)
    decreases t
  {
    if x :| x in t && x !in s {
      SumRemove(t, f, x);
      SumIgnoresZeros(s, t - {x}, f);
    } else {
      assert s == t;
    }
  }
}
