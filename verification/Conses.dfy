/**
 AutoLISP objects as the printer's walker finds them: cons cells, which may be shared and cyclic,
 and atoms. What the walker is to show of an object is defined here without its work stack.
 */
module Conses {
  import opened Printer
  import opened Values

  const MAX_LIST_DEPTH: nat := 4096
  const TEXT_CHUNK: nat := 2048

  /** The marks that stand for a cycle and for depth are not objects. */
  type Scalar = v: Value | IsAtom(v) && v != VOpaque(Cycle) && v != VOpaque(TooDeep) witness VNil

  datatype Obj = Cell(id: nat) | Atom(scalar: Scalar) | Str(text: string) | Sym(name: string)
  datatype Pair = Pair(car: Obj, cdr: Obj)

  /** What is in each cell; a cell that is not listed holds nil twice. */
  type Heap = map<nat, Pair>

  const NilObj: Obj := Atom(VNil)

  function Car(h: Heap, x: Obj): Obj {
    if x.Cell? && x.id in h then h[x.id].car else NilObj
  }

  function Cdr(h: Heap, x: Obj): Obj {
    if x.Cell? && x.id in h then h[x.id].cdr else NilObj
  }

  /** The `k`-th tail of a list. */
  function Tail(h: Heap, x: Obj, k: nat): Obj
  {
    if k == 0 then x else Cdr(h, Tail(h, x, k - 1))
  }

  ghost predicate Endless(h: Heap, x: Obj)
  {
    forall k: nat :: Tail(h, x, k).Cell?
  }

  // ----- The shape of an endless list -----

  /** The `k`-th tail is a cell that was not met before. */
  ghost predicate NewCell(h: Heap, x: Obj, k: nat)
  {
    Tail(h, x, k).Cell? && forall i: nat | i < k :: Tail(h, x, i) != Tail(h, x, k)
  }

  /** The first `mu + lambda` tails are different cells, then the list is back at its `mu`-th tail. */
  ghost predicate Lasso(h: Heap, x: Obj, mu: nat, lambda: nat)
  {
    && lambda >= 1
    && Tail(h, x, mu + lambda) == Tail(h, x, mu)
    && AllNew(h, x, mu + lambda)
  }

  ghost predicate AllNew(h: Heap, x: Obj, n: nat)
  {
    n == 0 || (NewCell(h, x, n - 1) && AllNew(h, x, n - 1))
  }

  lemma {:induction false} IsNew(h: Heap, x: Obj, n: nat, k: nat)
    requires AllNew(h, x, n) && k < n
    ensures NewCell(h, x, k)
    decreases n
  {
    if k < n - 1 {
      IsNew(h, x, n - 1, k);
    }
  }

  /** What is left of `k` after whole laps of `n`. */
  function Lap(k: nat, n: nat): (r: nat)
    requires n >= 1
    ensures r < n
  {
    if k < n then k else Lap(k - n, n)
  }

  lemma {:induction false} LapIsRemainder(k: nat, n: nat)
    requires n >= 1
    ensures Lap(k, n) == k % n
  {
    if k >= n {
      LapIsRemainder(k - n, n);
      NextPeriod(k - n, n);
    } else {
      Quotient(k, n, 0, k);
    }
  }

  lemma {:induction false} Periodic(h: Heap, x: Obj, mu: nat, lambda: nat, k: nat)
    requires lambda >= 1 && Tail(h, x, mu + lambda) == Tail(h, x, mu) && k >= mu
    ensures Tail(h, x, k) == Tail(h, x, mu + Lap(k - mu, lambda))
    decreases k
  {
    if k >= mu + lambda {
      SamePeriod(h, x, mu, lambda, k - lambda);
      Periodic(h, x, mu, lambda, k - lambda);
    }
  }

  lemma {:induction false} SamePeriod(h: Heap, x: Obj, mu: nat, lambda: nat, k: nat)
    requires Tail(h, x, mu + lambda) == Tail(h, x, mu) && k >= mu
    ensures Tail(h, x, k + lambda) == Tail(h, x, k)
    decreases k
  {
    if k > mu {
      SamePeriod(h, x, mu, lambda, k - 1);
    }
  }

  lemma {:induction false} AddPeriod(a: nat, n: nat, m: nat)
    requires n >= 1
    ensures (a + m * n) % n == a % n
  {
    if m > 0 {
      AddPeriod(a, n, m - 1);
      NextPeriod(a + (m - 1) * n, n);
      assert a + m * n == a + (m - 1) * n + n;
    }
  }

  lemma NextPeriod(a: nat, n: nat)
    requires n >= 1
    ensures (a + n) % n == a % n
  {
    var q := a / n;
    assert a + n == n * (q + 1) + a % n;
    Quotient(a + n, n, q + 1, a % n);
  }

  lemma Quotient(a: nat, n: nat, q: nat, r: nat)
    requires r < n && a == n * q + r
    ensures a % n == r && a / n == q
  {
    OneRow(n, a / n - q);
  }

  lemma OneRow(n: int, d: int)
    requires n >= 0
    ensures d >= 1 ==> n * d >= n
    ensures d <= -1 ==> n * d <= -n
  {
  }

  lemma SameModulo(a: nat, b: nat, n: nat)
    requires n >= 1
    ensures a % n == (a + b) % n <==> b % n == 0
  {
    if b % n == 0 {
      AddPeriod(a, n, b / n);
      assert b == b / n * n;
    }
    if a % n == (a + b) % n {
      var m := (a + b) / n - a / n;
      assert b == n * m;
      OneRow(n, m);
      Quotient(b, n, m, 0);
    }
  }

  lemma SameRemainder(a: nat, b: nat, n: nat)
    requires n >= 1
    ensures Lap(a, n) == Lap(a + b, n) <==> Lap(b, n) == 0
  {
    LapIsRemainder(a, n);
    LapIsRemainder(b, n);
    LapIsRemainder(a + b, n);
    SameModulo(a, b, n);
  }

  /** The tortoise and the hare are together after `j` steps exactly when `j` is a multiple of the
      length of the cycle and leads into it. */
  lemma MeetingPoints(h: Heap, x: Obj, mu: nat, lambda: nat, j: nat)
    requires Lasso(h, x, mu, lambda) && j >= 1
    ensures Tail(h, x, j) == Tail(h, x, 2 * j) <==> j >= mu && Lap(j, lambda) == 0
  {
    if j >= mu {
      var near, far := SameLap(mu, lambda, j);
      InLasso(h, x, mu, lambda, near, far);
      MeetingInside(h, x, mu, lambda, j, near, far);
    } else if 2 * j >= mu {
      Periodic(h, x, mu, lambda, 2 * j);
      IsNew(h, x, mu + lambda, mu + Lap(2 * j - mu, lambda));
    } else {
      IsNew(h, x, mu + lambda, 2 * j);
    }
  }

  lemma MeetingInside(h: Heap, x: Obj, mu: nat, lambda: nat, j: nat, near: nat, far: nat)
    requires lambda >= 1 && Tail(h, x, mu + lambda) == Tail(h, x, mu) && j >= mu
    requires near == Lap(j - mu, lambda) && far == Lap(2 * j - mu, lambda)
    requires Tail(h, x, mu + near) == Tail(h, x, mu + far) <==> near == far
    ensures Tail(h, x, j) == Tail(h, x, 2 * j) <==> near == far
  {
    Periodic(h, x, mu, lambda, j);
    Periodic(h, x, mu, lambda, 2 * j);
  }

  lemma SameLap(mu: nat, lambda: nat, j: nat) returns (near: nat, far: nat)
    requires lambda >= 1 && j >= mu
    ensures near == Lap(j - mu, lambda) && far == Lap(2 * j - mu, lambda)
    ensures near == far <==> Lap(j, lambda) == 0
  {
    near, far := Lap(j - mu, lambda), Lap(2 * j - mu, lambda);
    assert 2 * j - mu == (j - mu) + j;
    SameRemainder(j - mu, j, lambda);
  }

  lemma InLasso(h: Heap, x: Obj, mu: nat, lambda: nat, a: nat, b: nat)
    requires Lasso(h, x, mu, lambda) && a < lambda && b < lambda
    ensures Tail(h, x, mu + a) == Tail(h, x, mu + b) <==> a == b
  {
    IsNew(h, x, mu + lambda, mu + a);
    IsNew(h, x, mu + lambda, mu + b);
  }

  lemma LassoIsEndless(h: Heap, x: Obj, mu: nat, lambda: nat)
    requires Lasso(h, x, mu, lambda)
    ensures Endless(h, x)
  {
    forall k: nat ensures Tail(h, x, k).Cell? {
      if k >= mu {
        Periodic(h, x, mu, lambda, k);
        IsNew(h, x, mu + lambda, mu + Lap(k - mu, lambda));
      } else {
        IsNew(h, x, mu + lambda, k);
      }
    }
  }

  /** A list that has not ended after as many cells as there are goes in a circle. */
  lemma FindLasso(h: Heap, x: Obj) returns (mu: nat, lambda: nat)
    requires Tail(h, x, |h| + 1).Cell?
    ensures Lasso(h, x, mu, lambda) && mu + lambda <= |h| + 1
  {
    var found;
    found, mu, lambda := FirstRepeat(h, x, |h| + 1);
    if !found {
      DistinctCells(h, x, |h| + 1);
      Smaller(Ids(h, x, |h| + 1), h.Keys);
    }
  }

  lemma {:induction false} Smaller(a: set<nat>, b: set<nat>)
    requires a <= b
    ensures |a| <= |b|
  {
    if a != {} {
      var e :| e in a;
      Smaller(a - {e}, b - {e});
    }
  }

  function IdOf(x: Obj): nat {
    if x.Cell? then x.id else 0
  }

  /** The cells among the first `n` tails. */
  function Ids(h: Heap, x: Obj, n: nat): set<nat>
  {
    if n == 0 then {} else Ids(h, x, n - 1) + {IdOf(Tail(h, x, n - 1))}
  }

  lemma {:induction false} WhichTail(h: Heap, x: Obj, n: nat, id: nat) returns (i: nat)
    requires id in Ids(h, x, n)
    ensures i < n && IdOf(Tail(h, x, i)) == id
  {
    if id == IdOf(Tail(h, x, n - 1)) {
      i := n - 1;
    } else {
      i := WhichTail(h, x, n - 1, id);
    }
  }

  lemma {:induction false} DistinctCells(h: Heap, x: Obj, n: nat)
    requires AllNew(h, x, n) && Tail(h, x, n).Cell?
    ensures |Ids(h, x, n)| == n && Ids(h, x, n) <= h.Keys
  {
    if n > 0 {
      var last := Tail(h, x, n - 1);
      DistinctCells(h, x, n - 1);
      if last.id in Ids(h, x, n - 1) {
        var i := WhichTail(h, x, n - 1, last.id);
        IsNew(h, x, n - 1, i);
        assert false;
      }
    }
  }

  lemma {:induction false} Occurs(h: Heap, x: Obj, n: nat, k: nat) returns (hit: bool, i: nat)
    requires k <= n
    ensures hit ==> i < k && Tail(h, x, i) == Tail(h, x, n)
    ensures !hit ==> forall j: nat | j < k :: Tail(h, x, j) != Tail(h, x, n)
    decreases k
  {
    hit, i := false, 0;
    if k > 0 {
      hit, i := Occurs(h, x, n, k - 1);
      if Tail(h, x, k - 1) == Tail(h, x, n) {
        hit, i := true, k - 1;
      }
    }
  }

  lemma {:induction false} FirstRepeat(h: Heap, x: Obj, n: nat) returns (found: bool, mu: nat, lambda: nat)
    requires Tail(h, x, n).Cell?
    ensures found ==> Lasso(h, x, mu, lambda) && mu + lambda <= n
    ensures !found ==> AllNew(h, x, n + 1)
  {
    found, mu, lambda := false, 0, 0;
    if n > 0 {
      CellsUpTo(h, x, n - 1, n);
      found, mu, lambda := FirstRepeat(h, x, n - 1);
      if !found {
        found, mu := Occurs(h, x, n, n);
        lambda := if found then n - mu else 0;
      }
    } else {
      assert AllNew(h, x, 0);
    }
  }

  // ----- Where the walker stops -----

  /** The hare, which goes twice as fast, has caught up with the tortoise. */
  predicate Meets(h: Heap, x: Obj, j: nat)
  {
    j >= 1 && Tail(h, x, j).Cell? && Tail(h, x, j) == Tail(h, x, 2 * j)
  }

  predicate Stops(h: Heap, x: Obj, k: nat)
  {
    !Tail(h, x, k).Cell? || Meets(h, x, k)
  }

  predicate NoneStops(h: Heap, x: Obj, n: nat) {
    n == 0 || (!Stops(h, x, n - 1) && NoneStops(h, x, n - 1))
  }

  lemma {:induction false} NoStop(h: Heap, x: Obj, n: nat, k: nat)
    requires NoneStops(h, x, n) && k < n
    ensures !Stops(h, x, k)
  {
    if k < n - 1 {
      NoStop(h, x, n - 1, k);
    }
  }

  /** The walker has stopped after as many steps as there are cells, and one. */
  lemma StopsSoon(h: Heap, x: Obj)
    requires NoneStops(h, x, |h| + 1)
    ensures Stops(h, x, |h| + 1)
  {
    if Tail(h, x, |h| + 1).Cell? {
      var mu, lambda := FindLasso(h, x);
      var j := mu + (lambda - mu % lambda);
      assert j == lambda * (mu / lambda + 1);
      Quotient(j, lambda, mu / lambda + 1, 0);
      LassoStops(h, x, mu, lambda, j);
      if j < |h| + 1 {
        NoStop(h, x, |h| + 1, j);
      }
    }
  }

  lemma LassoStops(h: Heap, x: Obj, mu: nat, lambda: nat, j: nat)
    requires Lasso(h, x, mu, lambda) && j >= 1 && j >= mu && j % lambda == 0
    ensures Stops(h, x, j)
  {
    LapIsRemainder(j, lambda);
    MeetingPoints(h, x, mu, lambda, j);
  }

  /** How many cells of a list are shown. */
  function Shown(h: Heap, x: Obj): (n: nat)
    ensures n <= |h| + 1 && Stops(h, x, n) && NoneStops(h, x, n)
  {
    ShownFrom(h, x, 0)
  }

  function ShownFrom(h: Heap, x: Obj, k: nat): (n: nat)
    requires k <= |h| + 1 && NoneStops(h, x, k)
    ensures k <= n <= |h| + 1 && Stops(h, x, n) && NoneStops(h, x, n)
    decreases |h| + 1 - k
  {
    if Stops(h, x, k) then k
    else
      assert k < |h| + 1 by { if k == |h| + 1 { StopsSoon(h, x); } }
      ShownFrom(h, x, k + 1)
  }

  lemma ShownBefore(h: Heap, x: Obj, k: nat)
    ensures k < Shown(h, x) ==> !Stops(h, x, k)
    ensures Stops(h, x, k) ==> Shown(h, x) <= k
  {
    if k < Shown(h, x) {
      NoStop(h, x, Shown(h, x), k);
    }
  }

  /** A list is cut short exactly when it has no end, and then the cells shown are the least positive
      multiple of the cycle's length that leads into the cycle. */
  lemma ShownCells(h: Heap, x: Obj)
    ensures Tail(h, x, Shown(h, x)).Cell? <==> Endless(h, x)
    ensures forall mu: nat, lambda: nat | Lasso(h, x, mu, lambda) ::
              Shown(h, x) >= 1 && Shown(h, x) >= mu && Shown(h, x) % lambda == 0
                && Shown(h, x) - lambda < (if mu == 0 then 1 else mu)
  {
    var n := Shown(h, x);
    if Tail(h, x, n).Cell? {
      CellsBefore(h, x, n, |h| + 1);
      var mu, lambda := FindLasso(h, x);
      LassoIsEndless(h, x, mu, lambda);
    }
    forall mu: nat, lambda: nat | Lasso(h, x, mu, lambda)
      ensures n >= 1 && n >= mu && n % lambda == 0 && n - lambda < (if mu == 0 then 1 else mu)
    {
      LassoIsEndless(h, x, mu, lambda);
      assert Meets(h, x, n);
      MeetingPoints(h, x, mu, lambda, n);
      LapIsRemainder(n, lambda);
      LeastMultiple(h, x, mu, lambda);
    }
  }

  /** Each cell of an endless list is shown exactly if the list is a ring: one that runs into its cycle
      is cut before it has gone round. */
  lemma EveryCellShown(h: Heap, x: Obj, mu: nat, lambda: nat)
    requires Lasso(h, x, mu, lambda)
    ensures Shown(h, x) >= mu + lambda <==> mu == 0
  {
    ShownCells(h, x);
    var n := Shown(h, x);
    if mu == 0 && n < lambda {
      Quotient(n, lambda, 0, n);
    }
  }

  lemma LeastMultiple(h: Heap, x: Obj, mu: nat, lambda: nat)
    requires Lasso(h, x, mu, lambda) && Shown(h, x) >= 1 && Lap(Shown(h, x), lambda) == 0
    ensures Shown(h, x) - lambda < (if mu == 0 then 1 else mu)
  {
    var n := Shown(h, x);
    LassoIsEndless(h, x, mu, lambda);
    if n - lambda >= 1 && n - lambda >= mu {
      var k: nat := n - lambda;
      ShownBefore(h, x, k);
      MeetingPoints(h, x, mu, lambda, k);
    }
  }

  /** Once the hare and the tortoise have met there is no end. */
  lemma {:induction false} CellsBefore(h: Heap, x: Obj, n: nat, k: nat)
    requires Meets(h, x, n)
    ensures Tail(h, x, k).Cell?
    decreases k
  {
    if k <= n {
      CellsUpTo(h, x, k, n);
    } else if k <= 2 * n {
      CellsUpTo(h, x, k, 2 * n);
    } else {
      SamePeriod(h, x, n, n, k - n);
      CellsBefore(h, x, n, k - n);
    }
  }

  lemma {:induction false} CellsUpTo(h: Heap, x: Obj, k: nat, n: nat)
    requires k <= n && Tail(h, x, n).Cell?
    ensures Tail(h, x, k).Cell?
    decreases n - k
  {
    if k < n {
      CellsUpTo(h, x, k, n - 1);
    }
  }
}
