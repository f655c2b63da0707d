/**
 * The browser's timer queue as the application uses it: `setTimeout` and
 * `setInterval` register a callback due at a millisecond time; the event loop
 * fires the earliest due timer, and among equal due times the one registered
 * first. `clearInterval` drops timers.
 */
module Timers {

  /** A pending callback, due at time `due` (ms). */
  datatype Timer<A> = Timer(due: int, action: A)

  /** The index of the timer the event loop fires next: a minimal due time,
      and the first in registration order among equal ones. */
  function Earliest<A>(q: seq<Timer<A>>): (k: nat)
    requires |q| > 0
    ensures k < |q|
    ensures forall j :: 0 <= j < |q| ==> q[k].due <= q[j].due
    ensures forall j :: 0 <= j < k ==> q[j].due > q[k].due
  {
    if |q| == 1 then 0
    else
      var k := 1 + Earliest(q[1..]);
      if q[0].due <= q[k].due then 0 else k
  }

  /** The queue without its `k`-th timer. */
  function RemoveAt<A>(q: seq<Timer<A>>, k: nat): (r: seq<Timer<A>>)
    requires k < |q|
    ensures |r| == |q| - 1
    ensures forall j :: 0 <= j < k ==> r[j] == q[j]
    ensures forall j :: k < j < |q| ==> r[j - 1] == q[j]
  {
    q[..k] + q[k + 1..]
  }

  /** How many pending timers carry action `a`. */
  function Count<A(==)>(q: seq<Timer<A>>, a: A): nat
  {
    if q == [] then 0 else (if q[0].action == a then 1 else 0) + Count(q[1..], a)
  }

  lemma {:induction false} CountAppend<A>(p: seq<Timer<A>>, q: seq<Timer<A>>, a: A)
    ensures Count(p + q, a) == Count(p, a) + Count(q, a)
  {
    if p == [] {
      assert p + q == q;
    } else {
      assert (p + q)[1..] == p[1..] + q;
      CountAppend(p[1..], q, a);
    }
  }

  lemma {:induction false} CountRemoveAt<A>(q: seq<Timer<A>>, k: nat, a: A)
    requires k < |q|
    ensures Count(RemoveAt(q, k), a) + (if q[k].action == a then 1 else 0) == Count(q, a)
  {
    assert q == q[..k] + [q[k]] + q[k + 1..];
    CountAppend(q[..k] + [q[k]], q[k + 1..], a);
    CountAppend(q[..k], [q[k]], a);
    CountAppend(q[..k], q[k + 1..], a);
    assert Count([q[k]], a) == if q[k].action == a then 1 else 0 by {
      assert [q[k]][1..] == [];
    }
  }

  /** The queue after every timer whose action is in `cancelled` is cleared,
      the others kept in order. */
  function Cancel<A(==, !new)>(q: seq<Timer<A>>, cancelled: set<A>): (r: seq<Timer<A>>)
    ensures |r| <= |q|
    ensures forall t :: t in r <==> t in q && t.action !in cancelled
    ensures forall a :: Count(r, a) == if a in cancelled then 0 else Count(q, a)
  {
    if q == [] then []
    else
      var rest := Cancel(q[1..], cancelled);
      if q[0].action in cancelled then rest else [q[0]] + rest
  }

  /** Cancelling distributes over concatenation: the survivors of a queue are
      the survivors of its front followed by those of its back. With
      `CancelOne` this makes `Cancel` an order-keeping filter, so the
      registration order that breaks ties in `Earliest` is untouched. */
  lemma {:induction false} CancelAppend<A(!new)>(p: seq<Timer<A>>, q: seq<Timer<A>>, cancelled: set<A>)
    ensures Cancel(p + q, cancelled) == Cancel(p, cancelled) + Cancel(q, cancelled)
  {
    if p == [] {
      assert p + q == q;
    } else {
      assert (p + q)[1..] == p[1..] + q;
      CancelAppend(p[1..], q, cancelled);
    }
  }

  /** A single timer is dropped exactly when its action is cancelled. */
  lemma CancelOne<A(!new)>(t: Timer<A>, cancelled: set<A>)
    ensures Cancel([t], cancelled) == if t.action in cancelled then [] else [t]
  {
    assert [t][1..] == [];
  }

  lemma CountAppendOne<A>(q: seq<Timer<A>>, t: Timer<A>, a: A)
    ensures Count(q + [t], a) == Count(q, a) + (if t.action == a then 1 else 0)
  {
    CountAppend(q, [t], a);
    assert [t][1..] == [];
  }

  /** No timer of `q` is due before `now`. */
  predicate DueFrom<A>(q: seq<Timer<A>>, now: int)
  {
    forall i :: 0 <= i < |q| ==> now <= q[i].due
  }

  /** After the earliest timer is taken off, nothing left is due before it. */
  lemma RemoveEarliestDueFrom<A>(q: seq<Timer<A>>)
    requires |q| > 0
    ensures DueFrom(RemoveAt(q, Earliest(q)), q[Earliest(q)].due)
  {
    var k := Earliest(q);
    var r := RemoveAt(q, k);
    forall i | 0 <= i < |r|
      ensures q[k].due <= r[i].due
    {
      if i < k {
        assert r[i] == q[i];
      } else {
        assert r[i] == q[i + 1];
      }
    }
  }

  lemma DueFromAppend<A>(p: seq<Timer<A>>, q: seq<Timer<A>>, now: int)
    requires DueFrom(p, now) && DueFrom(q, now)
    ensures DueFrom(p + q, now)
  {
    forall i | 0 <= i < |p + q|
      ensures now <= (p + q)[i].due
    {
      if i >= |p| {
        assert (p + q)[i] == q[i - |p|];
      }
    }
  }

  lemma DueFromCancel<A(!new)>(q: seq<Timer<A>>, cancelled: set<A>, now: int)
    requires DueFrom(q, now)
    ensures DueFrom(Cancel(q, cancelled), now)
  {
    var r := Cancel(q, cancelled);
    forall i | 0 <= i < |r|
      ensures now <= r[i].due
    {
      assert r[i] in q;
    }
  }
}
