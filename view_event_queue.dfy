/**
 * The inbox through which the view hands events to the controller: a
 * first-in first-out queue whose pop answers "nothing" when it is empty.
 * `T` stands for the event pointers the queue holds.
 */
module ViewEventQueues {

  datatype Option<T> = None | Some(value: T)

  /** Popping a queue: the oldest element and the rest, or nothing on an empty queue. */
  function Pop<T>(q: seq<T>): (res: (Option<T>, seq<T>))
    ensures q == [] <==> res.0 == None
    ensures q == [] ==> res.1 == []
    ensures q != [] ==> res.0 == Some(q[0]) && [res.0.value] + res.1 == q
  {
    if q == [] then (None, []) else (Some(q[0]), q[1..])
  }

  class ViewEventQueue<T> {
    var viewEventQueue: seq<T>

    constructor ()
      ensures viewEventQueue == []
    {
      viewEventQueue := [];
    }

    method PopViewEvent() returns (front: Option<T>)
      modifies this
      ensures (front, viewEventQueue) == Pop(old(viewEventQueue))
    {
      if viewEventQueue == [] {
        return None;
      }
      front := Some(viewEventQueue[0]);
      viewEventQueue := viewEventQueue[1..];
    }

    method PushViewEvent(viewEvent: T)
      modifies this
      ensures viewEventQueue == old(viewEventQueue) + [viewEvent]
    {
      viewEventQueue := viewEventQueue + [viewEvent];
    }
  }

  /** The queue after pushing `es` one at a time, first to last. */
  function PushAll<T>(q: seq<T>, es: seq<T>): seq<T>
    decreases |es|
  {
    if es == [] then q else PushAll(q + [es[0]], es[1..])
  }

  /** The answers of `n` successive pops, and the queue left behind. */
  function PopN<T>(q: seq<T>, n: nat): (seq<Option<T>>, seq<T>)
  {
    if n == 0 then ([], q)
    else
      var (front, rest) := Pop(q);
      var (fronts, left) := PopN(rest, n - 1);
      ([front] + fronts, left)
  }

  function Somes<T>(es: seq<T>): (r: seq<Option<T>>)
    ensures |r| == |es| && forall i :: 0 <= i < |es| ==> r[i] == Some(es[i])
  {
    if es == [] then [] else [Some(es[0])] + Somes(es[1..])
  }

  /** Pushing several events one by one appends them, in order, at the back. */
  lemma {:induction false} PushAllAppends<T>(q: seq<T>, es: seq<T>)
    ensures PushAll(q, es) == q + es
    decreases |es|
  {
    if es != [] {
      PushAllAppends(q + [es[0]], es[1..]);
      assert q + [es[0]] + es[1..] == q + es;
    }
  }

  /** Popping a queue as many times as it is long yields its elements oldest first and empties it. */
  lemma {:induction false} PopAllInOrder<T>(q: seq<T>)
    ensures PopN(q, |q|) == (Somes(q), [])
    decreases |q|
  {
    if q != [] {
      PopAllInOrder(q[1..]);
    }
  }

  /** Popping an empty queue answers nothing and leaves it empty, however often it is done. */
  lemma {:induction false} PopEmpty<T>(n: nat)
    ensures PopN<T>([], n).1 == []
    ensures forall i :: 0 <= i < |PopN<T>([], n).0| ==> PopN<T>([], n).0[i] == None
    ensures |PopN<T>([], n).0| == n
  {
    if n > 0 {
      PopEmpty<T>(n - 1);
    }
  }

  /**
   * First in, first out: events pushed as e1..en onto an empty queue with no
   * pops in between come back as e1..en, and one more pop answers nothing.
   */
  lemma Fifo<T>(es: seq<T>)
    ensures PopN(PushAll([], es), |es| + 1) == (Somes(es) + [None], [])
  {
    PushAllAppends([], es);
    assert [] + es == es;
    FifoOn(es);
  }

  /** Draining any queue yields its elements oldest first, then nothing, and leaves it empty. */
  lemma {:induction false} FifoOn<T>(q: seq<T>)
    ensures PopN(q, |q| + 1) == (Somes(q) + [None], [])
    decreases |q|
  {
    if q == [] {
      assert PopN(q, 1).0 == Somes(q) + [None];
      assert PopN(q, 1).1 == [];
    } else {
      FifoOn(q[1..]);
      assert Somes(q) == [Some(q[0])] + Somes(q[1..]);
      assert [Some(q[0])] + (Somes(q[1..]) + [None]) == Somes(q) + [None];
    }
  }
}
