/** The queue manager: registrations are requests executed in order by one thread.

    Requests are appended under a lock; the thread swaps the whole list out and runs it. */
module Manager {
  import opened Threads

  datatype Request = Register(q: nat) | Unregister(q: nat)

  /** `posted` is history: every request ever made, in order. */
  datatype State = State(queued: seq<Request>, batch: seq<Request>, queues: seq<nat>, posted: seq<Request>)

  /** The vector without every entry of q. */
  function Erase(queues: seq<nat>, q: nat): (r: seq<nat>)
    ensures q !in r && forall x :: x != q ==> (x in r <==> x in queues)
  {
    if queues == [] then []
    else
      var rest := Erase(queues[..|queues| - 1], q);
      assert queues == queues[..|queues| - 1] + [queues[|queues| - 1]];
      if queues[|queues| - 1] == q then rest else rest + [queues[|queues| - 1]]
  }

  /** The positions of the entries that are not q, in order. */
  function Others(queues: seq<nat>, q: nat): (at: seq<nat>)
    ensures forall i :: 0 <= i < |at| ==> at[i] < |queues| && queues[at[i]] != q
    ensures forall i, j :: 0 <= i < j < |at| ==> at[i] < at[j]
    ensures forall k :: 0 <= k < |queues| && queues[k] != q ==> k in at
  {
    if queues == [] then []
    else
      var n := |queues| - 1;
      var front := Others(queues[..n], q);
      assert forall k :: 0 <= k < n ==> queues[..n][k] == queues[k];
      if queues[n] == q then front else front + [n]
  }

  /** Erasing keeps every entry of another queue, as often as it was there and in the same order:
      the result is the vector read at exactly those positions, which increase. */
  lemma {:induction false} EraseKeepsTheOthers(queues: seq<nat>, q: nat)
    ensures var at := Others(queues, q);
            |Erase(queues, q)| == |at| && forall i :: 0 <= i < |at| ==> Erase(queues, q)[i] == queues[at[i]]
  {
    if queues != [] {
      var n := |queues| - 1;
      var front := Others(queues[..n], q);
      EraseKeepsTheOthers(queues[..n], q);
      assert forall i :: 0 <= i < |front| ==> queues[..n][front[i]] == queues[front[i]];
    }
  }

  function Apply(queues: seq<nat>, r: Request): seq<nat> {
    match r
    case Register(q) => queues + [q]
    case Unregister(q) => Erase(queues, q)
  }

  function Post(m: State, r: Request): State {
    m.(queued := m.queued + [r], posted := m.posted + [r])
  }

  function Swap(m: State): State {
    if m.batch == [] then m.(batch := m.queued, queued := []) else m
  }

  function Handle(m: State): State {
    if m.batch == [] then m else m.(queues := Apply(m.queues, m.batch[0]), batch := m.batch[1..])
  }

  /** What a log of requests leaves registered. */
  function Registered(log: seq<Request>): seq<nat> {
    if log == [] then [] else Apply(Registered(log[..|log| - 1]), log[|log| - 1])
  }

  /** How many of the posted requests have been executed. */
  function Handled(m: State): int {
    |m.posted| - |m.batch| - |m.queued|
  }

  /** Requests are executed in the order of posting, none is lost or repeated. */
  ghost predicate Fifo(m: State) {
    && Handled(m) >= 0
    && m.posted == m.posted[..Handled(m)] + m.batch + m.queued
    && m.queues == Registered(m.posted[..Handled(m)])
  }

  lemma PostKeeps(m: State, r: Request)
    requires Fifo(m)
    ensures Fifo(Post(m, r)) && Handled(Post(m, r)) == Handled(m)
  {
    var m' := Post(m, r);
    assert m'.posted[..Handled(m)] == m.posted[..Handled(m)];
  }

  lemma SwapKeeps(m: State)
    requires Fifo(m)
    ensures Fifo(Swap(m)) && Handled(Swap(m)) == Handled(m)
  {
  }

  lemma HandleKeeps(m: State)
    requires Fifo(m)
    ensures Fifo(Handle(m)) && Handled(Handle(m)) == Handled(m) + Bit(m.batch != [])
    ensures m.batch != [] ==> m.posted[Handled(m)] == m.batch[0]
  {
    if m.batch != [] {
      var h := Handled(m);
      assert m.posted[h] == m.batch[0];
      assert m.posted[..h + 1][..h] == m.posted[..h];
      assert m.posted[..h + 1] == m.posted[..h] + [m.batch[0]];
    }
  }

  /** Some registration of the queue in this log has no unregistration after it. */
  ghost predicate RegisteredLast(log: seq<Request>, q: nat) {
    exists i :: 0 <= i < |log| && log[i] == Register(q) && Unregister(q) !in log[i..]
  }

  lemma RegisteredLastStep(log: seq<Request>, q: nat)
    requires log != []
    ensures var last, rest := log[|log| - 1], log[..|log| - 1];
            RegisteredLast(log, q) <==> last == Register(q) || (last != Unregister(q) && RegisteredLast(rest, q))
  {
    var n := |log| - 1;
    var rest := log[..n];
    forall i | 0 <= i < n
      ensures rest[i] == log[i]
      ensures Unregister(q) in log[i..] <==> Unregister(q) in rest[i..] || log[n] == Unregister(q)
    {
      assert log[i..] == rest[i..] + [log[n]];
    }
    assert log[n..] == [log[n]];
    if RegisteredLast(rest, q) && log[n] != Unregister(q) {
      var i :| 0 <= i < |rest| && rest[i] == Register(q) && Unregister(q) !in rest[i..];
      assert log[i] == Register(q) && Unregister(q) !in log[i..];
    } else if log[n] == Register(q) {
      assert Unregister(q) !in log[n..];
    }
  }

  /** A queue is registered exactly when its registration was executed after its last unregistration. */
  lemma {:induction false} RegisteredMeaning(log: seq<Request>, q: nat)
    ensures q in Registered(log) <==>
              exists i :: 0 <= i < |log| && log[i] == Register(q) && Unregister(q) !in log[i..]
  {
    if log != [] {
      var n := |log| - 1;
      RegisteredMeaning(log[..n], q);
      assert RegisteredLast(log[..n], q) <==> q in Registered(log[..n]);
      RegisteredLastStep(log, q);
      AppliedRequest(Registered(log[..n]), log[n], q);
      assert RegisteredLast(log, q) <==> q in Registered(log);
    }
  }

  lemma AppliedRequest(queues: seq<nat>, r: Request, q: nat)
    ensures q in Apply(queues, r) <==> r == Register(q) || (r != Unregister(q) && q in queues)
  {
  }

  /** The manager's thread executes n requests of its batch. */
  function HandleSome(m: State, n: nat): State
    decreases n
  {
    if n == 0 then m else HandleSome(Handle(m), n - 1)
  }

  lemma {:induction false} BatchIsHandled(m: State, n: nat)
    requires Fifo(m) && n == |m.batch|
    ensures var m' := HandleSome(m, n);
            Fifo(m') && m'.batch == [] && m'.queued == m.queued && m'.posted == m.posted
    decreases n
  {
    if n > 0 {
      HandleKeeps(m);
      hide Fifo;
      BatchIsHandled(Handle(m), n - 1);
    }
  }

  /** From any moment on, when nothing more is posted: the rest of the batch, one swap and the next batch
      execute every request ever posted. */
  lemma EverythingIsExecuted(m: State)
    requires Fifo(m)
    ensures var m' := HandleSome(Swap(HandleSome(m, |m.batch|)), |m.queued|);
            m'.batch == [] && m'.queued == [] && m'.posted == m.posted && m'.queues == Registered(m.posted)
  {
    BatchIsHandled(m, |m.batch|);
    var m1 := HandleSome(m, |m.batch|);
    SwapKeeps(m1);
    BatchIsHandled(Swap(m1), |m.queued|);
    var m' := HandleSome(Swap(m1), |m.queued|);
    assert m'.posted[..|m'.posted|] == m'.posted;
  }

  // ---- The manager's operations in place ----

  class Registry {
    var queues: seq<nat>
    var queued: seq<Request>

    constructor ()
      ensures queues == [] && queued == []
    {
      queues, queued := [], [];
    }

    method Request(r: Request)
      modifies this`queued
      ensures queued == old(queued) + [r]
    {
      queued := queued + [r];
    }

    /** The erasing loop of `detach`. */
    method EraseAll(q: nat)
      modifies this`queues
      ensures queues == Erase(old(queues), q)
    {
      assert Erase(queues[..0], q) == [] && [] + queues[0..] == queues;
      hide Erase;
      var it := 0;
      ghost var done := 0;
      while it != |queues|
        invariant done <= |old(queues)| && it <= |queues|
        invariant queues == Erase(old(queues)[..done], q) + old(queues)[done..]
        invariant it == |Erase(old(queues)[..done], q)|
        decreases |old(queues)| - done
      {
        EraseStep(old(queues), done, q, queues);
        if queues[it] == q {
          queues := queues[..it] + queues[it + 1..];
        } else {
          it := it + 1;
        }
        done := done + 1;
      }
      assert old(queues)[..done] == old(queues);
    }

    /** One round of the manager's thread: the queued requests are swapped out and executed in order. */
    method RunBatch()
      modifies this
      ensures queued == [] && queues == ApplyAll(old(queues), old(queued))
    {
      var batch := queued;
      queued := [];
      var i := 0;
      while i < |batch|
        invariant 0 <= i <= |batch| && queued == [] && batch == old(queued)
        invariant queues == ApplyAll(old(queues), batch[..i])
      {
        assert batch[..i + 1][..i] == batch[..i];
        match batch[i] {
          case Register(q) => queues := queues + [q];
          case Unregister(q) => EraseAll(q);
        }
        i := i + 1;
      }
      assert batch[..i] == batch;
    }
  }

  /** Looking at one more entry of the vector. */
  lemma EraseStep(was: seq<nat>, done: nat, q: nat, queues: seq<nat>)
    requires done < |was| && queues == Erase(was[..done], q) + was[done..]
    ensures var it := |Erase(was[..done], q)|;
            && it < |queues| && queues[it] == was[done]
            && queues[..it] + queues[it + 1..] == Erase(was[..done], q) + was[done + 1..]
            && (if was[done] == q then Erase(was[..done + 1], q) == Erase(was[..done], q)
                else Erase(was[..done + 1], q) == Erase(was[..done], q) + [was[done]]
                     && queues == Erase(was[..done + 1], q) + was[done + 1..])
  {
    assert was[..done + 1][..done] == was[..done];
  }

  function ApplyAll(queues: seq<nat>, log: seq<Request>): seq<nat> {
    if log == [] then queues else Apply(ApplyAll(queues, log[..|log| - 1]), log[|log| - 1])
  }

  /** Running one batch after the other executes the whole log. */
  lemma {:induction false} BatchesAreTheLog(log: seq<Request>, batch: seq<Request>)
    ensures ApplyAll(Registered(log), batch) == Registered(log + batch)
  {
    if batch == [] {
      assert log + batch == log;
    } else {
      var n := |batch| - 1;
      assert (log + batch)[..|log + batch| - 1] == log + batch[..n];
      BatchesAreTheLog(log, batch[..n]);
    }
  }
}
