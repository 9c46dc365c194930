/** libtask/qlock.c and libtask/rendez.c in their own form, over the scheduler's
    lists, proved against the functions of LockSpec. */
module Locks {
  import opened Base
  import opened TaskLists
  import opened Scheduler
  import opened LockSpec

  function IdOf(t: Task?): Option<TaskId> {
    if t == null then None else Some(t.id)
  }

  lemma IdsAppend(s: seq<Task>, t: Task)
    ensures Ids(s + [t]) == Ids(s) + [t.id]
  {}

  /** Nothing but the queues qs has changed. */
  twostate predicate OnlyQueues(s: Sched, qs: set<Tasklist>)
    reads s, s.queues
  {
    s.queues == old(s.queues) && s.tasks == old(s.tasks)
      && forall q :: q in s.queues && q !in qs ==> q.elems == old(q.elems)
  }

  class QueuingLock {
    var owner: Task?
    const waiting: Tasklist

    constructor ()
      ensures owner == null && fresh(waiting) && waiting.Valid() && waiting.elems == []
    {
      owner := null;
      waiting := new Tasklist();
    }

    ghost function View(): QL reads this, waiting {
      QL(IdOf(owner), Ids(waiting.elems))
    }

    ghost predicate In(s: Sched) reads s {
      waiting in s.queues && waiting != s.runq
    }

    /** _qlock up to its return or its task switch. */
    method Lock(s: Sched, block: bool) returns (o: LockOutcome)
      requires s.Valid() && In(s) && s.running != null && s.Free(s.running)
      modifies this`owner, s.queues, s.tasks
      ensures s.Valid() && OnlyQueues(s, {waiting})
      ensures (View(), o) == QLock(old(View()), s.running.id, block)
    {
      if owner == null {
        owner := s.running;
        return Got;
      }
      if !block {
        return Refused;
      }
      s.AddTask(waiting, s.running);
      IdsAppend(old(waiting.elems), s.running);
      return Queued;
    }

    method Unlock(s: Sched) returns (ready: Task?)
      requires s.Valid() && In(s) && owner != null
      modifies this`owner, s.queues, s.tasks
      ensures s.Valid() && OnlyQueues(s, {waiting, s.runq})
      ensures (View(), IdOf(ready)) == QUnlock(old(View()))
      ensures s.runq.elems == old(s.runq.elems) + (if ready == null then [] else [ready])
      ensures ready != null ==> ready == owner && old(waiting.elems) == [ready] + waiting.elems
    {
      ready := waiting.head;
      owner := ready;
      if ready != null {
        WakeHead(s, waiting);
      }
    }
  }

  /** deltask of the head of a queue. */
  method TakeHead(s: Sched, q: Tasklist)
    requires s.Valid() && q in s.queues && q != s.runq && q.elems != []
    modifies s.queues, s.tasks
    ensures s.Valid() && OnlyQueues(s, {q}) && s.Free(old(q.elems[0])) && old(q.elems[0]).state != Ready
    ensures q.elems == old(q.elems)[1..] && Ids(q.elems) == Ids(old(q.elems))[1..]
      && old(q.elems) == [old(q.elems[0])] + q.elems
  {
    var t := q.head;
    assert t == q.elems[0] && IndexOf(q.elems, t) == 0 && t in q.elems;
    assert t !in s.runq.elems;
    HeadRemoved(q.elems);
    s.DelTask(q, t);
    assert SameButLinks(t);
  }

  lemma HeadRemoved(e: seq<Task>)
    requires e != []
    ensures RemoveAt(e, 0) == e[1..] && Ids(e[1..]) == Ids(e)[1..] && e == [e[0]] + e[1..]
  {
  }

  /** deltask and taskready of the head of a queue. */
  method WakeHead(s: Sched, q: Tasklist)
    requires s.Valid() && q in s.queues && q != s.runq && q.elems != []
    modifies s.queues, s.tasks
    ensures s.Valid() && OnlyQueues(s, {q, s.runq})
    ensures q.elems == old(q.elems)[1..] && Ids(q.elems) == Ids(old(q.elems))[1..]
      && old(q.elems) == [old(q.elems[0])] + q.elems
    ensures s.runq.elems == old(s.runq.elems) + [old(q.elems[0])]
  {
    var t := q.head;
    TakeHead(s, q);
    s.TaskReady(t);
  }

  class ReadWriteLock {
    var readers: int
    var writer: Task?
    const rwaiting: Tasklist
    const wwaiting: Tasklist

    constructor ()
      ensures readers == 0 && writer == null && fresh(rwaiting) && fresh(wwaiting) && rwaiting != wwaiting
      ensures rwaiting.Valid() && wwaiting.Valid() && rwaiting.elems == [] && wwaiting.elems == []
    {
      readers, writer := 0, null;
      rwaiting := new Tasklist();
      wwaiting := new Tasklist();
    }

    ghost function View(): RW reads this, rwaiting, wwaiting {
      RW(readers, IdOf(writer), Ids(rwaiting.elems), Ids(wwaiting.elems))
    }

    ghost predicate In(s: Sched) reads s {
      && rwaiting in s.queues && wwaiting in s.queues && rwaiting != wwaiting
      && rwaiting != s.runq && wwaiting != s.runq
    }

    /** _rlock up to its return or its task switch. */
    method ReadLock(s: Sched, block: bool) returns (o: LockOutcome)
      requires s.Valid() && In(s) && s.running != null && s.Free(s.running)
      modifies this`readers, s.queues, s.tasks
      ensures s.Valid() && OnlyQueues(s, {rwaiting})
      ensures (View(), o) == RLock(old(View()), s.running.id, block)
    {
      if writer == null && wwaiting.head == null {
        readers := readers + 1;
        return Got;
      }
      if !block {
        return Refused;
      }
      s.AddTask(rwaiting, s.running);
      IdsAppend(old(rwaiting.elems), s.running);
      return Queued;
    }

    /** _wlock up to its return or its task switch. */
    method WriteLock(s: Sched, block: bool) returns (o: LockOutcome)
      requires s.Valid() && In(s) && s.running != null && s.Free(s.running)
      modifies this`writer, s.queues, s.tasks
      ensures s.Valid() && OnlyQueues(s, {wwaiting})
      ensures (View(), o) == WLock(old(View()), s.running.id, block)
    {
      if writer == null && readers == 0 {
        writer := s.running;
        return Got;
      }
      if !block {
        return Refused;
      }
      s.AddTask(wwaiting, s.running);
      IdsAppend(old(wwaiting.elems), s.running);
      return Queued;
    }

    method AdmitWriter(s: Sched) returns (t: Task?)
      requires s.Valid() && In(s)
      modifies this`writer, s.queues, s.tasks
      ensures s.Valid() && OnlyQueues(s, {wwaiting, s.runq})
      ensures (View(), IdOf(t)) == GrantWriter(old(View()))
      ensures s.runq.elems == old(s.runq.elems) + (if t == null then [] else [t])
    {
      t := null;
      if readers == 0 && wwaiting.head != null {
        t := wwaiting.head;
        writer := t;
        WakeHead(s, wwaiting);
      }
    }

    method ReadUnlock(s: Sched) returns (t: Task?)
      requires s.Valid() && In(s)
      modifies this`readers, this`writer, s.queues, s.tasks
      ensures s.Valid() && OnlyQueues(s, {wwaiting, s.runq})
      ensures (View(), IdOf(t)) == RUnlock(old(View()))
      ensures s.runq.elems == old(s.runq.elems) + (if t == null then [] else [t])
    {
      ghost var l := View();
      readers := readers - 1;
      assert View() == l.(readers := l.readers - 1);
      t := AdmitWriter(s);
    }

    /** The loop of wunlock: every waiting reader enters. */
    method AdmitReaders(s: Sched)
      requires s.Valid() && In(s)
      modifies this`readers, s.queues, s.tasks
      ensures s.Valid() && OnlyQueues(s, {rwaiting, s.runq})
      ensures rwaiting.elems == [] && readers == old(readers) + |old(rwaiting.elems)|
      ensures s.runq.elems == old(s.runq.elems) + old(rwaiting.elems)
    {
      while rwaiting.head != null
        invariant s.Valid() && OnlyQueues(s, {rwaiting, s.runq})
        invariant readers + |rwaiting.elems| == old(readers) + |old(rwaiting.elems)|
        invariant s.runq.elems + rwaiting.elems == old(s.runq.elems) + old(rwaiting.elems)
        decreases |rwaiting.elems|
      {
        ghost var r, q := s.runq.elems, rwaiting.elems;
        WakeHead(s, rwaiting);
        HeadMoves(r, q, s.runq.elems, rwaiting.elems);
        readers := readers + 1;
      }
    }

    /** wunlock by its holder; aborted is true where the program aborts. */
    method WriteUnlock(s: Sched) returns (aborted: bool, t: Task?)
      requires s.Valid() && In(s) && RWInv(View()) && writer != null
      modifies this`readers, this`writer, s.queues, s.tasks
      ensures s.Valid() && OnlyQueues(s, {rwaiting, wwaiting, s.runq})
      ensures !aborted && (View(), IdOf(t)) == WUnlock(old(View()))
      ensures s.runq.elems == old(s.runq.elems) + old(rwaiting.elems) + (if t == null then [] else [t])
    {
      if writer == null {
        return true, null;
      }
      writer := null;
      if readers != 0 {
        return true, null;
      }
      aborted := false;
      Admit(s);
      t := AdmitWriter(s);
    }

    method Admit(s: Sched)
      requires s.Valid() && In(s)
      modifies this`readers, s.queues, s.tasks
      ensures s.Valid() && OnlyQueues(s, {rwaiting, s.runq})
      ensures View() == old(View()).(readers := old(View()).readers + |old(View()).rwaiting|, rwaiting := [])
      ensures s.runq.elems == old(s.runq.elems) + old(rwaiting.elems)
    {
      AdmitReaders(s);
      assert Ids(rwaiting.elems) == [];
    }
  }

  class Rendezvous {
    const l: QueuingLock?
    const waiting: Tasklist

    constructor (l: QueuingLock?)
      ensures this.l == l && fresh(waiting) && waiting.Valid() && waiting.elems == []
    {
      this.l := l;
      waiting := new Tasklist();
    }

    ghost predicate In(s: Sched) reads s {
      waiting in s.queues && waiting != s.runq && (l != null ==> l.In(s) && l.waiting != waiting)
    }

    /** tasksleep up to its task switch: the caller is queued before its lock is free. */
    method Sleep(s: Sched) returns (ready: Task?)
      requires s.Valid() && In(s) && s.running != null && s.Free(s.running) && (l != null ==> l.owner != null)
      modifies if l == null then {} else {l}, s.queues, s.tasks
      ensures s.Valid() && waiting.elems == old(waiting.elems) + [s.running]
      ensures OnlyQueues(s, if l == null then {waiting} else {waiting, l.waiting, s.runq})
      ensures l != null ==> (l.View(), IdOf(ready)) == QUnlock(old(l.View()))
      ensures l != null ==> s.runq.elems == old(s.runq.elems) + (if ready == null then [] else [ready])
    {
      s.AddTask(waiting, s.running);
      ready := null;
      if l != null {
        ready := l.Unlock(s);
      }
    }

    /** _taskwakeup: wake the first sleeper, or all of them in order; how many they were. */
    method Wakeup(s: Sched, all: bool) returns (i: nat)
      requires s.Valid() && In(s)
      modifies s.queues, s.tasks
      ensures s.Valid() && OnlyQueues(s, {waiting, s.runq})
      ensures i == (if all then |old(waiting.elems)| else if old(waiting.elems) == [] then 0 else 1)
      ensures s.runq.elems == old(s.runq.elems) + old(waiting.elems)[..i] && waiting.elems == old(waiting.elems)[i..]
    {
      i := 0;
      while true
        invariant s.Valid() && OnlyQueues(s, {waiting, s.runq}) && (i <= 1 || all)
        invariant i + |waiting.elems| == |old(waiting.elems)|
        invariant s.runq.elems + waiting.elems == old(s.runq.elems) + old(waiting.elems)
        decreases |waiting.elems|
      {
        if (i == 1 && !all) || waiting.head == null {
          break;
        }
        ghost var r, q := s.runq.elems, waiting.elems;
        WakeHead(s, waiting);
        HeadMoves(r, q, s.runq.elems, waiting.elems);
        i := i + 1;
      }
      Moved(s.runq.elems, waiting.elems, old(s.runq.elems), old(waiting.elems), i);
    }
  }

  lemma HeadMoves(r: seq<Task>, q: seq<Task>, r': seq<Task>, q': seq<Task>)
    requires q != [] && r' == r + [q[0]] && q == [q[0]] + q'
    ensures r' + q' == r + q && |q'| == |q| - 1
  {
    assert r + q == r + ([q[0]] + q');
  }

  lemma Moved(a: seq<Task>, b: seq<Task>, c: seq<Task>, d: seq<Task>, i: nat)
    requires a + b == c + d && |b| + i == |d|
    ensures a == c + d[..i] && b == d[i..]
  {
    assert a == (a + b)[..|a|] == (c + d)[..|c| + i] == c + d[..i];
    assert b == (a + b)[|a|..] == (c + d)[|c| + i..] == d[i..];
  }
}
