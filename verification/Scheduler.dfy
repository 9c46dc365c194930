/** The scheduler of libtask/task.c. All queues of the library thread through the
    same links, so a task may stand in one of them only. */
module Scheduler {
  import opened Base
  import opened TaskLists

  /** A C int that wraps around. */
  function Wrap32(x: int): int {
    (x + 0x8000_0000) % 0x1_0000_0000 - 0x8000_0000
  }

  class Sched {
    const runq: Tasklist
    var running: Task?
    var nswitch: int
    ghost var queues: set<Tasklist>
    ghost var tasks: set<Task>

    /** Every queue is well linked, no task stands in two of them, and a task's state
        is READY exactly when it stands in the run queue. */
    ghost predicate Valid()
      reads this, queues, tasks
    {
      && runq in queues
      && (forall a, x :: a in queues && x in a.elems ==> x in tasks)
      && (forall a :: a in queues ==> a.Valid())
      && (forall a, b, x :: a in queues && b in queues && a != b && x in a.elems ==> x !in b.elems)
      && (forall x :: x in tasks ==> (x.state == Ready <==> x in runq.elems))
    }

    ghost predicate Free(t: Task)
      reads this, queues
    {
      t in tasks && forall q :: q in queues ==> t !in q.elems
    }

    constructor ()
      ensures Valid() && fresh(queues) && fresh(runq) && queues == {runq} && tasks == {} && runq.elems == []
      ensures running == null && nswitch == 0
    {
      runq := new Tasklist();
      running, nswitch := null, 0;
      new;
      queues, tasks := {runq}, {};
    }

    /** A change of queue q and of the links of its tasks leaves the other queues as they were. */
    twostate lemma OthersStand(q: Tasklist)
      requires old(Valid()) && queues == old(queues) && tasks == old(tasks) && q in queues
      requires forall p :: p in queues && p != q ==>
        p.head == old(p.head) && p.tail == old(p.tail) && p.elems == old(p.elems)
      requires forall p, x :: p in queues && p != q && x in p.elems ==> x !in q.elems
      requires forall x :: x in tasks && x !in old(q.elems) && x !in q.elems ==>
        x.next == old(x.next) && x.prev == old(x.prev)
      ensures forall p :: p in queues && p != q ==> p.Valid()
    {
      forall p | p in queues && p != q ensures p.Valid() {
        assert old(p.Valid());
        forall k | 0 <= k < |p.elems|
          ensures p.elems[k].next == old(p.elems[k].next) && p.elems[k].prev == old(p.elems[k].prev) {
          assert p.elems[k] in p.elems;
        }
      }
    }

    method AddTask(q: Tasklist, t: Task)
      requires Valid() && q in queues && q != runq && Free(t)
      modifies queues, tasks
      ensures Valid() && q.elems == old(q.elems) + [t]
      ensures forall x :: x in tasks ==> SameButLinks(x)
      ensures forall p :: p in queues && p != q ==> p.elems == old(p.elems)
    {
      q.AddTask(t);
      OthersStand(q);
      forall x | x in tasks ensures x.state == old(x.state) { assert x in q.elems ==> SameButLinks(x); }
    }

    method DelTask(q: Tasklist, t: Task)
      requires Valid() && q in queues && q != runq && t in q.elems
      modifies queues, tasks
      ensures Valid() && Free(t) && q.elems == RemoveAt(old(q.elems), IndexOf(old(q.elems), t))
      ensures forall x :: x in tasks ==> SameButLinks(x)
      ensures forall p :: p in queues && p != q ==> p.elems == old(p.elems)
    {
      RemoveAtMembers(q.elems, IndexOf(q.elems, t));
      q.DelTask(t);
      OthersStand(q);
    }

    method TaskReady(t: Task)
      requires Valid() && t in tasks && (t.state != Ready ==> Free(t))
      modifies queues, tasks
      ensures Valid() && t.state == Ready
      ensures forall u :: u in tasks ==> SameData(u)
      ensures runq.elems == if old(t.state) == Ready then old(runq.elems) else old(runq.elems) + [t]
      ensures forall p :: p in queues && p != runq ==> p.elems == old(p.elems)
      ensures forall u :: u in tasks && u != t ==> u.state == old(u.state)
    {
      if t.state == Ready {
        return;
      }
      t.state := Ready;
      runq.AddTask(t);
      OthersStand(runq);
    }

    /** One turn of the loop of taskscheduler, up to the switch to the task. */
    method Dispatch() returns (t: Task?)
      requires Valid()
      modifies this`running, this`nswitch, queues, tasks
      ensures Valid() && (t == null <==> old(runq.elems) == [])
      ensures t == null ==> runq.elems == [] && nswitch == old(nswitch)
      ensures t != null ==> old(runq.elems) == [t] + runq.elems && running == t && t.state == Idle && Free(t)
      ensures t != null ==> nswitch == Wrap32(old(nswitch) + 1)
      ensures forall p :: p in queues && p != runq ==> p.elems == old(p.elems)
    {
      t := runq.head;
      if t == null {
        return;
      }
      Pop(t);
      running := t;
      nswitch := Wrap32(nswitch + 1);
    }

    method Unqueue(t: Task)
      requires Valid() && t in runq.elems
      requires forall x :: x in RemoveAt(runq.elems, IndexOf(runq.elems, t)) <==> x in runq.elems && x != t
      modifies queues, tasks
      ensures Valid() && runq.elems == RemoveAt(old(runq.elems), IndexOf(old(runq.elems), t))
      ensures t.state == Idle && Free(t)
      ensures forall p :: p in queues && p != runq ==> p.elems == old(p.elems)
    {
      runq.DelTask(t);
      t.state := Idle;
      OthersStand(runq);
      forall x | x in tasks && x != t ensures x.state == old(x.state) {
        assert x in old(runq.elems) ==> SameButLinks(x);
      }
    }

    /** Take the head off the run queue. */
    method Pop(t: Task)
      requires Valid() && t == runq.head
      modifies queues, tasks
      ensures Valid() && old(runq.elems) == [t] + runq.elems && t.state == Idle && Free(t)
      ensures forall p :: p in queues && p != runq ==> p.elems == old(p.elems)
    {
      ghost var s := runq.elems;
      assert t == s[0] && IndexOf(s, t) == 0;
      RemoveAtMembers(s, 0);
      Unqueue(t);
      assert s == [t] + runq.elems;
    }

    /** The insertion of taskdelay, into any queue but the run queue. */
    method Insert(q: Tasklist, t: Task, when: int)
      requires Valid() && q in queues && q != runq && Free(t)
      modifies queues, tasks
      ensures Valid() && q.elems == InsertedAt(old(q.elems), InsertAt(old(q.Alarms()), when), t)
      ensures t.alarmtime == when && t.udata == old(t.udata) && t.state == old(t.state)
      ensures forall x :: x in tasks && x != t ==> SameButLinks(x)
      ensures forall p :: p in queues && p != q ==> p.elems == old(p.elems)
    {
      q.Insert(t, when);
      OthersStand(q);
      forall x | x in tasks ensures x.state == old(x.state) { assert x in old(q.elems) ==> SameButLinks(x); }
    }

    /** taskyield up to its task switch; n is its local variable. */
    method TaskYield() returns (n: int)
      requires Valid() && running != null && running in tasks && Free(running)
      modifies this`running, queues, tasks
      ensures Valid() && n == nswitch && running == null
      ensures runq.elems == old(runq.elems) + [old(running)]
      ensures forall p :: p in queues && p != runq ==> p.elems == old(p.elems)
    {
      n := nswitch;
      TaskReady(running);
      TaskSwitch();
    }

    /** taskexit: the task stands in no queue and will not be run again. */
    method TaskExit()
      requires Valid() && running != null && running in tasks && Free(running)
      modifies this`running, tasks
      ensures Valid() && running == null && old(running).state == Exiting && Free(old(running))
      ensures forall p :: p in queues ==> p.elems == old(p.elems)
      ensures forall u :: u in tasks && u != old(running) ==> u.state == old(u.state)
    {
      Exit(running);
      TaskSwitch();
    }

    method Exit(t: Task)
      requires Valid() && Free(t)
      modifies t`state
      ensures Valid() && t.state == Exiting && Free(t)
    {
      t.state := Exiting;
    }

    /** taskswitch: back to the scheduler. */
    method TaskSwitch()
      requires Valid()
      modifies this`running
      ensures Valid() && running == null
    {
      running := null;
    }
  }
}
