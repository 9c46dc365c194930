/** Intrusive doubly linked task lists (addtask, deltask and the insertion of
    taskdelay), and the run queue with all the other queues that share a task's
    single pair of links. */
module TaskLists {
  import opened Base

  datatype TaskState = Idle | Ready | Exiting

  class Task {
    const id: TaskId
    var next: Task?
    var prev: Task?
    var alarmtime: int
    var state: TaskState
    var udata: int
    var alltaskslot: int

    constructor (id: TaskId)
      ensures this.id == id && state == Idle && next == null && prev == null && udata == 0
    {
      this.id := id;
      next, prev, alarmtime, state, udata, alltaskslot := null, null, 0, Idle, 0, 0;
    }
  }

  ghost function Ids(s: seq<Task>): (r: seq<TaskId>)
    ensures |r| == |s| && forall i :: 0 <= i < |s| ==> r[i] == s[i].id
  {
    seq(|s|, i requires 0 <= i < |s| => s[i].id)
  }

  ghost function AlarmsOf(s: seq<Task>): (r: seq<int>)
    reads s
    ensures |r| == |s| && forall i :: 0 <= i < |s| ==> r[i] == s[i].alarmtime
  {
    seq(|s|, i requires 0 <= i < |s| reads s => s[i].alarmtime)
  }

  /** Where taskdelay inserts: behind the last element with an alarm before when. */
  ghost function InsertAt(alarms: seq<int>, when: int): (i: nat)
    ensures i <= |alarms| && (0 < i ==> alarms[i - 1] < when)
    ensures forall j :: i <= j < |alarms| ==> when <= alarms[j]
  {
    if alarms == [] || alarms[|alarms| - 1] < when then |alarms|
    else InsertAt(alarms[..|alarms| - 1], when)
  }

  /** That is the only such position. */
  lemma InsertAtUnique(alarms: seq<int>, when: int, i: nat)
    requires i <= |alarms| && (0 < i ==> alarms[i - 1] < when)
    requires forall j :: i <= j < |alarms| ==> when <= alarms[j]
    ensures i == InsertAt(alarms, when)
  {
  }

  /** The links of the tasks of s are those of a list with exactly these tasks. */
  ghost predicate Linked(s: seq<Task>)
    reads s
  {
    && (forall k {:trigger s[k].next} :: 0 <= k < |s| ==> s[k].next == if k == |s| - 1 then null else s[k + 1])
    && (forall k {:trigger s[k].prev} :: 0 <= k < |s| ==> s[k].prev == if k == 0 then null else s[k - 1])
  }

  lemma LinkedRemoved(s: seq<Task>, i: nat)
    requires i < |s|
    requires forall k {:trigger s[k].next} :: 0 <= k < |s| && k != i && k != i - 1 ==>
      s[k].next == if k == |s| - 1 then null else s[k + 1]
    requires forall k {:trigger s[k].prev} :: 0 <= k < |s| && k != i && k != i + 1 ==>
      s[k].prev == if k == 0 then null else s[k - 1]
    requires 0 < i ==> s[i - 1].next == if i == |s| - 1 then null else s[i + 1]
    requires i + 1 < |s| ==> s[i + 1].prev == if i == 0 then null else s[i - 1]
    ensures Linked(RemoveAt(s, i))
  {
    var r := RemoveAt(s, i);
    forall k | 0 <= k < |r| ensures r[k].next == if k == |r| - 1 then null else r[k + 1] {
      NextRemoved(s, i, k);
    }
    forall k | 0 <= k < |r| ensures r[k].prev == if k == 0 then null else r[k - 1] {
      PrevRemoved(s, i, k);
    }
  }

  lemma NextRemoved(s: seq<Task>, i: nat, k: nat)
    requires i < |s| && k < |s| - 1
    requires forall k {:trigger s[k].next} :: 0 <= k < |s| && k != i && k != i - 1 ==>
      s[k].next == if k == |s| - 1 then null else s[k + 1]
    requires 0 < i ==> s[i - 1].next == if i == |s| - 1 then null else s[i + 1]
    ensures var r := RemoveAt(s, i);
      r[k].next == if k == |r| - 1 then null else r[k + 1]
  {
    assert RemoveAt(s, i)[k].next == s[if k < i then k else k + 1].next;
  }

  lemma PrevRemoved(s: seq<Task>, i: nat, k: nat)
    requires i < |s| && k < |s| - 1
    requires forall k {:trigger s[k].prev} :: 0 <= k < |s| && k != i && k != i + 1 ==>
      s[k].prev == if k == 0 then null else s[k - 1]
    requires i + 1 < |s| ==> s[i + 1].prev == if i == 0 then null else s[i - 1]
    ensures var r := RemoveAt(s, i);
      r[k].prev == if k == 0 then null else r[k - 1]
  {
    assert RemoveAt(s, i)[k].prev == s[if k < i then k else k + 1].prev;
  }

  lemma LinkedInserted(s: seq<Task>, i: nat, t: Task)
    requires i <= |s|
    requires t.next == (if i == |s| then null else s[i]) && t.prev == (if i == 0 then null else s[i - 1])
    requires forall k {:trigger s[k].next} :: 0 <= k < |s| ==>
      s[k].next == if k == i - 1 then t else if k == |s| - 1 then null else s[k + 1]
    requires forall k {:trigger s[k].prev} :: 0 <= k < |s| ==>
      s[k].prev == if k == i then t else if k == 0 then null else s[k - 1]
    ensures Linked(InsertedAt(s, i, t))
  {
    var r := InsertedAt(s, i, t);
    forall k | 0 <= k < |r| ensures r[k].next == if k == |r| - 1 then null else r[k + 1] {
      NextInserted(s, i, t, k);
    }
    forall k | 0 <= k < |r| ensures r[k].prev == if k == 0 then null else r[k - 1] {
      PrevInserted(s, i, t, k);
    }
  }

  lemma NextInserted(s: seq<Task>, i: nat, t: Task, k: nat)
    requires i <= |s| && k <= |s| && t.next == if i == |s| then null else s[i]
    requires forall k {:trigger s[k].next} :: 0 <= k < |s| ==>
      s[k].next == if k == i - 1 then t else if k == |s| - 1 then null else s[k + 1]
    ensures var r := InsertedAt(s, i, t);
      r[k].next == if k == |r| - 1 then null else r[k + 1]
  {
    if k != i { assert InsertedAt(s, i, t)[k].next == s[if k < i then k else k - 1].next; }
  }

  lemma PrevInserted(s: seq<Task>, i: nat, t: Task, k: nat)
    requires i <= |s| && k <= |s| && t.prev == if i == 0 then null else s[i - 1]
    requires forall k {:trigger s[k].prev} :: 0 <= k < |s| ==>
      s[k].prev == if k == i then t else if k == 0 then null else s[k - 1]
    ensures var r := InsertedAt(s, i, t);
      r[k].prev == if k == 0 then null else r[k - 1]
  {
    if k != i { assert InsertedAt(s, i, t)[k].prev == s[if k < i then k else k - 1].prev; }
  }

  twostate predicate SameData(x: Task)
    reads x
  {
    x.alarmtime == old(x.alarmtime) && x.udata == old(x.udata)
  }

  twostate predicate SameButLinks(x: Task)
    reads x
  {
    x.state == old(x.state) && SameData(x)
  }

  class Tasklist {
    var head: Task?
    var tail: Task?
    ghost var elems: seq<Task>

    ghost predicate Valid()
      reads this, elems
    {
      && NoDup(elems) && Linked(elems)
      && head == (if elems == [] then null else elems[0])
      && tail == (if elems == [] then null else elems[|elems| - 1])
    }

    constructor ()
      ensures Valid() && elems == []
    {
      head, tail, elems := null, null, [];
    }

    ghost function Alarms(): seq<int>
      reads elems, this
    {
      AlarmsOf(elems)
    }

    method AddTask(t: Task)
      requires Valid() && t !in elems
      modifies this, elems, t
      ensures Valid() && elems == old(elems) + [t]
      ensures forall x :: x in elems ==> SameButLinks(x)
    {
      if tail != null {
        tail.next := t;
        t.prev := tail;
      } else {
        head := t;
        t.prev := null;
      }
      tail := t;
      t.next := null;
      elems := elems + [t];
    }

    /** The pointer writes of deltask, for the task at position i. */
    method Unlink(t: Task, ghost i: nat)
      requires Valid() && i < |elems| && t == elems[i]
      modifies this`head, this`tail, elems
      ensures forall x :: x in elems ==> SameButLinks(x)
      ensures Linked(RemoveAt(elems, i))
      ensures head == (if i > 0 then elems[0] else if |elems| == 1 then null else elems[1])
      ensures tail == (if i < |elems| - 1 then elems[|elems| - 1]
        else if |elems| == 1 then null else elems[|elems| - 2])
    {
      ghost var s := elems;
      assert t.prev == s[i].prev && t.next == s[i].next;
      if t.prev != null {
        t.prev.next := t.next;
      } else {
        head := t.next;
      }
      if t.next != null {
        t.next.prev := t.prev;
      } else {
        tail := t.prev;
      }
      LinkedRemoved(s, i);
    }

    method DelTask(t: Task)
      requires Valid() && t in elems
      modifies this, elems
      ensures Valid() && elems == RemoveAt(old(elems), IndexOf(old(elems), t))
      ensures forall x :: x in old(elems) ==> SameButLinks(x)
    {
      ghost var i := IndexOf(elems, t);
      Unlink(t, i);
      RemoveAtMembers(elems, i);
      elems := RemoveAt(elems, i);
    }

    /** The scan of taskdelay: the last element with an alarm before when. */
    method Scan(when: int) returns (t: Task?, ghost i: nat)
      requires Valid()
      ensures i == InsertAt(Alarms(), when) && i <= |elems|
      ensures t == if InsertAt(Alarms(), when) == 0 then null else elems[InsertAt(Alarms(), when) - 1]
    {
      ghost var alarms := Alarms();
      i := |elems|;
      t := tail;
      while t != null && t.alarmtime >= when
        invariant 0 <= i <= |elems| && t == (if i == 0 then null else elems[i - 1])
        invariant forall j :: i <= j < |elems| ==> alarms[j] >= when
        decreases i
      {
        t := t.prev;
        i := i - 1;
      }
      InsertAtUnique(alarms, when, i);
    }

    /** The part of taskdelay that links task t0 in behind t, or in front of all. */
    method Link(t0: Task, t: Task?, ghost i: nat, when: int)
      requires Valid() && t0 !in elems && i <= |elems| && t == (if i == 0 then null else elems[i - 1])
      modifies this, elems, t0
      ensures Valid() && elems == InsertedAt(old(elems), i, t0)
      ensures forall x :: x in elems <==> x == t0 || x in old(elems)
      ensures t0.alarmtime == when && t0.state == old(t0.state) && t0.udata == old(t0.udata)
      ensures forall x :: x in old(elems) ==> SameButLinks(x)
    {
      ghost var s, n := elems, |elems|;
      if t != null {
        t0.prev := t;
        t0.next := t.next;
      } else {
        t0.next := head;
        t0.prev := null;
      }
      assert t0.next == if i == n then null else s[i];
      t0.alarmtime := when;
      if t0.prev != null {
        t0.prev.next := t0;
      } else {
        head := t0;
      }
      if t0.next != null {
        t0.next.prev := t0;
      } else {
        tail := t0;
      }
      elems := InsertedAt(s, i, t0);
      LinkedInserted(s, i, t0);
      InsertedMembers(s, i, t0);
    }

    /** Both together, as taskdelay does it. */
    method Insert(t0: Task, when: int)
      requires Valid() && t0 !in elems
      modifies this, elems, t0
      ensures Valid() && t0.alarmtime == when && t0.state == old(t0.state) && t0.udata == old(t0.udata)
      ensures forall x :: x in old(elems) ==> SameButLinks(x)
      ensures elems == InsertedAt(old(elems), InsertAt(old(Alarms()), when), t0)
      ensures forall x :: x in elems <==> x == t0 || x in old(elems)
    {
      var t, i := Scan(when);
      assert i == InsertAt(old(Alarms()), when);
      Link(t0, t, i, when);
    }
  }
}
