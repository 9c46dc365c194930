/** The table of all tasks: taskcreateraw appends, an exit moves the last task into
    the free slot, and the array grows in steps of 1024. */
module AllTasks {
  import opened Base
  import opened TaskLists

  /** n rounded up to a multiple of 1024. */
  function RoundUp(n: nat): (r: nat)
    ensures n <= r
  {
    (n + 1023) / 1024 * 1024
  }

  lemma RoundUpStep(n: nat)
    ensures if n % 1024 == 0 then RoundUp(n + 1) == n + 1024 else RoundUp(n + 1) == RoundUp(n)
    ensures RoundUp(n) <= RoundUp(n + 1)
  {}

  class Table {
    var alltask: array<Task?>
    var nalltask: nat
    var taskcount: int

    ghost function Tasks(): seq<Task?>
      reads this, alltask
    {
      if nalltask <= alltask.Length then alltask[..nalltask] else []
    }

    /** The slots in use are numbered 0 to nalltask - 1 by their tasks, and the array
        is as long as nalltask rounded up to a multiple of 1024. */
    ghost predicate Valid()
      reads this, alltask, set i | 0 <= i < alltask.Length :: alltask[i]
    {
      && RoundUp(nalltask) <= alltask.Length
      && (forall i :: 0 <= i < nalltask ==> i < alltask.Length && alltask[i] != null && alltask[i].alltaskslot == i)
    }

    constructor ()
      ensures Valid() && Tasks() == [] && taskcount == 0 && fresh(alltask)
    {
      alltask := new Task?[0];
      nalltask, taskcount := 0, 0;
    }

    /** taskcreateraw, for a task not in the table. */
    method Create(t: Task)
      requires Valid() && t !in Tasks()
      modifies this, alltask, t`alltaskslot
      ensures Valid() && Tasks() == old(Tasks()) + [t] && NoDup(Tasks())
      ensures taskcount == old(taskcount) + 1 && (alltask == old(alltask) || fresh(alltask))
    {
      RoundUpStep(nalltask);
      taskcount := taskcount + 1;
      if nalltask % 1024 == 0 {
        Realloc();
      }
      assert RoundUp(nalltask + 1) <= alltask.Length;
      ghost var was := Tasks();
      t.alltaskslot := nalltask;
      alltask[nalltask] := t;
      nalltask := nalltask + 1;
      assert alltask[..nalltask] == was + [t];
      Slots();
    }

    /** The slots tell the tasks apart. */
    lemma Slots()
      requires Valid()
      ensures NoDup(Tasks())
    {
      forall i, j | 0 <= i < j < nalltask ensures Tasks()[i] != Tasks()[j] {
        assert alltask[i].alltaskslot == i && alltask[j].alltaskslot == j;
      }
    }

    /** realloc to 1024 slots more than are in use: it may also shrink. */
    method Realloc()
      requires nalltask <= alltask.Length
      modifies this`alltask
      ensures fresh(alltask) && alltask.Length == nalltask + 1024
      ensures Tasks() == old(Tasks())
    {
      var a := new Task?[nalltask + 1024];
      for i := 0 to nalltask
        invariant alltask == old(alltask) && nalltask == old(nalltask) && nalltask <= alltask.Length
        invariant alltask[..] == old(alltask[..])
        invariant forall k :: 0 <= k < i ==> a[k] == alltask[k]
      {
        a[i] := alltask[i];
      }
      alltask := a;
    }

    /** What the scheduler does when a task has switched back to it. */
    method SwitchedBack(t: Task)
      requires Valid() && t in Tasks()
      modifies this, alltask, (set x | x in Tasks())`alltaskslot
      ensures Valid() && alltask == old(alltask) && NoDup(Tasks())
      ensures t.state != Exiting ==> Tasks() == old(Tasks()) && taskcount == old(taskcount)
      ensures t.state == Exiting ==> 0 <= old(t.alltaskslot) < |old(Tasks())| && old(Tasks())[old(t.alltaskslot)] == t
      ensures t.state == Exiting ==> Tasks() == SwapRemove(old(Tasks()), old(t.alltaskslot))
      ensures t.state == Exiting ==> taskcount == old(taskcount) - 1
    {
      Slots();
      if t.state == Exiting {
        Remove(t);
      }
    }

    /** What the scheduler does after a task has exited. */
    method Remove(t: Task)
      requires Valid() && t in Tasks()
      modifies this, alltask, (set x | x in Tasks())`alltaskslot
      ensures Valid() && alltask == old(alltask) && taskcount == old(taskcount) - 1
      ensures 0 <= old(t.alltaskslot) < |old(Tasks())| && old(Tasks())[old(t.alltaskslot)] == t
      ensures Tasks() == SwapRemove(old(Tasks()), old(t.alltaskslot)) && NoDup(Tasks())
    {
      RoundUpStep(nalltask - 1);
      taskcount := taskcount - 1;
      var i := t.alltaskslot;
      nalltask := nalltask - 1;
      alltask[i] := alltask[nalltask];
      alltask[i].alltaskslot := i;
      Slots();
    }
  }
}
