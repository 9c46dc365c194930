/** The order in which the scheduler runs ready tasks, over a whole run. */
module TurnRuns {
  import opened Base
  import opened ChannelSpec
  import opened LockSpec
  import opened Kernel

  /** q' is q with tasks added behind. */
  ghost predicate Extends(q: seq<TaskId>, q': seq<TaskId>) {
    q <= q'
  }

  lemma CallExtends(s: Sys, e: Ev)
    requires SysInv(s) && Enabled(s, e) && !e.Turn? && !e.Alternate?
    requires !e.ReadLock? && !e.WriteLock? && !e.ReadUnlock? && !e.WriteUnlock?
    ensures Extends(s.runq, Do(s, e).runq)
  {
  }

  lemma LockingExtends(s: Sys, u: TaskId, l: nat, e: Event, p: Place)
    requires l < |s.rws|
    ensures Extends(s.runq, DoRW(s, u, l, e, p).runq)
  {
  }

  /** Only a turn of the scheduler takes a task off the run queue, and it takes the head. */
  lemma StepQueue(s: Sys, e: Ev)
    requires SysInv(s) && Enabled(s, e)
    ensures if e.Turn? then Do(s, e).runq == s.runq[1..] else Extends(s.runq, Do(s, e).runq)
  {
    match e
    case Turn => TurnOK(s);
    case Alternate(_, _, _, _) =>
    case ReadLock(l, block) => LockingExtends(s, s.running.value, l, Event.ReadLock(s.running.value, block), OnR(l));
    case WriteLock(l, block) => LockingExtends(s, s.running.value, l, Event.WriteLock(s.running.value, block), OnW(l));
    case ReadUnlock(l) => LockingExtends(s, s.running.value, l, Event.ReadUnlock(s.running.value), Running);
    case WriteUnlock(l) => LockingExtends(s, s.running.value, l, Event.WriteUnlock(s.running.value), Running);
    case _ => CallExtends(s, e);
  }

  /** How many of the events from i to j are turns of the scheduler. */
  ghost function Turns(es: seq<Ev>, i: nat, j: nat): nat
    requires i <= j <= |es|
    decreases j
  {
    if i == j then 0 else Turns(es, i, j - 1) + if es[j - 1].Turn? then 1 else 0
  }

  /** A step as the run queue sees it. */
  ghost predicate QueueStep(q: seq<TaskId>, q': seq<TaskId>, turn: bool) {
    NoDup(q) && if turn then q != [] && q' == q[1..] else Extends(q, q')
  }

  lemma QueueSteps(ss: seq<Sys>, es: seq<Ev>, n: nat)
    requires Kernel.IsRun(ss, es) && n < |es|
    ensures QueueStep(ss[n].runq, ss[n + 1].runq, es[n].Turn?)
  {
    AlwaysSysInv(ss, es);
    assert SysInv(ss[n]) && Step(ss[n], es[n], ss[n + 1]);
    StepQueue(ss[n], es[n]);
  }

  /** t, which was at position k, is now at the position of k less the turns, or it was run
      by the last event, the turn behind k others. */
  ghost predicate InTurn(ss: seq<Sys>, es: seq<Ev>, i: nat, j: nat, t: TaskId, k: nat)
    requires i <= j <= |es| < |ss|
  {
    var turns := Turns(es, i, j);
    if t in ss[j].runq then turns <= k && k - turns < |ss[j].runq| && ss[j].runq[k - turns] == t
    else i < j && es[j - 1].Turn? && ss[j - 1].runq != [] && ss[j - 1].runq[0] == t && turns == k + 1
  }

  lemma InTurnStep(ss: seq<Sys>, es: seq<Ev>, i: nat, j: nat, t: TaskId, k: nat)
    requires i <= j < |es| < |ss| && InTurn(ss, es, i, j, t, k) && t in ss[j].runq
    requires QueueStep(ss[j].runq, ss[j + 1].runq, es[j].Turn?)
    ensures InTurn(ss, es, i, j + 1, t, k)
  {
    var q, q' := ss[j].runq, ss[j + 1].runq;
    var p := k - Turns(es, i, j);
    if es[j].Turn? && p > 0 { assert q'[p - 1] == t; }
  }

  lemma {:induction false} TurnsBetween(ss: seq<Sys>, es: seq<Ev>, i: nat, j: nat, t: TaskId, k: nat)
    requires i <= j <= |es| < |ss| && k < |ss[i].runq| && ss[i].runq[k] == t
    requires forall m :: i <= m < j ==> t in ss[m].runq
    requires forall m :: i <= m < j ==> QueueStep(ss[m].runq, ss[m + 1].runq, es[m].Turn?)
    ensures InTurn(ss, es, i, j, t, k)
    decreases j
  {
    if i < j {
      TurnsBetween(ss, es, i, j - 1, t, k);
      assert QueueStep(ss[j - 1].runq, ss[j].runq, es[j - 1].Turn?);
      InTurnStep(ss, es, i, j - 1, t, k);
    }
  }

  /** First ready, first run: a ready task with k before it is run by exactly the turn of
      the scheduler that follows k further ones. */
  lemma RunsInTurn(ss: seq<Sys>, es: seq<Ev>, i: nat, j: nat, t: TaskId, k: nat)
    requires Kernel.IsRun(ss, es) && i <= j <= |es| && k < |ss[i].runq| && ss[i].runq[k] == t
    requires forall m :: i <= m < j ==> t in ss[m].runq
    ensures InTurn(ss, es, i, j, t, k)
  {
    forall m | i <= m < j ensures QueueStep(ss[m].runq, ss[m + 1].runq, es[m].Turn?) { QueueSteps(ss, es, m); }
    TurnsBetween(ss, es, i, j, t, k);
  }
}
