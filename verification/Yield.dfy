/** taskyield: whatever the tasks in between do, its result is the number of tasks
    that stood in the run queue when it was called. */
module Yield {
  import opened Base
  import opened Scheduler

  /** The run queue and the scheduler's 32-bit switch counter. */
  datatype RunQ = RunQ(q: seq<TaskId>, nswitch: int)

  /** What can happen to them: the scheduler runs the first task, or the running task makes another ready. */
  datatype Act = Dispatch | MakeReady(t: TaskId)

  ghost predicate Possible(s: RunQ, a: Act) {
    a.Dispatch? ==> s.q != []
  }

  ghost function Do(s: RunQ, a: Act): RunQ
    requires Possible(s, a)
  {
    match a
    case Dispatch => RunQ(s.q[1..], Wrap32(s.nswitch + 1))
    case MakeReady(t) => if t in s.q then s else s.(q := s.q + [t])
  }

  ghost predicate IsRun(ss: seq<RunQ>, acts: seq<Act>) {
    |ss| == |acts| + 1 && forall i :: 0 <= i < |acts| ==> Possible(ss[i], acts[i]) && ss[i + 1] == Do(ss[i], acts[i])
  }

  /** The result taskyield computes from the counter before, n, and after its task switch. */
  function YieldResult(n: int, nswitch: int): int {
    Wrap32(nswitch - n - 1)
  }

  lemma WrapCongruent(x: int)
    ensures exists m :: Wrap32(x) == x + m * 0x1_0000_0000
  {
    assert Wrap32(x) == x + -((x + 0x8000_0000) / 0x1_0000_0000) * 0x1_0000_0000;
  }

  lemma WrapOf(x: int, k: int, m: int)
    requires x == k + m * 0x1_0000_0000 && -0x8000_0000 <= k < 0x8000_0000
    ensures Wrap32(x) == k
  {
  }

  /** t is queued, and the switch that will run it has the number n, up to multiples
      of the counter's range. */
  ghost predicate Ticket(s: RunQ, t: TaskId, n: int) {
    t in s.q && exists m :: s.nswitch + IndexOf(s.q, t) == n + m * 0x1_0000_0000
  }

  lemma IndexAfterPop(q: seq<TaskId>, t: TaskId)
    requires q != [] && NoDup(q) && t in q[1..]
    ensures NoDup(q[1..]) && IndexOf(q, t) == 1 + IndexOf(q[1..], t)
  {
    assert q[1..][IndexOf(q[1..], t)] == t;
  }

  lemma IndexAfterPush(q: seq<TaskId>, x: TaskId, t: TaskId)
    requires NoDup(q) && t in q
    ensures IndexOf(q + [x], t) == IndexOf(q, t) && (x !in q ==> NoDup(q + [x]))
  {
    assert (q + [x])[IndexOf(q, t)] == t;
    assert IndexOf(q + [x], t) < |q| ==> q[IndexOf(q + [x], t)] == t;
  }

  /** Whatever happens to the run queue, a task that stays in it keeps its ticket. */
  lemma TicketStep(s: RunQ, a: Act, t: TaskId, n: int)
    requires Possible(s, a) && NoDup(s.q) && Ticket(s, t, n) && t in Do(s, a).q
    ensures NoDup(Do(s, a).q) && Ticket(Do(s, a), t, n)
  {
    if a.Dispatch? {
      IndexAfterPop(s.q, t);
      var m :| s.nswitch + IndexOf(s.q, t) == n + m * 0x1_0000_0000;
      WrapCongruent(s.nswitch + 1);
      var m1 :| Wrap32(s.nswitch + 1) == s.nswitch + 1 + m1 * 0x1_0000_0000;
      assert Wrap32(s.nswitch + 1) + IndexOf(s.q[1..], t) == n + (m + m1) * 0x1_0000_0000;
    } else {
      IndexAfterPush(s.q, a.t, t);
    }
  }

  /** When the holder of ticket n + ahead is run, taskyield computes ahead. */
  lemma TicketDue(s: RunQ, t: TaskId, n: int, ahead: nat)
    requires s.q != [] && s.q[0] == t && Ticket(s, t, n + ahead) && ahead < 0x8000_0000
    ensures YieldResult(n, Wrap32(s.nswitch + 1)) == ahead
  {
    var m :| s.nswitch + IndexOf(s.q, t) == n + ahead + m * 0x1_0000_0000;
    WrapCongruent(s.nswitch + 1);
    var m1 :| Wrap32(s.nswitch + 1) == s.nswitch + 1 + m1 * 0x1_0000_0000;
    WrapOf(Wrap32(s.nswitch + 1) - n - 1, ahead, m + m1);
  }

  lemma {:induction false} TicketKept(ss: seq<RunQ>, acts: seq<Act>, t: TaskId, n: int, i: nat)
    requires IsRun(ss, acts) && i <= |acts| && NoDup(ss[0].q) && Ticket(ss[0], t, n)
    requires forall j :: 0 <= j <= i ==> t in ss[j].q
    ensures NoDup(ss[i].q) && Ticket(ss[i], t, n)
  {
    if i > 0 {
      var h := i - 1;
      TicketKept(ss, acts, t, n, h);
      assert Possible(ss[h], acts[h]) && ss[h + 1] == Do(ss[h], acts[h]) && t in ss[h + 1].q;
      TicketStep(ss[h], acts[h], t, n);
    }
  }

  /** A task that queues up behind others gets the ticket of its place. */
  lemma TicketDrawn(s: RunQ, t: TaskId, ahead: seq<TaskId>)
    requires s.q == ahead + [t] && NoDup(s.q)
    ensures Ticket(s, t, s.nswitch + |ahead|)
  {
    assert s.q[|ahead|] == t && s.q[IndexOf(s.q, t)] == t;
    assert s.nswitch + IndexOf(s.q, t) == s.nswitch + |ahead| + 0 * 0x1_0000_0000;
  }

  /** taskyield by t, when the tasks ahead were in the run queue (fewer than 2^31):
      if nobody but the scheduler takes t off the queue, and it does so at the last
      act, the result is the number of those tasks; even when the counter wraps. */
  lemma YieldCountsReady(ss: seq<RunQ>, acts: seq<Act>, t: TaskId, ahead: seq<TaskId>)
    requires IsRun(ss, acts) && acts != [] && |ahead| < 0x8000_0000
    requires ss[0].q == ahead + [t] && NoDup(ss[0].q)
    requires forall j :: 0 <= j < |acts| ==> t in ss[j].q
    requires acts[|acts| - 1] == Dispatch && ss[|acts| - 1].q[0] == t
    ensures YieldResult(ss[0].nswitch, ss[|acts|].nswitch) == |ahead|
  {
    var n := |acts| - 1;
    TicketDrawn(ss[0], t, ahead);
    TicketKept(ss, acts, t, ss[0].nswitch + |ahead|, n);
    TicketDue(ss[n], t, ss[0].nswitch, |ahead|);
  }
}
