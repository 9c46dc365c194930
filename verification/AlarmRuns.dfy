/** Sleeping and polling over a whole run of the fd task among the others: when a sleeper is
    timed out, what it is told, and when the fd task polls. */
module AlarmRuns {
  import opened Base
  import opened FdSpec
  import opened FdRuns

  // ----- deadlines

  /** taskdelay or fdwait. */
  ghost predicate GoesToSleep(e: Ev) {
    e.Delay? || e.FdWait?
  }

  /** The clock when the call is over at the latest: in nanoseconds, of which there are a
      million in each of the ms milliseconds; fdwait waits 30 seconds. */
  ghost function Deadline(e: Ev): int
    requires GoesToSleep(e)
  {
    match e
    case Delay(_, now, ms) => now + ms * 1_000_000
    case FdWait(_, now) => now + 30_000_000_000
  }

  lemma DozeAdds(s: St, when: int, known: bool)
    requires s.running.Some?
    ensures Sleeper(s.running.value, when) in Doze(s, when, known).tm.sleeping
  {
    var sl, t := s.tm.sleeping, s.running.value;
    var i := TaskLists.InsertAt(Alarms(sl), when);
    assert InsertedAt(sl, i, Sleeper(t, when))[i] == Sleeper(t, when);
  }

  lemma DelayedUntil(s: St, u: TaskId, now: int, ms: nat)
    requires s.running.Some?
    ensures Sleeper(s.running.value, now + ms * 1_000_000) in Delayed(s, u, now, ms).tm.sleeping
  {
    DozeAdds(Start(s, u), now + ms * 1_000_000, false);
  }

  lemma WaitedUntil(s: St, u: TaskId, now: int)
    requires s.running.Some?
    ensures Sleeper(s.running.value, now + 30_000_000_000) in Waited(s, u, now).tm.sleeping
  {
    DozeAdds(Start(s, u), now + 30_000_000_000, true);
  }

  lemma SleepsUntil(s: St, e: Ev)
    requires Enabled(s, e) && GoesToSleep(e)
    ensures Sleeper(s.running.value, Deadline(e)) in Do(s, e).tm.sleeping
  {
    match e
    case Delay(u, now, ms) => DelayedUntil(s, u, now, ms);
    case FdWait(u, now) => WaitedUntil(s, u, now);
  }

  /** x goes on sleeping in a step, or its task does not sleep. */
  ghost predicate Lasts(s: St, s': St, x: Sleeper) {
    x in s.tm.sleeping && x.t in Sleeping(s') ==> x in s'.tm.sleeping
  }

  ghost predicate AllLast(ss: seq<St>, x: Sleeper) {
    forall m :: 0 < m < |ss| ==> Lasts(ss[m - 1], ss[m], x)
  }

  /** Whoever is still asleep has the alarm it had. */
  lemma {:induction false} AlarmStays(ss: seq<St>, i: nat, j: nat, x: Sleeper)
    requires AllLast(ss, x) && i <= j < |ss| && x in ss[i].tm.sleeping
    requires forall m :: i < m <= j ==> x.t in Sleeping(ss[m])
    ensures x in ss[j].tm.sleeping
    decreases j
  {
    if i < j {
      AlarmStays(ss, i, j - 1, x);
      assert Lasts(ss[j - 1], ss[j], x);
    }
  }

  lemma RunLasts(ss: seq<St>, es: seq<Ev>, x: Sleeper)
    requires FdRuns.IsRun(ss, es)
    ensures AllLast(ss, x)
  {
    forall m | 0 < m < |ss| ensures Lasts(ss[m - 1], ss[m], x) { StillAsleep(ss, es, m - 1, x); }
  }

  lemma StillAsleep(ss: seq<St>, es: seq<Ev>, i: nat, x: Sleeper)
    requires FdRuns.IsRun(ss, es) && i < |es|
    ensures Lasts(ss[i], ss[i + 1], x)
  {
    FdRuns.AlwaysInv(ss, es, i + 1);
    if x in ss[i].tm.sleeping { SleepEndsExactly(ss, es, i, x); }
  }

  /** The fd task has polled in this step. */
  ghost predicate Polled(e: Ev, s': St) {
    e.FdRun? && s'.phase.InCallback?
  }

  lemma PolledHere(s: St, e: Ev)
    requires Enabled(s, e)
    ensures Polled(e, Do(s, e)) <==> e.FdRun? && Polls(s) && !e.interrupted
  {
  }

  /** A task that called taskdelay or fdwait and has slept since wakes up at a poll with an
      event for it, at the first one when its deadline has come, or at the shutdown, and at
      no other step; it finds 0, 1989 or 5 in its udata, and so can tell which. */
  lemma WakesAtDeadline(ss: seq<St>, es: seq<Ev>, i: nat, j: nat, t: TaskId)
    requires FdRuns.IsRun(ss, es) && i < j < |es| && GoesToSleep(es[i]) && ss[i].running == Some(t)
    requires forall m :: i < m <= j ==> t in Sleeping(ss[m])
    ensures var e, s' := es[j], ss[j + 1];
      t !in Sleeping(s') <==>
        (Polled(e, s') && (t in e.es || Deadline(es[i]) <= e.now)) || e == FdBack(true)
    ensures var e, s' := es[j], ss[j + 1];
      t !in Sleeping(s') ==>
        && t in s'.tm.runq && t in s'.tm.udata
        && s'.tm.udata[t] == if e == FdBack(true) then 5 else if t in e.es then 0 else 1989
  {
    var x := Sleeper(t, Deadline(es[i]));
    SleepsUntil(ss[i], es[i]);
    RunLasts(ss, es, x);
    AlarmStays(ss, i + 1, j, x);
    SleepEndsExactly(ss, es, j, x);
    PolledHere(ss[j], es[j]);
    FdRuns.AlwaysInv(ss, es, j + 1);
    if x in ss[j + 1].tm.sleeping { NameOf(ss[j + 1].tm.sleeping, x); }
  }

  lemma KnownStays(s: St, e: Ev, t: TaskId)
    requires Inv(s) && Enabled(s, e) && t in Sleeping(s) && t in Sleeping(Do(s, e))
    ensures t in Do(s, e).registered <==> t in s.registered
  {
    assert s.tm.sleeping != [];
  }

  /** epoll is told about a task by fdwait, not by taskdelay, and knows it as long as it
      sleeps: only callers of fdwait are woken by events. */
  lemma {:induction false} KnownToEpoll(ss: seq<St>, es: seq<Ev>, i: nat, j: nat, t: TaskId)
    requires FdRuns.IsRun(ss, es) && i < j <= |es| && GoesToSleep(es[i]) && ss[i].running == Some(t)
    requires forall m :: i < m <= j ==> t in Sleeping(ss[m])
    ensures t in ss[j].registered <==> es[i].FdWait?
    decreases j
  {
    FdRuns.AlwaysInv(ss, es, j - 1);
    if i + 1 < j {
      KnownToEpoll(ss, es, i, j - 1, t);
      assert t in Sleeping(ss[j - 1]) && t in Sleeping(ss[j]);
      KnownStays(ss[j - 1], es[j - 1], t);
    }
  }

  // ----- when the fd task polls

  /** The fd task calls taskyield in this step. */
  ghost predicate FdYields(s: St, s': St) {
    !s.phase.Off? && s.running == Some(s.fd) && s'.phase.InYield? && s'.running.None?
  }

  lemma OthersKeepPhase(s: St, e: Ev)
    requires Enabled(s, e) && !e.FdRun? && s.phase.InYield?
    ensures Do(s, e).phase == s.phase && Do(s, e).fd == s.fd
  {
  }

  lemma {:induction false} PhaseStays(ss: seq<St>, es: seq<Ev>, i: nat, j: nat)
    requires FdRuns.IsRun(ss, es) && i <= j <= |es| && ss[i].phase.InYield?
    requires forall m :: i <= m < j ==> !es[m].FdRun?
    ensures ss[j].phase == ss[i].phase && ss[j].fd == ss[i].fd
    decreases j
  {
    if i < j {
      PhaseStays(ss, es, i, j - 1);
      OthersKeepPhase(ss[j - 1], es[j - 1]);
    }
  }

  /** Coming back from taskyield the fd task polls exactly if nobody was ready when it
      called taskyield; if somebody was, it lets all others run again. */
  lemma PollsWhenIdle(ss: seq<St>, es: seq<Ev>, i: nat, j: nat)
    requires FdRuns.IsRun(ss, es) && i < j < |es| && FdYields(ss[i], ss[i + 1])
    requires es[j].FdRun? && !es[j].interrupted && forall m :: i < m < j ==> !es[m].FdRun?
    ensures if ss[i].tm.runq == [] then Polled(es[j], ss[j + 1]) else FdYields(ss[j], ss[j + 1])
  {
    PhaseStays(ss, es, i + 1, j);
    FdRuns.AlwaysInv(ss, es, j);
    FdRuns.AlwaysInv(ss, es, i);
    YieldMarks(ss[i], es[i]);
    PolledHere(ss[j], es[j]);
  }

  lemma YieldMarks(s: St, e: Ev)
    requires Enabled(s, e) && Inv(s) && FdYields(s, Do(s, e))
    ensures Do(s, e).phase.ahead == |s.tm.runq|
  {
  }

  // ----- who runs

  /** Who runs after a step: the caller goes on except after these calls. */
  lemma RunningExactly(s: St, e: Ev)
    requires Inv(s) && Enabled(s, e)
    ensures Do(s, e).running ==
      if e.Dispatch? then Some(s.tm.runq[0])
      else if Polled(e, Do(s, e)) then s.running
      else if GoesToSleep(e) || e.Switch? || e.Yield? || e.Exit? || e.FdRun? || e.FdBack? then None
      else s.running
  {
  }

  ghost function NewFdTask(s: St, u: TaskId): seq<TaskId> {
    if s.phase.Off? then [u] else []
  }

  /** What each call puts behind the run queue; a turn of the scheduler takes off its head. */
  lemma ReadiedExactly(s: St, e: Ev)
    requires Inv(s) && Enabled(s, e) && !Polled(e, Do(s, e)) && e != FdBack(true)
    ensures Do(s, e).tm.runq ==
      match e
      case Dispatch => s.tm.runq[1..]
      case FdRun(_, _, _) => s.tm.runq + [s.fd]
      case FdBack(_) => s.tm.runq + [s.fd]
      case StartFd(u) => s.tm.runq + NewFdTask(s, u)
      case Delay(u, _, _) => s.tm.runq + NewFdTask(s, u)
      case FdWait(u, _) => s.tm.runq + NewFdTask(s, u)
      case MakeReady(x) => if x in s.tm.runq then s.tm.runq else s.tm.runq + [x]
      case Yield => s.tm.runq + [s.running.value]
      case Create(u) => s.tm.runq + [u]
      case _ => s.tm.runq
  {
    assert s.tm.runq + [] == s.tm.runq;
  }
}
