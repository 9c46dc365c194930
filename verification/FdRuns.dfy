/** The fd task among all other tasks, as a state machine. A step is what one task
    does between two task switches, or one turn of the scheduler. */
module FdRuns {
  import opened Base
  import opened FdSpec
  import opened Scheduler
  import Yield

  /** Where the fd task is: not started, queued for its first run, in its call of
      taskyield, entered when the switch counter was mark and ahead tasks were ready,
      or in its callback. */
  datatype Phase = Off | Starting | InYield(mark: int, ahead: nat) | InCallback

  /** The fields behind live are: the fd task, where it is, the tasks known to epoll,
      and how many tasks epoll has woken so far. */
  datatype St = St(
    tm: Timers, running: Option<TaskId>, nswitch: int, live: set<TaskId>,
    fd: TaskId, phase: Phase, registered: set<TaskId>, wakeups: nat)

  /** FdRun: the fd task is switched to; if it polls, the poll is interrupted or finds
      the events es, then the clock shows now, and the callback is called. FdBack: the
      callback has returned; stop says that it returned -1. The other events but
      Dispatch are calls by another task, and those that do not block can be made by
      the callback too. In StartFd, Delay and FdWait, u is the fd task if it has to be
      started. */
  datatype Ev =
    | Dispatch
    | FdRun(es: seq<TaskId>, interrupted: bool, now: int)
    | FdBack(stop: bool)
    | StartFd(u: TaskId)
    | Delay(u: TaskId, now: int, ms: nat)
    | FdWait(u: TaskId, now: int)
    | MakeReady(x: TaskId)
    | Switch
    | Yield
    | Create(u: TaskId)
    | Exit

  /** How long fdwait sleeps at most, in milliseconds. */
  const WAIT := 30000

  ghost function Sleeping(s: St): seq<TaskId> {
    Names(s.tm.sleeping)
  }

  /** An ordinary task runs. */
  ghost predicate Busy(s: St) {
    s.running.Some? && (s.phase.Off? || s.running.value != s.fd)
  }

  /** An ordinary task runs, or the callback of the fd task. */
  ghost predicate Calling(s: St) {
    s.running.Some? && (s.phase.Off? || s.running.value != s.fd || s.phase.InCallback?)
  }

  ghost predicate CanCreate(s: St, u: TaskId) {
    u !in s.live && |s.live| + 1 < 0x8000_0000
  }

  ghost predicate Enabled(s: St, e: Ev) {
    match e
    case Dispatch => s.running.None? && s.tm.taskcount != 0 && s.tm.runq != []
    case FdRun(es, _, _) => (
      && (s.phase.Starting? || s.phase.InYield?) && s.running == Some(s.fd)
      && NoDup(es) && |es| <= 1000 && forall x :: x in es ==> x in s.registered)
    case FdBack(_) => s.phase.InCallback? && s.running == Some(s.fd)
    case StartFd(u) => Calling(s) && (s.phase.Off? ==> CanCreate(s, u))
    case Delay(u, _, _) => Busy(s) && (s.phase.Off? ==> CanCreate(s, u))
    case FdWait(u, _) => Busy(s) && (s.phase.Off? ==> CanCreate(s, u))
    case MakeReady(x) => Calling(s) && x in s.live && s.running != Some(x) && x !in Sleeping(s)
    case Switch => Busy(s)
    case Yield => Busy(s)
    case Create(u) => Calling(s) && CanCreate(s, u)
    case Exit => Busy(s)
  }

  ghost function Push(s: St, t: TaskId): St {
    s.(tm := s.tm.(runq := s.tm.runq + [t]))
  }

  ghost function Created(s: St, u: TaskId): St {
    s.(tm := FdSpec.Create(s.tm, u), live := s.live + {u})
  }

  /** _startfdtask: a new fd task comes with a new epoll instance, which knows nobody. */
  ghost function Start(s: St, u: TaskId): St {
    var s' := s.(tm := Began(s.tm, !s.phase.Off?, u));
    if s.phase.Off? then s'.(live := s.live + {u}, fd := u, phase := Starting, registered := {}) else s'
  }

  /** The running task goes to sleep; known says that epoll is told about it first. */
  ghost function Doze(s: St, when: int, known: bool): St
    requires s.running.Some?
  {
    s.(tm := FdSpec.Delay(s.tm, s.running.value, when), running := None,
       registered := if known then s.registered + {s.running.value} else s.registered)
  }

  ghost function Delayed(s: St, u: TaskId, now: int, ms: nat): St
    requires s.running.Some?
  {
    Doze(Start(s, u), WakeTime(now, ms), false)
  }

  ghost function Waited(s: St, u: TaskId, now: int): St
    requires s.running.Some?
  {
    Doze(Start(s, u), WakeTime(now, WAIT), true)
  }

  /** The fd task calls taskyield. */
  ghost function FdYield(s: St): St {
    Push(s, s.fd).(running := None, phase := InYield(s.nswitch, |s.tm.runq|))
  }

  ghost function Exited(s: St): St
    requires s.running.Some?
  {
    s.(tm := s.tm.(taskcount := s.tm.taskcount - 1), live := s.live - {s.running.value}, running := None)
  }

  /** The fd task has left its loop of taskyield calls and will poll. */
  ghost predicate Polls(s: St) {
    !s.phase.Off? && s.running == Some(s.fd) && s.phase.InYield? && Yield.YieldResult(s.phase.mark, s.nswitch) <= 0
  }

  /** One poll and what it leads to. */
  ghost function Poll(s: St, es: seq<TaskId>, now: int): St {
    s.(tm := Round(s.tm, es, now), wakeups := s.wakeups + |es|, phase := InCallback)
  }

  /** The fd task shuts down. */
  ghost function Stopped(s: St): St
    requires s.running.Some?
  {
    Exited(s.(tm := Shutdown(s.tm))).(phase := Off)
  }

  ghost function Do(s: St, e: Ev): St
    requires Enabled(s, e)
  {
    match e
    case Dispatch =>
      s.(tm := s.tm.(runq := s.tm.runq[1..]), running := Some(s.tm.runq[0]), nswitch := Wrap32(s.nswitch + 1),
         registered := s.registered - {s.tm.runq[0]})
    case FdRun(es, interrupted, now) => if !Polls(s) || interrupted then FdYield(s) else Poll(s, es, now)
    case FdBack(stop) => if stop then Stopped(s) else FdYield(s)
    case StartFd(u) => Start(s, u)
    case Delay(u, now, ms) => Delayed(s, u, now, ms)
    case FdWait(u, now) => Waited(s, u, now)
    case MakeReady(x) => if x in s.tm.runq then s else Push(s, x)
    case Switch => s.(running := None)
    case Yield => Push(s, s.running.value).(running := None)
    case Create(u) => Created(s, u)
    case Exit => Exited(s)
  }

  // ----- the invariant

  ghost predicate Lists(s: St) {
    && NoDup(s.tm.runq) && NoDup(Sleeping(s)) && Sorted(s.tm.sleeping)
    && (forall x :: x in s.tm.runq ==> x in s.live && x !in Sleeping(s))
    && (forall x :: x in Sleeping(s) ==> x in s.live)
    && (s.running.Some? ==>
      s.running.value in s.live && s.running.value !in s.tm.runq && s.running.value !in Sleeping(s))
  }

  /** Whoever epoll knows sleeps, or has been woken and has yet to run. */
  ghost predicate Epoll(s: St) {
    && (forall x :: x in s.registered ==> x in Sleeping(s) || x in s.tm.runq)
    && (!s.phase.Off? ==> s.fd !in s.registered && s.fd !in Sleeping(s))
    && (s.phase.Off? ==> s.tm.sleeping == [])
  }

  ghost predicate Counts(s: St) {
    && |s.live| < 0x8000_0000
    && s.tm.counted == |s.tm.sleeping| + s.wakeups
    && s.tm.taskcount == |s.live| + if s.tm.counted > 0 then 1 else 0
  }

  /** The fd task runs or is ready; in taskyield it holds the ticket behind those that
      were ahead of it; and if nobody was, it is next. */
  ghost predicate FdTurn(s: St) {
    && (!s.phase.Off? ==> s.running == Some(s.fd) || s.fd in s.tm.runq)
    && (s.phase.InCallback? ==> s.running == Some(s.fd))
    && (s.phase.InYield? ==> s.phase.ahead < 0x8000_0000)
    && (s.phase.InYield? && s.running == Some(s.fd) ==>
          && Yield.YieldResult(s.phase.mark, s.nswitch) == s.phase.ahead
          && (s.phase.ahead == 0 ==> s.tm.runq == []))
    && (s.phase.InYield? && s.running != Some(s.fd) ==>
          && Yield.Ticket(Yield.RunQ(s.tm.runq, s.nswitch), s.fd, s.phase.mark + s.phase.ahead)
          && (s.phase.ahead == 0 ==> s.tm.runq == [s.fd] && s.running == None))
  }

  ghost predicate Inv(s: St) {
    Lists(s) && Epoll(s) && Counts(s) && FdTurn(s)
  }

  // ----- each step keeps it

  lemma PushKeepsTurn(s: St, t: TaskId)
    requires FdTurn(s) && NoDup(s.tm.runq) && t !in s.tm.runq && (s.phase.Off? || t != s.fd) && Calling(s)
    ensures FdTurn(Push(s, t))
  {
    if s.phase.InYield? {
      Yield.TicketStep(Yield.RunQ(s.tm.runq, s.nswitch), Yield.MakeReady(t), s.fd, s.phase.mark + s.phase.ahead);
    }
  }

  lemma DispatchKeepsTurn(s: St)
    requires FdTurn(s) && Enabled(s, Dispatch) && NoDup(s.tm.runq)
    ensures FdTurn(Do(s, Dispatch))
  {
    if s.phase.InYield? {
      var q := Yield.RunQ(s.tm.runq, s.nswitch);
      if s.tm.runq[0] == s.fd {
        Yield.TicketDue(q, s.fd, s.phase.mark, s.phase.ahead);
      } else {
        assert s.fd in s.tm.runq[1..];
        Yield.TicketStep(q, Yield.Dispatch, s.fd, s.phase.mark + s.phase.ahead);
      }
    } else if !s.phase.Off? && s.fd in s.tm.runq && s.fd != s.tm.runq[0] {
      assert s.fd in s.tm.runq[1..];
    }
  }

  lemma DispatchKeeps(s: St)
    requires Inv(s) && Enabled(s, Dispatch)
    ensures Inv(Do(s, Dispatch))
  {
    var q := s.tm.runq;
    assert q == [q[0]] + q[1..];
    DispatchKeepsTurn(s);
  }

  lemma CreatedKeeps(s: St, u: TaskId)
    requires Inv(s) && Calling(s) && CanCreate(s, u)
    ensures Inv(Created(s, u)) && (Busy(s) ==> Busy(Created(s, u)))
  {
    PushKeepsTurn(s, u);
  }

  lemma StartKeeps(s: St, u: TaskId)
    requires Inv(s) && Calling(s) && (s.phase.Off? ==> CanCreate(s, u))
    ensures Inv(Start(s, u)) && (Busy(s) ==> Busy(Start(s, u))) && !Start(s, u).phase.Off?
  {
    if s.phase.Off? { CreatedKeeps(s, u); }
  }

  lemma NamesOfInserted(sl: seq<Sleeper>, i: nat, x: Sleeper)
    requires i <= |sl|
    ensures Names(InsertedAt(sl, i, x)) == InsertedAt(Names(sl), i, x.t)
  {
    NamesSplit(sl, i);
    NamesConcat(sl[..i] + [x], sl[i..]);
    NamesConcat(sl[..i], [x]);
    assert Names([x]) == [x.t];
  }

  lemma SameMembers(q: seq<TaskId>, names: seq<TaskId>, i: nat, t: TaskId)
    requires i <= |names| && NoDup(names) && t !in names && q == InsertedAt(names, i, t)
    ensures NoDup(q) && forall x :: x in q <==> x == t || x in names
  {
    InsertedMembers(names, i, t);
  }

  lemma InsertedNames(sl: seq<Sleeper>, i: nat, x: Sleeper)
    requires i <= |sl| && NoDup(Names(sl)) && x.t !in Names(sl)
    ensures NoDup(Names(InsertedAt(sl, i, x)))
    ensures forall t :: t in Names(InsertedAt(sl, i, x)) <==> t == x.t || t in Names(sl)
  {
    NamesOfInserted(sl, i, x);
    SameMembers(Names(InsertedAt(sl, i, x)), Names(sl), i, x.t);
  }

  lemma DozeKeepsLists(s: St, when: int, known: bool)
    requires Lists(s) && s.running.Some?
    ensures Lists(Doze(s, when, known))
    ensures forall x :: x in Sleeping(Doze(s, when, known)) <==> x == s.running.value || x in Sleeping(s)
  {
    var t := s.running.value;
    InsertKeepsSorted(s.tm.sleeping, t, when);
    InsertedNames(s.tm.sleeping, TaskLists.InsertAt(Alarms(s.tm.sleeping), when), Sleeper(t, when));
  }

  lemma DozeKeepsTurn(s: St, when: int, known: bool)
    requires Counts(s) && FdTurn(s) && Busy(s) && !s.phase.Off?
    ensures Counts(Doze(s, when, known)) && FdTurn(Doze(s, when, known))
  {
  }

  lemma DozeKeeps(s: St, when: int, known: bool)
    requires Inv(s) && Busy(s) && !s.phase.Off?
    ensures Inv(Doze(s, when, known))
  {
    DozeKeepsLists(s, when, known);
    DozeKeepsTurn(s, when, known);
  }

  lemma FdYieldKeeps(s: St)
    requires Lists(s) && Epoll(s) && Counts(s) && !s.phase.Off? && s.running == Some(s.fd)
    requires |s.tm.runq| < 0x8000_0000
    ensures Inv(FdYield(s))
  {
    Yield.TicketDrawn(Yield.RunQ(s.tm.runq + [s.fd], s.nswitch), s.fd, s.tm.runq);
  }

  /** There are at most as many ready tasks as live ones. */
  lemma {:induction false} FewerReady(q: seq<TaskId>, live: set<TaskId>)
    requires NoDup(q) && forall x :: x in q ==> x in live
    ensures |q| <= |live|
  {
    if q != [] {
      forall x | x in q[1..] ensures x in live - {q[0]} {
        var i :| 0 <= i < |q[1..]| && q[1..][i] == x;
        assert q[0] != q[i + 1];
      }
      FewerReady(q[1..], live - {q[0]});
    }
  }

  /** At a poll nobody else is ready, and whoever epoll knows is asleep. */
  lemma PollFindsAllAsleep(s: St)
    requires Inv(s) && Polls(s)
    ensures s.tm.runq == [] && forall x :: x in s.registered ==> x in Sleeping(s)
  {
  }

  /** A poll splits the sleepers between the run queue and the queue of sleepers. */
  lemma PollSplits(s: St, es: seq<TaskId>, now: int)
    requires s.tm.runq == []
    ensures var s' := Poll(s, es, now);
      s'.tm.runq + Sleeping(s') == es + Names(Without(s.tm.sleeping, Elems(es)))
  {
    var left := Without(s.tm.sleeping, Elems(es));
    var n := Due(left, now);
    RoundLists(s.tm, es, now);
    NamesSplit(left, n);
    assert Poll(s, es, now).tm.runq == es + Names(left[..n]);
    Regroup(es, Names(left[..n]), Names(left[n..]));
  }

  lemma PollLists(s: St, es: seq<TaskId>, now: int)
    requires NoDup(Sleeping(s)) && s.tm.runq == [] && NoDup(es) && forall x :: x in es ==> x in Sleeping(s)
    ensures var s' := Poll(s, es, now);
      && NoDup(s'.tm.runq + Sleeping(s'))
      && forall x :: x in s'.tm.runq + Sleeping(s') <==> x in Sleeping(s)
  {
    PollSplits(s, es, now);
    WokenOnce(s.tm, es);
    WithoutNames(s.tm.sleeping, Elems(es));
  }

  lemma PollSorted(s: St, es: seq<TaskId>, now: int)
    requires Sorted(s.tm.sleeping)
    ensures Sorted(Poll(s, es, now).tm.sleeping)
  {
    RoundLists(s.tm, es, now);
    WithoutSorted(s.tm.sleeping, Elems(es));
  }

  lemma PollKeepsLists(s: St, es: seq<TaskId>, now: int)
    requires Lists(s) && s.tm.runq == [] && NoDup(es) && forall x :: x in es ==> x in Sleeping(s)
    ensures Lists(Poll(s, es, now))
    ensures forall x :: x in Sleeping(s) <==> x in Sleeping(Poll(s, es, now)) || x in Poll(s, es, now).tm.runq
  {
    PollLists(s, es, now);
    PollSorted(s, es, now);
    RoundLists(s.tm, es, now);
    var s' := Poll(s, es, now);
    SplitNoDup(s'.tm.runq, Sleeping(s'));
    var all := s'.tm.runq + Sleeping(s');
    assert forall x :: x in all <==> x in s'.tm.runq || x in Sleeping(s');
  }

  lemma SplitNoDup(a: seq<TaskId>, b: seq<TaskId>)
    requires NoDup(a + b)
    ensures NoDup(a) && NoDup(b) && forall x :: x in a ==> x !in b
  {
    var c := a + b;
    assert c[..|a|] == a && c[|a|..] == b;
    forall i, j | 0 <= i < |a| && 0 <= j < |b| ensures a[i] != b[j] {
      assert c[i] == a[i] && c[|a| + j] == b[j];
    }
  }

  lemma WakeFirstCounts(tm: Timers, n: nat, v: int, live: int)
    requires n <= |tm.sleeping| <= tm.counted && tm.taskcount == live + if tm.counted > 0 then 1 else 0
    ensures var tm' := WakeFirst(tm, n, v);
      && tm'.counted - |tm'.sleeping| == tm.counted - |tm.sleeping|
      && tm'.taskcount == live + if tm'.counted > 0 then 1 else 0
  {
  }

  lemma {:induction false} WithoutFewer(sl: seq<Sleeper>, es: seq<TaskId>)
    requires NoDup(Names(sl)) && NoDup(es) && forall x :: x in es ==> x in Names(sl)
    ensures |Without(sl, Elems(es))| == |sl| - |es|
  {
    var gone := Elems(es);
    if es == [] {
      WithoutNone(sl, gone);
    } else {
      var n := |es| - 1;
      var less, t := es[..n], es[n];
      var fewer := Elems(less);
      assert es == less + [t] && gone == fewer + {t};
      assert t !in fewer;
      WithoutFewer(sl, less);
      WithoutOneMore(sl, fewer, t);
    }
  }

  lemma PollKeepsCounts(s: St, es: seq<TaskId>, now: int)
    requires Counts(s) && NoDup(Sleeping(s)) && NoDup(es) && forall x :: x in es ==> x in Sleeping(s)
    ensures Counts(Poll(s, es, now))
  {
    WithoutFewer(s.tm.sleeping, es);
    var tm1 := TakeEvents(s.tm, es);
    var n := Due(tm1.sleeping, now);
    WakeFirstCounts(tm1, n, TIMEOUT, |s.live|);
  }

  lemma PollKeeps(s: St, es: seq<TaskId>, now: int)
    requires Inv(s) && Polls(s) && Enabled(s, FdRun(es, false, now))
    ensures Inv(Poll(s, es, now))
  {
    PollFindsAllAsleep(s);
    PollKeepsLists(s, es, now);
    PollKeepsCounts(s, es, now);
  }

  lemma FdYieldsKeeps(s: St)
    requires Inv(s) && !s.phase.Off? && s.running == Some(s.fd)
    ensures Inv(FdYield(s))
  {
    FewerReady(s.tm.runq, s.live);
    FdYieldKeeps(s);
  }

  lemma FdRunKeeps(s: St, es: seq<TaskId>, interrupted: bool, now: int)
    requires Inv(s) && Enabled(s, FdRun(es, interrupted, now))
    ensures Inv(Do(s, FdRun(es, interrupted, now)))
  {
    if !Polls(s) || interrupted { FdYieldsKeeps(s); } else { PollKeeps(s, es, now); }
  }

  lemma StoppedKeeps(s: St)
    requires Inv(s) && Enabled(s, FdBack(true))
    ensures Inv(Stopped(s))
  {
    ShutdownLists(s.tm);
    WakeFirstCounts(s.tm, |s.tm.sleeping|, EIO, |s.live|);
    var q := s.tm.runq + Sleeping(s);
    forall i, j | 0 <= i < |s.tm.runq| && 0 <= j < |Sleeping(s)| ensures s.tm.runq[i] != Sleeping(s)[j] {
      assert s.tm.runq[i] in s.tm.runq && Sleeping(s)[j] in Sleeping(s);
    }
    assert NoDup(q) && forall x :: x in q <==> x in s.tm.runq || x in Sleeping(s);
  }

  lemma MakeReadyKeeps(s: St, x: TaskId)
    requires Inv(s) && Enabled(s, MakeReady(x))
    ensures Inv(Do(s, MakeReady(x)))
  {
    if x !in s.tm.runq { PushKeepsTurn(s, x); }
  }

  lemma YieldKeeps(s: St)
    requires Inv(s) && Enabled(s, Ev.Yield)
    ensures Inv(Do(s, Ev.Yield))
  {
    PushKeepsTurn(s, s.running.value);
  }

  lemma LeaveKeeps(s: St, e: Ev)
    requires Inv(s) && Enabled(s, e) && (e.Switch? || e.Exit?)
    ensures Inv(Do(s, e))
  {
  }

  lemma SleepKeeps(s: St, u: TaskId, when: int, known: bool)
    requires Inv(s) && Busy(s) && (s.phase.Off? ==> CanCreate(s, u))
    ensures Inv(Doze(Start(s, u), when, known))
  {
    StartKeeps(s, u);
    DozeKeeps(Start(s, u), when, known);
  }

  lemma DelayedKeeps(s: St, u: TaskId, now: int, ms: nat)
    requires Inv(s) && Busy(s) && (s.phase.Off? ==> CanCreate(s, u))
    ensures Inv(Delayed(s, u, now, ms))
  {
    SleepKeeps(s, u, WakeTime(now, ms), false);
  }

  lemma WaitedKeeps(s: St, u: TaskId, now: int)
    requires Inv(s) && Busy(s) && (s.phase.Off? ==> CanCreate(s, u))
    ensures Inv(Waited(s, u, now))
  {
    SleepKeeps(s, u, WakeTime(now, WAIT), true);
  }

  lemma DoKeeps(s: St, e: Ev)
    requires Inv(s) && Enabled(s, e)
    ensures Inv(Do(s, e))
  {
    match e
    case Dispatch => DispatchKeeps(s);
    case FdRun(es, interrupted, now) => FdRunKeeps(s, es, interrupted, now);
    case FdBack(stop) => if stop { StoppedKeeps(s); } else { FdYieldsKeeps(s); }
    case StartFd(u) => StartKeeps(s, u);
    case Delay(u, now, ms) => DelayedKeeps(s, u, now, ms);
    case FdWait(u, now) => WaitedKeeps(s, u, now);
    case MakeReady(x) => MakeReadyKeeps(s, x);
    case Yield => YieldKeeps(s);
    case Create(u) => CreatedKeeps(s, u);
    case _ => LeaveKeeps(s, e);
  }

  // ----- runs

  /** The program starts with one ready task, taskmain. */
  ghost function Boot(main: TaskId): St {
    St(Timers([], [main], 0, 1, map[]), None, 0, {main}, 0, Off, {}, 0)
  }

  ghost predicate IsRun(ss: seq<St>, es: seq<Ev>) {
    && |ss| == |es| + 1 && (exists main :: ss[0] == Boot(main))
    && forall i :: 0 <= i < |es| ==> Enabled(ss[i], es[i]) && ss[i + 1] == Do(ss[i], es[i])
  }

  lemma {:induction false} AlwaysInv(ss: seq<St>, es: seq<Ev>, i: nat)
    requires IsRun(ss, es) && i <= |es|
    ensures Inv(ss[i])
  {
    if i > 0 {
      AlwaysInv(ss, es, i - 1);
      DoKeeps(ss[i - 1], es[i - 1]);
    }
  }

  /** Whenever the fd task polls, nobody else is ready and every task known to epoll
      sleeps: each event is for a member of the queue it is then removed from. */
  lemma EpollSound(ss: seq<St>, es: seq<Ev>, i: nat)
    requires IsRun(ss, es) && i < |es| && es[i].FdRun? && Polls(ss[i])
    ensures ss[i].tm.runq == []
    ensures forall x :: x in ss[i].registered ==> x in Sleeping(ss[i])
    ensures forall x :: x in es[i].es ==> x in Sleeping(ss[i])
  {
    AlwaysInv(ss, es, i);
    PollFindsAllAsleep(ss[i]);
  }

  /** When a task stops sleeping: it had an event, or its alarm was due, or the fd
      task shut down. */
  ghost predicate WokenBy(s: St, x: Sleeper, e: Ev) {
    (e.FdRun? && Polls(s) && !e.interrupted && (x.t in e.es || x.alarm <= e.now)) || e == FdBack(true)
  }

  /** What the task is then told. */
  function Told(x: Sleeper, e: Ev): int {
    if e.FdRun? then if x.t in e.es then EVENT else TIMEOUT else EIO
  }

  lemma DozeKeepsSleepers(s: St, when: int, known: bool)
    requires s.running.Some?
    ensures forall x :: x in s.tm.sleeping ==> x in Doze(s, when, known).tm.sleeping
  {
    var sl, t := s.tm.sleeping, s.running.value;
    var i := TaskLists.InsertAt(Alarms(sl), when);
    var r := InsertedAt(sl, i, Sleeper(t, when));
    forall x | x in sl ensures x in r {
      var j :| 0 <= j < |sl| && sl[j] == x;
      assert r[if j < i then j else j + 1] == x;
    }
  }

  lemma PollWakes(s: St, es: seq<TaskId>, now: int, x: Sleeper)
    requires Inv(s) && Polls(s) && Enabled(s, FdRun(es, false, now)) && x in s.tm.sleeping
    ensures var s' := Poll(s, es, now);
      && (x !in s'.tm.sleeping <==> x.t in es || x.alarm <= now)
      && (x !in s'.tm.sleeping ==> x.t in s'.tm.runq)
  {
    PollFindsAllAsleep(s);
    PollKeepsLists(s, es, now);
    RoundExact(s.tm, es, now);
    var left := Without(s.tm.sleeping, Elems(es));
    DuePart(left, now);
    InNames(s.tm.sleeping, x.t);
  }

  lemma ToldFirst(udata: map<TaskId, int>, es: seq<TaskId>, left: seq<Sleeper>, n: nat, x: Sleeper)
    requires n <= |left| && x.t in es && x.t !in Names(left)
    ensures var told := Mark(Mark(udata, es, EVENT), Names(left[..n]), TIMEOUT);
      x.t in told && told[x.t] == EVENT
  {
    NamesSplit(left, n);
    assert x.t !in Names(left[..n]) + Names(left[n..]);
  }

  lemma NameOf(sl: seq<Sleeper>, x: Sleeper)
    requires x in sl
    ensures x.t in Names(sl)
  {
    var i :| 0 <= i < |sl| && sl[i] == x;
    assert Names(sl)[i] == x.t;
  }

  lemma ToldLate(udata: map<TaskId, int>, es: seq<TaskId>, left: seq<Sleeper>, n: nat, x: Sleeper)
    requires n <= |left| && x in left[..n]
    ensures var told := Mark(Mark(udata, es, EVENT), Names(left[..n]), TIMEOUT);
      x.t in told && told[x.t] == TIMEOUT
  {
    NameOf(left[..n], x);
  }

  /** The marks of a poll. */
  lemma PollMarks(s: St, es: seq<TaskId>, now: int)
    ensures var left := Without(s.tm.sleeping, Elems(es));
      var n := Due(left, now);
      Poll(s, es, now).tm.udata == Mark(Mark(s.tm.udata, es, EVENT), Names(left[..n]), TIMEOUT)
  {
  }

  lemma PollTells(s: St, es: seq<TaskId>, now: int, x: Sleeper)
    requires Sorted(s.tm.sleeping) && NoDup(Sleeping(s)) && x in s.tm.sleeping
    requires x.t in es || x.alarm <= now
    ensures var told := Poll(s, es, now).tm.udata;
      x.t in told && told[x.t] == if x.t in es then EVENT else TIMEOUT
  {
    var gone := Elems(es);
    var left := Without(s.tm.sleeping, gone);
    var n := Due(left, now);
    PollMarks(s, es, now);
    if x.t in es {
      WithoutNames(s.tm.sleeping, gone);
      assert x.t !in Names(left);
      ToldFirst(s.tm.udata, es, left, n, x);
    } else {
      WithoutMembers(s.tm.sleeping, gone);
      WithoutSorted(s.tm.sleeping, gone);
      DuePart(left, now);
      ToldLate(s.tm.udata, es, left, n, x);
    }
  }

  lemma SleepEnds(s: St, e: Ev, x: Sleeper)
    requires Inv(s) && Enabled(s, e) && x in s.tm.sleeping
    ensures var s' := Do(s, e);
      && (x !in s'.tm.sleeping <==> WokenBy(s, x, e))
      && (WokenBy(s, x, e) ==> x.t in s'.tm.runq && x.t in s'.tm.udata && s'.tm.udata[x.t] == Told(x, e))
  {
    match e
    case FdRun(es, interrupted, now) =>
      if Polls(s) && !interrupted {
        PollWakes(s, es, now, x);
        if WokenBy(s, x, e) { PollTells(s, es, now, x); }
      }
    case FdBack(stop) =>
      if stop {
        ShutdownLists(s.tm);
        NameOf(s.tm.sleeping, x);
      }
    case Delay(u, now, ms) => DozeKeepsSleepers(Start(s, u), WakeTime(now, ms), false);
    case FdWait(u, now) => DozeKeepsSleepers(Start(s, u), WakeTime(now, WAIT), true);
    case _ =>
  }

  /** A sleeper stops sleeping in exactly these cases; it is then ready, and told which. */
  lemma SleepEndsExactly(ss: seq<St>, es: seq<Ev>, i: nat, x: Sleeper)
    requires IsRun(ss, es) && i < |es| && x in ss[i].tm.sleeping
    ensures x !in ss[i + 1].tm.sleeping <==> WokenBy(ss[i], x, es[i])
    ensures WokenBy(ss[i], x, es[i]) ==>
      && x.t in ss[i + 1].tm.runq
      && x.t in ss[i + 1].tm.udata && ss[i + 1].tm.udata[x.t] == Told(x, es[i])
  {
    AlwaysInv(ss, es, i);
    SleepEnds(ss[i], es[i], x);
  }

  // ----- the count of live tasks

  lemma {:induction false} WakeupsGrow(ss: seq<St>, es: seq<Ev>, i: nat, j: nat)
    requires IsRun(ss, es) && i <= j <= |es|
    ensures ss[i].wakeups <= ss[j].wakeups
  {
    if i < j { WakeupsGrow(ss, es, i, j - 1); }
  }

  /** taskcount counts the live tasks, and one more exactly while somebody sleeps or
      once epoll has ever woken a task. */
  lemma TaskCountExact(ss: seq<St>, es: seq<Ev>, i: nat)
    requires IsRun(ss, es) && i <= |es|
    ensures ss[i].tm.counted == |ss[i].tm.sleeping| + ss[i].wakeups
    ensures ss[i].tm.taskcount == |ss[i].live| <==> ss[i].tm.sleeping == [] && ss[i].wakeups == 0
    ensures ss[i].tm.taskcount == |ss[i].live| + 1 <==> ss[i].tm.sleeping != [] || ss[i].wakeups > 0
  {
    AlwaysInv(ss, es, i);
  }

  /** After a shutdown nobody sleeps, and only epoll wakeups still count as sleepers. */
  lemma ShutdownCounts(ss: seq<St>, es: seq<Ev>, i: nat)
    requires IsRun(ss, es) && i < |es| && es[i] == FdBack(true)
    ensures var s := ss[i + 1];
      && s.tm.sleeping == [] && s.tm.counted == s.wakeups
      && s.tm.taskcount == |s.live| + if s.wakeups > 0 then 1 else 0
  {
    AlwaysInv(ss, es, i + 1);
    ShutdownLists(ss[i].tm);
  }

  /** After the first epoll wakeup the scheduler can no longer end its loop by the count
      of tasks, even when no task is left; without any, it does so when none is left. */
  lemma CountNeverZeroAgain(ss: seq<St>, es: seq<Ev>, i: nat, j: nat)
    requires IsRun(ss, es) && i <= j <= |es|
    ensures ss[i].wakeups > 0 ==> ss[j].tm.taskcount > 0
    ensures ss[i].live == {} ==> (ss[i].tm.taskcount == 0 <==> ss[i].wakeups == 0)
  {
    AlwaysInv(ss, es, i);
    AlwaysInv(ss, es, j);
    WakeupsGrow(ss, es, i, j);
    if ss[i].live == {} && ss[i].tm.sleeping != [] { assert Sleeping(ss[i])[0] in ss[i].live; }
  }

  // ----- a run that ends with no task left and the count at one

  /** Task 0 has called fdwait, which has started the fd task, task 1. */
  ghost function Waiting(): St {
    St(Timers([Sleeper(0, WakeTime(0, WAIT))], [1], 1, 3, map[]), None, 1, {0, 1}, 1, Starting, {0}, 0)
  }

  /** The fd task has called taskyield. */
  ghost function Yielded(): St {
    St(Timers([Sleeper(0, WakeTime(0, WAIT))], [1], 1, 3, map[]), None, 2, {0, 1}, 1, InYield(2, 0), {0}, 0)
  }

  /** The fd task polls for the first time. */
  ghost function Polling(): St {
    St(Timers([Sleeper(0, WakeTime(0, WAIT))], [], 1, 3, map[]), Some(1), 3, {0, 1}, 1, InYield(2, 0), {0}, 0)
  }

  /** The poll has found an event for task 0. */
  ghost function Found(): St {
    St(Timers([], [0], 1, 3, map[0 := EVENT]), Some(1), 3, {0, 1}, 1, InCallback, {0}, 1)
  }

  /** The fd task has shut down and task 0 runs again. */
  ghost function Woken(): St {
    St(Timers([], [], 1, 2, map[0 := EVENT]), Some(0), 4, {0}, 1, Off, {}, 1)
  }

  ghost function NobodyLeft(): St {
    St(Timers([], [], 1, 1, map[0 := EVENT]), None, 4, {}, 1, Off, {}, 1)
  }

  /** The steps es lead from s to s'. */
  ghost predicate Leads(s: St, es: seq<Ev>, s': St)
    decreases |es|
  {
    if es == [] then s' == s else Enabled(s, es[0]) && Leads(Do(s, es[0]), es[1..], s')
  }

  lemma ToWaiting()
    ensures Leads(Boot(0), [Dispatch, FdWait(1, 0)], Waiting())
  {
    var s := Do(Boot(0), Dispatch);
    assert Wrap32(0 + 1) == 1;
    assert s == St(Timers([], [], 0, 1, map[]), Some(0), 1, {0}, 0, Off, {}, 0);
    assert Alarms([]) == [];
    assert Do(s, FdWait(1, 0)) == Waiting();
    OneStep(s, FdWait(1, 0), Waiting());
    TwoSteps(Boot(0), Dispatch, s, FdWait(1, 0), Waiting());
  }

  lemma OneStep(s: St, e: Ev, s': St)
    requires Enabled(s, e) && Do(s, e) == s'
    ensures Leads(s, [e], s')
  {
    assert [e][1..] == [];
  }

  lemma TwoSteps(s: St, e: Ev, m: St, e': Ev, s': St)
    requires Enabled(s, e) && Do(s, e) == m && Enabled(m, e') && Do(m, e') == s'
    ensures Leads(s, [e, e'], s')
  {
    assert [e, e'][1..] == [e'];
    OneStep(m, e', s');
  }

  lemma ToPolling()
    ensures Leads(Waiting(), [Dispatch, FdRun([], false, 0)], Yielded())
    ensures Leads(Yielded(), [Dispatch], Polling())
  {
    var s := Do(Waiting(), Dispatch);
    assert Wrap32(1 + 1) == 2 && Wrap32(2 + 1) == 3;
    assert s == St(Timers([Sleeper(0, WakeTime(0, WAIT))], [], 1, 3, map[]), Some(1), 2, {0, 1}, 1, Starting, {0}, 0);
    TwoSteps(Waiting(), Dispatch, s, FdRun([], false, 0), Yielded());
    OneStep(Yielded(), Dispatch, Polling());
  }

  lemma ToFound()
    ensures Leads(Polling(), [FdRun([0], false, 0)], Found())
  {
    assert Wrap32(3 - 2 - 1) == 0;
    var tm := Polling().tm;
    assert Elems<TaskId>([0]) == {0};
    assert Without([Sleeper(0, WakeTime(0, WAIT))], {0}) == [] by { assert [Sleeper(0, WakeTime(0, WAIT))][1..] == []; }
    assert TakeEvents(tm, [0]) == Timers([], [0], 1, 3, map[0 := EVENT]);
    assert Mark(map[0 := EVENT], [], TIMEOUT) == map[0 := EVENT];
    assert Round(tm, [0], 0) == Timers([], [0], 1, 3, map[0 := EVENT]);
    OneStep(Polling(), FdRun([0], false, 0), Found());
  }

  lemma ToNobody()
    ensures Leads(Found(), [FdBack(true), Dispatch], Woken())
    ensures Leads(Woken(), [Exit], NobodyLeft())
  {
    assert Wrap32(3 + 1) == 4;
    assert Mark(map[0 := EVENT], [], EIO) == map[0 := EVENT];
    var s := Do(Found(), FdBack(true));
    assert s == St(Timers([], [0], 1, 2, map[0 := EVENT]), None, 3, {0}, 1, Off, {0}, 1);
    TwoSteps(Found(), FdBack(true), s, Dispatch, Woken());
    OneStep(Woken(), Exit, NobodyLeft());
  }

  lemma {:induction false} Joined(s: St, a: seq<Ev>, m: St, b: seq<Ev>, s': St)
    requires Leads(s, a, m) && Leads(m, b, s')
    ensures Leads(s, a + b, s')
    decreases |a|
  {
    if a == [] {
      assert a + b == b;
    } else {
      assert (a + b)[1..] == a[1..] + b;
      Joined(Do(s, a[0]), a[1..], m, b, s');
    }
  }

  lemma {:induction false} StatesOf(s: St, es: seq<Ev>, s': St) returns (ss: seq<St>)
    requires Leads(s, es, s')
    ensures |ss| == |es| + 1 && ss[0] == s && ss[|es|] == s'
    ensures forall i :: 0 <= i < |es| ==> Enabled(ss[i], es[i]) && ss[i + 1] == Do(ss[i], es[i])
    decreases |es|
  {
    if es == [] {
      ss := [s];
    } else {
      var rest := StatesOf(Do(s, es[0]), es[1..], s');
      ss := [s] + rest;
      forall i | 0 <= i < |es| ensures Enabled(ss[i], es[i]) && ss[i + 1] == Do(ss[i], es[i]) {
        if i > 0 { assert es[i] == es[1..][i - 1] && ss[i] == rest[i - 1] && ss[i + 1] == rest[i]; }
      }
    }
  }

  /** So it does happen: a run after which no task is left, but the count is not zero. */
  lemma CountStaysAtOne() returns (ss: seq<St>, es: seq<Ev>)
    ensures IsRun(ss, es)
    ensures var s := ss[|es|];
      s.live == {} && s.tm.runq == [] && s.running == None && s.wakeups == 1 && s.tm.taskcount == 1
  {
    ToWaiting();
    ToPolling();
    ToFound();
    ToNobody();
    var a, b := [Dispatch, FdWait(1, 0)], [Dispatch, FdRun([], false, 0)];
    Joined(Boot(0), a, Waiting(), b, Yielded());
    Joined(Boot(0), a + b, Yielded(), [Dispatch], Polling());
    Joined(Boot(0), a + b + [Dispatch], Polling(), [FdRun([0], false, 0)], Found());
    Joined(Boot(0), a + b + [Dispatch] + [FdRun([0], false, 0)], Found(), [FdBack(true), Dispatch], Woken());
    Joined(Boot(0), a + b + [Dispatch] + [FdRun([0], false, 0)] + [FdBack(true), Dispatch],
      Woken(), [Exit], NobodyLeft());
    es := a + b + [Dispatch] + [FdRun([0], false, 0)] + [FdBack(true), Dispatch] + [Exit];
    ss := StatesOf(Boot(0), es, NobodyLeft());
  }
}
