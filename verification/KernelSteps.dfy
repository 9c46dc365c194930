/** What each step of the whole system does to the caller, to the run queue and to the lock
    of a sleeper. */
module KernelSteps {
  import opened Base
  import opened ChannelSpec
  import opened ChannelData
  import opened LockSpec
  import opened Kernel

  // ----- sleepers do not own their lock

  /** Tasks on rendezvous points were there before, on the same points, and who owns a lock
      now and did not before is on none. */
  ghost predicate NoNewOwner(s: Sys, s': Sys) {
    && |s'.qs| == |s.qs| && |s'.rzs| == |s.rzs|
    && (forall z :: 0 <= z < |s.rzs| ==> s'.rzs[z].l == s.rzs[z].l)
    && (forall t :: t in s'.at && s'.at[t].OnRz? ==> t in s.at && s.at[t] == s'.at[t])
    && (forall l, t :: 0 <= l < |s.qs| && s'.qs[l].owner == Some(t) && s.qs[l].owner != Some(t) && t in s'.at ==>
          !s'.at[t].OnRz?)
  }

  lemma StaysReleased(s: Sys, s': Sys)
    requires Released(s) && NoNewOwner(s, s')
    ensures Released(s')
  {
  }

  lemma LockNoNewOwner(s: Sys, t: TaskId, l: nat, block: bool)
    requires SysInv(s) && s.running == Some(t) && l < |s.qs|
    ensures NoNewOwner(s, DoLock(s, t, l, block))
  {
    Kernel.At(s, t, Running);
  }

  /** The first waiter of the lock gets it, and waits no more. */
  lemma UnlockHandsOver(s: Sys, l: nat)
    requires Placed(s) && l < |s.qs| && QInv(s.qs[l])
    ensures var s', q := DoUnlock(s, l), s.qs[l].waiting;
      && s'.qs == s.qs[l := s'.qs[l]] && s'.rzs == s.rzs && s'.cont == s.cont && s'.running == s.running
      && if q == [] then s'.qs[l] == QL(None, []) && s'.at == s.at && s'.runq == s.runq
         else s'.qs[l] == QL(Some(q[0]), q[1..]) && s'.at == s.at[q[0] := Runnable] && s'.runq == s.runq + [q[0]]
  {
    if s.qs[l].waiting != [] {
      var u := s.qs[l].waiting[0];
      assert s.at + (map x | x in [u] :: Runnable) == s.at[u := Runnable];
    } else {
      assert s.at + (map x | x in [] :: Runnable) == s.at;
    }
  }

  lemma TurnNoNewOwner(s: Sys)
    requires SysInv(s) && Enabled(s, Turn)
    ensures NoNewOwner(s, Do(s, Turn))
  {
    TurnOK(s);
    var t := s.runq[0];
    BegunKeeps(s);
    if t in s.cont && s.cont[t].Relock? { LockNoNewOwner(Begun(s), t, s.cont[t].l, true); }
  }

  lemma SleepReleasesLock(s: Sys, t: TaskId, z: nat)
    requires SysInv(s) && Released(s) && s.running == Some(t) && Enabled(s, Sleep(z))
    ensures Released(DoSleep(s, t, z))
  {
    SleptKeeps(s, t, z);
    var m := Slept(s, t, z);
    Kernel.At(s, t, Running);
    if s.rzs[z].l.Some? {
      var l := s.rzs[z].l.value;
      assert QInv(s.qs[l]);
      assert t !in s.qs[l].waiting by { assert t !in Members(s, OnQ(l)); }
      UnlockHandsOver(m, l);
    }
  }

  lemma RWNoNewOwner(s: Sys, t: TaskId, l: nat, e: Event, p: Place)
    requires l < |s.rws| && !p.OnRz?
    ensures NoNewOwner(s, DoRW(s, t, l, e, p))
  {
  }

  lemma UnlockNoNewOwner(s: Sys, l: nat)
    requires Placed(s) && l < |s.qs| && QInv(s.qs[l])
    ensures NoNewOwner(s, DoUnlock(s, l))
  {
    UnlockHandsOver(s, l);
  }

  lemma CallNoNewOwner(s: Sys, e: Ev)
    requires SysInv(s) && Enabled(s, e) && !e.Turn? && !e.Alternate? && !e.Lock? && !e.Unlock? && !e.Sleep?
    requires !e.ReadLock? && !e.WriteLock? && !e.ReadUnlock? && !e.WriteUnlock?
    ensures NoNewOwner(s, Do(s, e))
  {
  }

  lemma AlternateNoNewOwner(s: Sys, t: TaskId, r: AltResult)
    ensures NoNewOwner(s, Alternated(s, t, r))
  {
  }

  lemma StepNoNewOwner(s: Sys, e: Ev)
    requires SysInv(s) && Enabled(s, e) && !e.Sleep?
    ensures NoNewOwner(s, Do(s, e))
  {
    match e
    case Turn => TurnNoNewOwner(s);
    case Alternate(alts, canblock, j, k) =>
      AlternateNoNewOwner(s, s.running.value, ChanAlt(s.w, s.running.value, alts, canblock, j, k));
    case Lock(l, block) => LockNoNewOwner(s, s.running.value, l, block);
    case Unlock(l) =>
      assert QInv(s.qs[l]);
      UnlockNoNewOwner(s, l);
    case ReadLock(l, block) => RWNoNewOwner(s, s.running.value, l, Event.ReadLock(s.running.value, block), OnR(l));
    case WriteLock(l, block) => RWNoNewOwner(s, s.running.value, l, Event.WriteLock(s.running.value, block), OnW(l));
    case ReadUnlock(l) => RWNoNewOwner(s, s.running.value, l, Event.ReadUnlock(s.running.value), Running);
    case WriteUnlock(l) => RWNoNewOwner(s, s.running.value, l, Event.WriteUnlock(s.running.value), Running);
    case _ => CallNoNewOwner(s, e);
  }

  lemma DoKeepsReleased(s: Sys, e: Ev)
    requires SysInv(s) && Released(s) && Enabled(s, e)
    ensures Released(Do(s, e))
  {
    if e.Sleep? {
      SleepReleasesLock(s, s.running.value, e.z);
    } else {
      StepNoNewOwner(s, e);
      StaysReleased(s, Do(s, e));
    }
  }

  /** Over every run no task sleeps on a rendezvous point as the owner of its lock, so
      those who are to wake it can lock. */
  lemma {:induction false} AlwaysReleased(ss: seq<Sys>, es: seq<Ev>, i: nat)
    requires Kernel.IsRun(ss, es) && i <= |es|
    ensures Released(ss[i])
  {
    if i > 0 {
      AlwaysReleased(ss, es, i - 1);
      RunStep(ss, es, i - 1);
      DoKeepsReleased(ss[i - 1], es[i - 1]);
    }
  }

  /** The head of a queue, if there is one. */
  ghost function FirstOf(q: seq<TaskId>): seq<TaskId> {
    if q == [] then [] else [q[0]]
  }

  /** tasksleep puts the caller behind those who sleep already, and its lock belongs to the
      first who waited for it, who is ready, or to nobody. */
  lemma SleepReleases(s: Sys, z: nat)
    requires SysInv(s) && Enabled(s, Sleep(z))
    ensures var s', t := Do(s, Sleep(z)), s.running.value;
      && s'.running.None? && t in s'.at && s'.at[t] == OnRz(z) && s'.rzs[z].waiting == s.rzs[z].waiting + [t]
      && match s.rzs[z].l
         case None => s'.runq == s.runq && s'.qs == s.qs
         case Some(l) =>
           && s'.runq == s.runq + FirstOf(s.qs[l].waiting)
           && if s.qs[l].waiting == [] then s'.qs[l].owner.None?
              else s'.qs[l].owner == Some(s.qs[l].waiting[0]) && s'.qs[l].waiting == s.qs[l].waiting[1..]
  {
    var t := s.running.value;
    Kernel.At(s, t, Running);
    SleptKeeps(s, t, z);
    if s.rzs[z].l.Some? {
      var l := s.rzs[z].l.value;
      assert QInv(s.qs[l]);
      assert t !in s.qs[l].waiting by { assert t !in Members(s, OnQ(l)); }
      UnlockHandsOver(Slept(s, t, z), l);
    }
  }

  /** taskwakeup makes the first sleeper ready, and only that one; taskwakeupall all. */
  lemma WakeupReadies(s: Sys, z: nat, all: bool)
    requires SysInv(s) && Enabled(s, Wakeup(z, all))
    ensures var s', q := Do(s, Wakeup(z, all)), s.rzs[z].waiting;
      && s'.running == s.running
      && s'.runq == s.runq + (if all then q else FirstOf(q))
      && s'.rzs[z].waiting == (if all || q == [] then [] else q[1..])
  {
    var q := s.rzs[z].waiting;
    if q != [] { assert q[..1] == [q[0]]; }
    assert q[..|q|] == q;
  }

  // ----- who stops, and who becomes ready

  /** Does the caller have to stop running? */
  ghost predicate Stops(s: Sys, e: Ev)
    requires Enabled(s, e) && !e.Turn? && Inv(s.w)
  {
    match e
    case Alternate(alts, canblock, _, _) => canblock && Executable(s.w.chans, alts) == {}
    case Lock(l, block) => block && s.qs[l].owner.Some?
    case ReadLock(l, block) => block && (s.rws[l].l.writer.Some? || s.rws[l].l.wwaiting != [])
    case WriteLock(l, block) => block && (s.rws[l].l.writer.Some? || s.rws[l].rholders != multiset{})
    case Sleep(_) => true
    case Yield => true
    case Switch => true
    case Exit => true
    case _ => false
  }

  /** Where a caller stands that has stopped. */
  ghost function StopsAt(e: Ev): Place {
    match e
    case Alternate(_, _, _, _) => OnAlt
    case Lock(l, _) => OnQ(l)
    case ReadLock(l, _) => OnR(l)
    case WriteLock(l, _) => OnW(l)
    case Sleep(z) => OnRz(z)
    case Yield => Runnable
    case _ => Aside
  }

  /** A caller goes on running after its call except in these cases; then it stands where
      it waits, is ready again behind all others, has stepped aside, or is gone. */
  lemma StopsExactly(s: Sys, e: Ev)
    requires SysInv(s) && Enabled(s, e) && !e.Turn?
    ensures Stopped(s, e, Do(s, e), s.running.value)
  {
    var t := s.running.value;
    DoKeeps(s, e);
    match e
    case Alternate(alts, canblock, j, k) => AlternateStops(s, t, alts, canblock, j, k);
    case Lock(l, block) => LockStops(s, l, block);
    case Unlock(l) => UnlockStops(s, l);
    case ReadLock(l, block) => RWStops(s, t, l, Event.ReadLock(t, block), OnR(l));
    case WriteLock(l, block) => RWStops(s, t, l, Event.WriteLock(t, block), OnW(l));
    case ReadUnlock(l) => RWStops(s, t, l, Event.ReadUnlock(t), Running);
    case WriteUnlock(l) => RWStops(s, t, l, Event.WriteUnlock(t), Running);
    case Sleep(z) => SleepReleases(s, z);
    case _ => CallStops(s, e);
  }

  ghost predicate Stopped(s: Sys, e: Ev, s': Sys, t: TaskId)
    requires Enabled(s, e) && !e.Turn? && Inv(s.w)
  {
    if !Stops(s, e) then s'.running == Some(t) && t in s'.at && s'.at[t] == Running
    else s'.running.None? && if e.Exit? then t !in s'.at else t in s'.at && s'.at[t] == StopsAt(e)
  }

  lemma LockStops(s: Sys, l: nat, block: bool)
    requires SysInv(s) && Enabled(s, Ev.Lock(l, block))
    ensures Stopped(s, Ev.Lock(l, block), Do(s, Ev.Lock(l, block)), s.running.value)
  {
    Kernel.At(s, s.running.value, Running);
  }

  lemma UnlockStops(s: Sys, l: nat)
    requires SysInv(s) && Enabled(s, Ev.Unlock(l)) && SysInv(Do(s, Ev.Unlock(l)))
    ensures Stopped(s, Ev.Unlock(l), Do(s, Ev.Unlock(l)), s.running.value)
  {
    assert QInv(s.qs[l]);
    UnlockHandsOver(s, l);
    StillRuns(s, Do(s, Ev.Unlock(l)), s.running.value);
  }

  lemma CallStops(s: Sys, e: Ev)
    requires SysInv(s) && Enabled(s, e) && SysInv(Do(s, e))
    requires e.Store? || e.ChanCreate? || e.Wakeup? || e.Yield? || e.Create? || e.CreateRaw? || e.Ready? || e.Switch?
      || e.Exit?
    ensures Stopped(s, e, Do(s, e), s.running.value)
  {
    var t, s' := s.running.value, Do(s, e);
    if s'.running == Some(t) { StillRuns(s, s', t); }
  }

  lemma StillRuns(s: Sys, s': Sys, t: TaskId)
    requires SysInv(s') && s'.running == Some(t)
    ensures t in s'.at && s'.at[t] == Running
  {
    Kernel.At(s', t, Running);
  }

  lemma AlternateStops(s: Sys, t: TaskId, alts: seq<Alt>, canblock: bool, j: nat, k: nat)
    requires SysInv(s) && s.running == Some(t) && Listed(s.w.chans, alts)
    ensures var s' := DoAlternate(s, t, alts, canblock, j, k);
      if canblock && Executable(s.w.chans, alts) == {}
      then s'.running.None? && t in s'.at && s'.at[t] == OnAlt
      else s'.running == Some(t) && t in s'.at && s'.at[t] == Running
  {
    AlternateKeeps(s, t, alts, canblock, j, k);
    ReadyIsExecutable(s.w.chans, alts);
    var s' := DoAlternate(s, t, alts, canblock, j, k);
    if !(canblock && Executable(s.w.chans, alts) == {}) { StillRuns(s, s', t); }
  }

  lemma RWStops(s: Sys, t: TaskId, l: nat, e: Event, p: Place)
    requires l < |s.rws| && s.running == Some(t) && HeldInv(s.rws[l])
    requires SysInv(DoRW(s, t, l, e, p))
    ensures var s', h := DoRW(s, t, l, e, p), s.rws[l];
      var stops := match e
        case ReadLock(_, block) => block && (h.l.writer.Some? || h.l.wwaiting != [])
        case WriteLock(_, block) => block && (h.l.writer.Some? || h.rholders != multiset{})
        case _ => false;
      if stops then s'.running.None? && t in s'.at && s'.at[t] == p
      else s'.running == Some(t) && t in s'.at && s'.at[t] == Running
  {
    var s' := DoRW(s, t, l, e, p);
    if s'.running == Some(t) { StillRuns(s, s', t); }
  }

  /** The tasks that a step makes ready, in this order, told from the waiting lists. */
  ghost function Readied(s: Sys, e: Ev): seq<TaskId>
    requires Enabled(s, e)
  {
    match e
    case Unlock(l) => FirstOf(s.qs[l].waiting)
    case ReadUnlock(l) =>
      if s.rws[l].rholders == multiset{s.running.value} then FirstOf(s.rws[l].l.wwaiting) else []
    case WriteUnlock(l) =>
      if s.rws[l].l.rwaiting != [] then s.rws[l].l.rwaiting else FirstOf(s.rws[l].l.wwaiting)
    case Sleep(z) => if s.rzs[z].l.Some? then FirstOf(s.qs[s.rzs[z].l.value].waiting) else []
    case Wakeup(z, all) => if all then s.rzs[z].waiting else FirstOf(s.rzs[z].waiting)
    case Yield => [s.running.value]
    case Create(u) => [u]
    case Ready(u) => [u]
    case _ => []
  }

  /** Every step puts just these tasks behind the run queue; a turn of the scheduler takes
      its head off; and an exchange on a channel adds the one task that it wakes. */
  lemma ReadiedExactly(s: Sys, e: Ev)
    requires SysInv(s) && Enabled(s, e)
    ensures e.Turn? ==> Do(s, e).runq == s.runq[1..]
    ensures e.Alternate? ==> OneWoken(s, Do(s, e))
    ensures !e.Turn? && !e.Alternate? ==> Do(s, e).runq == s.runq + Readied(s, e)
  {
    match e
    case Turn => TurnOK(s);
    case Alternate(alts, canblock, j, k) => ExchangeReadies(s, s.running.value, alts, canblock, j, k);
    case Unlock(l) => UnlockReadies(s, l);
    case ReadUnlock(l) => RWReadies(s, e);
    case WriteUnlock(l) => RWReadies(s, e);
    case Sleep(z) => SleepReleases(s, z);
    case Wakeup(z, all) => WakeupReadies(s, z, all);
    case _ => CallReadies(s, e);
  }

  /** A task on a channel has been woken, or none. */
  ghost predicate OneWoken(s: Sys, s': Sys) {
    if s.w.blocked.Keys <= s'.w.blocked.Keys then s'.runq == s.runq
    else exists u :: u in s.w.blocked && s'.w.blocked == s.w.blocked - {u} && s'.runq == s.runq + [u]
  }

  lemma UnlockReadies(s: Sys, l: nat)
    requires SysInv(s) && Enabled(s, Ev.Unlock(l))
    ensures Do(s, Ev.Unlock(l)).runq == s.runq + Readied(s, Ev.Unlock(l))
  {
    assert QInv(s.qs[l]);
    UnlockHandsOver(s, l);
  }

  lemma RWReadies(s: Sys, e: Ev)
    requires SysInv(s) && Enabled(s, e) && (e.ReadUnlock? || e.WriteUnlock?)
    ensures Do(s, e).runq == s.runq + Readied(s, e)
  {
    assert HeldInv(s.rws[e.l]);
    if e.ReadUnlock? {
      ReadUnlockReadies(s.rws[e.l], s.running.value);
    } else {
      WriteUnlockReadies(s.rws[e.l], s.running.value);
    }
  }

  lemma CallReadies(s: Sys, e: Ev)
    requires SysInv(s) && Enabled(s, e) && !e.Turn? && !e.Alternate? && !e.Unlock? && !e.ReadUnlock?
    requires !e.WriteUnlock? && !e.Sleep? && !e.Wakeup?
    ensures Do(s, e).runq == s.runq + Readied(s, e)
  {
  }

  lemma ReadUnlockReadies(h: Held, t: TaskId)
    requires t in h.rholders && h.l.readers == |h.rholders|
    ensures WokenBy(h, Event.ReadUnlock(t)) == if h.rholders == multiset{t} then FirstOf(h.l.wwaiting) else []
  {
    var rest := h.rholders - multiset{t};
    assert |rest| == h.l.readers - 1 && h.rholders == rest + multiset{t};
    if |rest| == 0 { assert rest == multiset{}; }
  }

  lemma WriteUnlockReadies(h: Held, t: TaskId)
    requires HeldInv(h) && h.l.writer == Some(t)
    ensures WokenBy(h, Event.WriteUnlock(t)) == if h.l.rwaiting != [] then h.l.rwaiting else FirstOf(h.l.wwaiting)
  {
  }

  lemma ExchangeReadies(s: Sys, t: TaskId, alts: seq<Alt>, canblock: bool, j: nat, k: nat)
    requires SysInv(s) && s.running == Some(t) && Listed(s.w.chans, alts)
    ensures OneWoken(s, DoAlternate(s, t, alts, canblock, j, k))
  {
    Kernel.At(s, t, Running);
    assert t !in s.w.blocked by { assert t !in Members(s, OnAlt); }
    CallBlocked(s.w, t, alts, canblock, j, k);
    var r := ChanAlt(s.w, t, alts, canblock, j, k);
    if r.woken.Some? {
      var u := r.woken.value;
      assert u in s.w.blocked && u !in r.w.blocked;
      assert DoAlternate(s, t, alts, canblock, j, k).w.blocked == s.w.blocked - {u};
    }
  }
}
