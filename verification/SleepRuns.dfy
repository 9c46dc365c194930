/** tasksleep over a whole run: from the call to its return, through the wait on the
    rendezvous point, the wakeup, and the wait for the lock. */
module SleepRuns {
  import opened Base
  import opened ChannelSpec
  import opened LockSpec
  import opened Kernel

  /** How far a call of tasksleep has come. */
  datatype Stage = Asleep | Awake | Queuing | Owning | Back

  /** Task t, which called tasksleep on z, has come that far. */
  ghost predicate InStage(s: Sys, t: TaskId, z: nat, g: Stage) {
    && z < |s.rzs| && t in s.at && t in s.cont
    && (s.rzs[z].l.Some? ==> s.rzs[z].l.value < |s.qs|)
    && match g
       case Asleep => s.at[t] == OnRz(z)
       case Awake => s.at[t] == Runnable && s.cont[t] == AfterSleep(s.rzs[z])
       case Queuing => s.rzs[z].l.Some? && s.at[t] == OnQ(s.rzs[z].l.value)
       case Owning => s.rzs[z].l.Some? && s.at[t] == Runnable && s.cont[t] == CheckOwner(s.rzs[z].l.value)
       case Back => s.running == Some(t) && (s.rzs[z].l.Some? ==> s.qs[s.rzs[z].l.value].owner == Some(t))
  }

  /** A wakeup on z takes t off the waiting list. */
  ghost predicate Wakes(s: Sys, e: Ev, s': Sys, t: TaskId, z: nat) {
    && e.Wakeup? && e.z == z && z < |s.rzs| && z < |s'.rzs|
    && t in s.rzs[z].waiting && t !in s'.rzs[z].waiting
  }

  /** Event m of the run is a wakeup on z that makes t ready. */
  ghost predicate WokenAt(ss: seq<Sys>, es: seq<Ev>, t: TaskId, z: nat, m: nat)
    requires |ss| == |es| + 1
  {
    m < |es| && Wakes(ss[m], es[m], ss[m + 1], t, z)
  }

  // ----- what a step does to a task that does not run

  /** t's place is the same, or it has been made ready. */
  ghost predicate Stands(s: Sys, s': Sys, t: TaskId) {
    && t in s.at && t in s'.at && t in s.cont && t in s'.cont
    && s'.cont[t] == s.cont[t] && (s'.at[t] == s.at[t] || s'.at[t] == Runnable)
  }

  /** The objects are the same, whatever their state. */
  ghost predicate SameObjects(s: Sys, s': Sys) {
    && |s'.qs| == |s.qs| && |s'.rzs| == |s.rzs|
    && forall y :: 0 <= y < |s.rzs| ==> s'.rzs[y].l == s.rzs[y].l
  }

  lemma Places(s: Sys, t: TaskId, p: Place)
    requires SysInv(s)
    ensures t in Members(s, p) <==> t in s.at && s.at[t] == p
  {
    assert t in TasksAt(s.at, p) <==> t in s.at && s.at[t] == p;
  }

  lemma LockStands(s: Sys, u: TaskId, l: nat, block: bool, t: TaskId)
    requires l < |s.qs| && t in s.at && t in s.cont && t != u
    ensures Stands(s, DoLock(s, u, l, block), t) && SameObjects(s, DoLock(s, u, l, block))
  {
  }

  lemma TurnStands(s: Sys, t: TaskId)
    requires SysInv(s) && Enabled(s, Turn) && t in s.at && s.runq[0] != t
    ensures Stands(s, Do(s, Turn), t) && SameObjects(s, Do(s, Turn))
  {
    TurnOK(s);
    assert t in s.cont.Keys;
    var u := s.runq[0];
    if u in s.cont && s.cont[u].Relock? { LockStands(Begun(s), u, s.cont[u].l, true, t); }
  }

  lemma AlternateStands(s: Sys, u: TaskId, r: AltResult, t: TaskId)
    requires t in s.at && t in s.cont && t != u
    ensures Stands(s, Alternated(s, u, r), t) && SameObjects(s, Alternated(s, u, r))
  {
  }

  lemma LockingStands(s: Sys, u: TaskId, l: nat, e: Event, p: Place, t: TaskId)
    requires t in s.at && t in s.cont && t != u && l < |s.rws|
    ensures Stands(s, DoRW(s, u, l, e, p), t) && SameObjects(s, DoRW(s, u, l, e, p))
  {
  }

  lemma CallStands(s: Sys, e: Ev, t: TaskId)
    requires SysInv(s) && Enabled(s, e) && t in s.at && s.running.Some? && s.running != Some(t)
    requires !e.Turn? && !e.Lock? && !e.CreateRaw? && !e.Create? && !e.Alternate?
    requires !e.ReadLock? && !e.WriteLock? && !e.ReadUnlock? && !e.WriteUnlock?
    ensures Stands(s, Do(s, e), t) && SameObjects(s, Do(s, e))
  {
    assert t in s.cont.Keys;
  }

  lemma StepStands(s: Sys, e: Ev, t: TaskId)
    requires SysInv(s) && Enabled(s, e) && t in s.at && s.running != Some(t) && !(e.Turn? && s.runq[0] == t)
    ensures Stands(s, Do(s, e), t) && SameObjects(s, Do(s, e))
  {
    assert t in s.cont.Keys;
    match e
    case Turn => TurnStands(s, t);
    case Lock(l, block) => LockStands(s, s.running.value, l, block, t);
    case Create(u) =>
    case CreateRaw(u) =>
    case Alternate(alts, canblock, j, k) => AlternateStands(s, s.running.value,
      ChanAlt(s.w, s.running.value, alts, canblock, j, k), t);
    case ReadLock(l, block) => LockingStands(s, s.running.value, l, Event.ReadLock(s.running.value, block), OnR(l), t);
    case WriteLock(l, block) => LockingStands(s, s.running.value, l,
      Event.WriteLock(s.running.value, block), OnW(l), t);
    case ReadUnlock(l) => LockingStands(s, s.running.value, l, Event.ReadUnlock(s.running.value), Running, t);
    case WriteUnlock(l) => LockingStands(s, s.running.value, l, Event.WriteUnlock(s.running.value), Running, t);
    case _ => CallStands(s, e, t);
  }

  // ----- the stages follow each other

  lemma SleptStage(s: Sys, t: TaskId, z: nat)
    requires z < |s.rzs| && t in s.at && t in s.cont
    requires s.rzs[z].l.Some? ==> s.rzs[z].l.value < |s.qs| && t !in s.qs[s.rzs[z].l.value].waiting
    ensures InStage(DoSleep(s, t, z), t, z, Asleep)
  {
  }

  lemma SleepStarts(s: Sys, z: nat, t: TaskId)
    requires SysInv(s) && Enabled(s, Sleep(z)) && s.running == Some(t)
    ensures InStage(Do(s, Sleep(z)), t, z, Asleep)
  {
    assert t in Members(s, Running);
    Places(s, t, Running);
    assert t in s.cont.Keys;
    if s.rzs[z].l.Some? { Places(s, t, OnQ(s.rzs[z].l.value)); }
    SleptStage(s, t, z);
  }

  lemma InQueue(s: Sys, t: TaskId)
    requires SysInv(s) && t in s.at && s.at[t] != Running
    ensures s.running != Some(t) && (s.at[t] != Runnable ==> t !in s.runq) && t in s.cont
  {
    Places(s, t, Running);
    Places(s, t, Runnable);
    assert t in s.cont.Keys;
  }

  lemma AsleepStep(s: Sys, e: Ev, t: TaskId, z: nat)
    requires SysInv(s) && Enabled(s, e) && InStage(s, t, z, Asleep)
    ensures var s' := Do(s, e);
      z < |s'.rzs| && t in s.rzs[z].waiting &&
      if t in s'.rzs[z].waiting then InStage(s', t, z, Asleep) else InStage(s', t, z, Awake) && e.Wakeup? && e.z == z
  {
    var s' := Do(s, e);
    InQueue(s, t);
    Places(s, t, OnRz(z));
    DoKeeps(s, e);
    StepStands(s, e, t);
    SleeperStays(s, e, t, z);
    Places(s', t, OnRz(z));
    Places(s', t, Runnable);
    assert s.cont[t] == AfterSleep(s.rzs[z]);
  }

  /** When t's turn comes after the wakeup. */
  lemma AwakeTurn(s: Sys, t: TaskId, z: nat)
    requires SysInv(s) && Enabled(s, Turn) && s.runq[0] == t && InStage(s, t, z, Awake)
    ensures InStage(Do(s, Turn), t, z, Back) || InStage(Do(s, Turn), t, z, Queuing)
  {
    TurnHoldsLock(s);
    DoKeeps(s, Turn);
    TurnObjects(s);
    var s' := Do(s, Turn);
    Places(s', t, Running);
    assert t in s'.at ==> t in s'.cont.Keys;
  }

  lemma TurnObjects(s: Sys)
    requires SysInv(s) && Enabled(s, Turn)
    ensures SameObjects(s, Do(s, Turn))
    ensures s.runq[0] in s.cont && (s.cont[s.runq[0]].Relock? || Do(s, Turn).running == Some(s.runq[0]))
  {
    TurnOK(s);
    assert s.runq[0] in s.cont.Keys;
  }

  /** When t's turn comes after it was handed the lock. */
  lemma OwningTurn(s: Sys, t: TaskId, z: nat)
    requires SysInv(s) && Enabled(s, Turn) && s.runq[0] == t && InStage(s, t, z, Owning)
    ensures InStage(Do(s, Turn), t, z, Back)
  {
    TurnHoldsLock(s);
    DoKeeps(s, Turn);
    TurnObjects(s);
    var s' := Do(s, Turn);
    Places(s', t, Running);
    assert t in s'.at ==> t in s'.cont.Keys;
  }

  ghost predicate Follows(g: Stage, g': Stage) {
    g' == g || (g.Awake? && (g'.Queuing? || g'.Back?)) || (g.Queuing? && g'.Owning?) || (g.Owning? && g'.Back?)
  }

  /** After the wakeup: to the lock, or into its queue, then to its ownership, and back. */
  lemma WokenStep(s: Sys, e: Ev, t: TaskId, z: nat, g: Stage) returns (g': Stage)
    requires SysInv(s) && Enabled(s, e) && InStage(s, t, z, g) && !g.Asleep? && !g.Back?
    ensures InStage(Do(s, e), t, z, g') && Follows(g, g') && !g'.Asleep?
  {
    InQueue(s, t);
    if e.Turn? && s.runq[0] == t {
      if g.Awake? {
        AwakeTurn(s, t, z);
        g' := if InStage(Do(s, e), t, z, Back) then Back else Queuing;
      } else {
        assert g.Owning?;
        OwningTurn(s, t, z);
        g' := Back;
      }
    } else {
      StepStands(s, e, t);
      g' := if g.Queuing? && Do(s, e).at[t] == Runnable then Owning else g;
    }
  }

  /** The step takes t from stage g to stage g1, and wakes it exactly if it slept. */
  ghost predicate Advance(s: Sys, e: Ev, s': Sys, t: TaskId, z: nat, g: Stage, g1: Stage) {
    && InStage(s', t, z, g1) && (g.Asleep? || !g1.Asleep?)
    && (Wakes(s, e, s', t, z) <==> g.Asleep? && !g1.Asleep?)
  }

  ghost predicate Advances(s: Sys, e: Ev, s': Sys, t: TaskId, z: nat) {
    forall g :: InStage(s, t, z, g) && !g.Back? ==> exists g1 :: Advance(s, e, s', t, z, g, g1)
  }

  lemma StageStep(s: Sys, e: Ev, t: TaskId, z: nat, g: Stage)
    requires SysInv(s) && Enabled(s, e) && InStage(s, t, z, g) && !g.Back?
    ensures exists g1 :: Advance(s, e, Do(s, e), t, z, g, g1)
  {
    if g.Asleep? {
      AsleepStep(s, e, t, z);
      var g1 := if t in Do(s, e).rzs[z].waiting then Asleep else Awake;
      assert Advance(s, e, Do(s, e), t, z, g, g1);
    } else {
      Places(s, t, OnRz(z));
      var g1 := WokenStep(s, e, t, z, g);
      assert Advance(s, e, Do(s, e), t, z, g, g1);
    }
  }

  lemma AllAdvance(s: Sys, e: Ev, t: TaskId, z: nat)
    requires SysInv(s) && Enabled(s, e)
    ensures Advances(s, e, Do(s, e), t, z)
  {
    forall g | InStage(s, t, z, g) && !g.Back? ensures exists g1 :: Advance(s, e, Do(s, e), t, z, g, g1) {
      StageStep(s, e, t, z, g);
    }
  }

  // ----- runs

  /** From the call on, up to state j. */
  ghost predicate Called(ss: seq<Sys>, es: seq<Ev>, i: nat, j: nat, t: TaskId, z: nat) {
    && |ss| == |es| + 1 && i < j <= |es| && es[i] == Sleep(z) && ss[i].running == Some(t)
    && forall m :: i < m < j ==> ss[m].running != Some(t)
  }

  /** Event m, and no other from the call to state j, made t ready. */
  ghost predicate WokenOnceAt(ss: seq<Sys>, es: seq<Ev>, i: nat, j: nat, t: TaskId, z: nat, m: nat)
    requires |ss| == |es| + 1
  {
    i < m < j && WokenAt(ss, es, t, z, m) && forall n :: i < n < j && WokenAt(ss, es, t, z, n) ==> n == m
  }

  /** In stage g at state j, and woken at m if it no longer sleeps. */
  ghost predicate Come(ss: seq<Sys>, es: seq<Ev>, i: nat, j: nat, t: TaskId, z: nat, g: Stage, m: nat)
    requires |ss| == |es| + 1 && j <= |es|
  {
    && InStage(ss[j], t, z, g)
    && (g.Asleep? ==> forall n :: i < n < j ==> !WokenAt(ss, es, t, z, n))
    && (!g.Asleep? ==> WokenOnceAt(ss, es, i, j, t, z, m))
  }

  lemma NextStage(ss: seq<Sys>, es: seq<Ev>, i: nat, j: nat, t: TaskId, z: nat, g: Stage, m: nat)
    returns (g': Stage, m': nat)
    requires |ss| == |es| + 1 && i < j < |es| && Come(ss, es, i, j, t, z, g, m) && !g.Back?
    requires Advances(ss[j], es[j], ss[j + 1], t, z)
    ensures Come(ss, es, i, j + 1, t, z, g', m')
  {
    g' :| Advance(ss[j], es[j], ss[j + 1], t, z, g, g');
    assert WokenAt(ss, es, t, z, j) <==> g.Asleep? && !g'.Asleep?;
    m' := if g.Asleep? then j else m;
  }

  lemma {:induction false} StagesBetween(ss: seq<Sys>, es: seq<Ev>, i: nat, j: nat, t: TaskId, z: nat)
    returns (g: Stage, m: nat)
    requires Called(ss, es, i, j, t, z) && InStage(ss[i + 1], t, z, Asleep)
    requires forall n :: i < n < j ==> Advances(ss[n], es[n], ss[n + 1], t, z)
    ensures Come(ss, es, i, j, t, z, g, m)
    decreases j
  {
    if j == i + 1 {
      g, m := Asleep, 0;
    } else {
      g, m := StagesBetween(ss, es, i, j - 1, t, z);
      assert Advances(ss[j - 1], es[j - 1], ss[j], t, z);
      g, m := NextStage(ss, es, i, j - 1, t, z, g, m);
    }
  }

  lemma RunAdvances(ss: seq<Sys>, es: seq<Ev>, n: nat, t: TaskId, z: nat)
    requires Kernel.IsRun(ss, es) && n < |es|
    ensures Advances(ss[n], es[n], ss[n + 1], t, z)
    ensures es[n] == Sleep(z) && ss[n].running == Some(t) ==> InStage(ss[n + 1], t, z, Asleep)
  {
    AlwaysSysInv(ss, es);
    assert SysInv(ss[n]) && Step(ss[n], es[n], ss[n + 1]);
    AllAdvance(ss[n], es[n], t, z);
    if es[n] == Sleep(z) && ss[n].running == Some(t) { SleepStarts(ss[n], z, t); }
  }

  /** From the call of tasksleep up to the first state where the task runs again, it
      sleeps, and no wakeup has reached it, or one wakeup has, and it is on its way
      to the lock. */
  lemma Stages(ss: seq<Sys>, es: seq<Ev>, i: nat, j: nat, t: TaskId, z: nat) returns (g: Stage, m: nat)
    requires Kernel.IsRun(ss, es) && Called(ss, es, i, j, t, z)
    ensures Come(ss, es, i, j, t, z, g, m)
  {
    RunAdvances(ss, es, i, t, z);
    forall n | i < n < j ensures Advances(ss[n], es[n], ss[n + 1], t, z) { RunAdvances(ss, es, n, t, z); }
    g, m := StagesBetween(ss, es, i, j, t, z);
  }

  lemma RunsAt(ss: seq<Sys>, es: seq<Ev>, j: nat, t: TaskId)
    requires Kernel.IsRun(ss, es) && j < |ss| && ss[j].running == Some(t)
    ensures t in ss[j].at && ss[j].at[t] == Running
  {
    AlwaysSysInv(ss, es);
    assert SysInv(ss[j]) && t in Members(ss[j], Running);
    Places(ss[j], t, Running);
  }

  /** When a task that called tasksleep runs again for the first time, it holds the lock
      of the rendezvous point, and exactly one wakeup on this point made it ready. */
  lemma SleepReturns(ss: seq<Sys>, es: seq<Ev>, i: nat, j: nat, t: TaskId, z: nat)
    requires Kernel.IsRun(ss, es) && Called(ss, es, i, j, t, z) && ss[j].running == Some(t)
    ensures z < |ss[j].rzs| && var l := ss[j].rzs[z].l;
      l.Some? ==> l.value < |ss[j].qs| && ss[j].qs[l.value].owner == Some(t)
    ensures exists m :: WokenOnceAt(ss, es, i, j, t, z, m)
  {
    var g, m := Stages(ss, es, i, j, t, z);
    RunsAt(ss, es, j, t);
  }
}
