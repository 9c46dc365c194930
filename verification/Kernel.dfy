/** The whole library without I/O and timers as one state machine: the run queue,
    channels, locks and rendezvous points, and for each live task where it stands.
    A step is what the running task does up to and including one call, or a turn of
    the scheduler. */
module Kernel {
  import opened Base
  import opened ChannelSpec
  import ChannelRuns
  import opened LockSpec

  /** Where a task stands. Aside: created raw, or switched away with nobody to wake it. */
  datatype Place =
    | Running | Runnable | OnAlt | OnQ(l: nat) | OnR(l: nat) | OnW(l: nat) | OnRz(z: nat) | Aside

  /** What a waiting task still has to do inside the call that made it wait. */
  datatype Cont = Plain | CheckOwner(l: nat) | Relock(l: nat)

  datatype Rz = Rz(l: Option<nat>, waiting: seq<TaskId>)

  datatype Sys = Sys(
    runq: seq<TaskId>, running: Option<TaskId>,
    at: map<TaskId, Place>, cont: map<TaskId, Cont>,
    w: World, qs: seq<QL>, rws: seq<Held>, rzs: seq<Rz>)

  datatype Ev =
    | Turn
    | Alternate(alts: seq<Alt>, canblock: bool, j: nat, k: nat) | Store(loc: nat, x: Elem) | ChanCreate(n: nat)
    | Lock(l: nat, block: bool) | Unlock(l: nat)
    | ReadLock(l: nat, block: bool) | WriteLock(l: nat, block: bool) | ReadUnlock(l: nat) | WriteUnlock(l: nat)
    | Sleep(z: nat) | Wakeup(z: nat, all: bool)
    | Yield | Create(u: TaskId) | CreateRaw(u: TaskId) | Ready(u: TaskId) | Switch | Exit

  ghost function TasksAt(at: map<TaskId, Place>, p: Place): set<TaskId> {
    set t | t in at && at[t] == p
  }

  /** Who stands at place p, according to the queues. */
  ghost function Members(s: Sys, p: Place): set<TaskId> {
    match p
    case Running => if s.running.Some? then {s.running.value} else {}
    case Runnable => Elems(s.runq)
    case OnAlt => s.w.blocked.Keys
    case OnQ(l) => if l < |s.qs| then Elems(s.qs[l].waiting) else {}
    case OnR(l) => if l < |s.rws| then Elems(s.rws[l].l.rwaiting) else {}
    case OnW(l) => if l < |s.rws| then Elems(s.rws[l].l.wwaiting) else {}
    case OnRz(z) => if z < |s.rzs| then Elems(s.rzs[z].waiting) else {}
    case Aside => TasksAt(s.at, Aside)
  }

  /** Every live task stands in exactly one place, and no one else stands anywhere. */
  ghost predicate Placed(s: Sys) {
    s.cont.Keys == s.at.Keys && forall p :: Members(s, p) == TasksAt(s.at, p)
  }

  ghost predicate PartsOK(s: Sys) {
    && NoDup(s.runq)
    && Inv(s.w)
    && (forall l :: 0 <= l < |s.qs| ==> QInv(s.qs[l]))
    && (forall l :: 0 <= l < |s.rws| ==> HeldInv(s.rws[l]))
    && (forall z :: 0 <= z < |s.rzs| ==> NoDup(s.rzs[z].waiting) && (s.rzs[z].l.Some? ==> s.rzs[z].l.value < |s.qs|))
  }

  /** A task that was handed a lock while it waited owns it until it runs again. */
  ghost predicate Promised(s: Sys) {
    && (forall t :: t in s.at && t in s.cont && s.cont[t].CheckOwner? ==>
          s.cont[t].l < |s.qs| && (if s.at[t] == OnQ(s.cont[t].l) then true
                                   else s.at[t] == Runnable && s.qs[s.cont[t].l].owner == Some(t)))
    && (forall t :: t in s.at && t in s.cont && s.cont[t].Relock? ==>
          s.cont[t].l < |s.qs| && (s.at[t] == Runnable || s.at[t].OnRz?))
    && (forall t, l :: t in s.at && s.at[t] == OnQ(l) ==> t in s.cont && s.cont[t] == CheckOwner(l))
    && (forall t, z: nat :: t in s.at && s.at[t] == OnRz(z) ==>
      t in s.cont && z < |s.rzs| && s.cont[t] == AfterSleep(s.rzs[z]))
  }

  /** What tasksleep does after its task switch. */
  ghost function AfterSleep(r: Rz): Cont {
    if r.l.Some? then Relock(r.l.value) else Plain
  }

  /** t owns the lock of this rendezvous point. */
  ghost predicate OwnsLockOf(s: Sys, t: TaskId, r: Rz) {
    r.l.Some? && r.l.value < |s.qs| && s.qs[r.l.value].owner == Some(t)
  }

  /** No task sleeps on a rendezvous point as the owner of its lock. */
  ghost predicate Released(s: Sys) {
    forall t, z: nat :: t in s.at && s.at[t] == OnRz(z) && z < |s.rzs| ==> !OwnsLockOf(s, t, s.rzs[z])
  }

  ghost predicate SysInv(s: Sys) {
    Placed(s) && PartsOK(s) && Promised(s)
  }

  // ----- steps

  /** t stops running and stands at p. */
  ghost function Block(s: Sys, t: TaskId, p: Place, c: Cont): Sys {
    s.(running := None, at := s.at[t := p], cont := s.cont[t := c])
  }

  /** taskready of tasks us, in this order. */
  ghost function Wake(s: Sys, us: seq<TaskId>): Sys {
    s.(runq := s.runq + us, at := s.at + map t | t in us :: Runnable)
  }

  ghost function OptSeq(o: Option<TaskId>): seq<TaskId> {
    if o.Some? then [o.value] else []
  }

  /** What callers must respect: objects exist, and only holders unlock. */
  ghost predicate Enabled(s: Sys, e: Ev) {
    match e
    case Turn => s.running.None? && s.runq != []
    case Alternate(alts, _, _, _) => s.running.Some? && Listed(s.w.chans, alts)
    case Store(_, _) => s.running.Some?
    case ChanCreate(_) => s.running.Some?
    case Lock(l, _) => s.running.Some? && l < |s.qs|
    case Unlock(l) => s.running.Some? && l < |s.qs| && s.qs[l].owner == s.running
    case ReadLock(l, _) => s.running.Some? && l < |s.rws|
    case WriteLock(l, _) => s.running.Some? && l < |s.rws|
    case ReadUnlock(l) => s.running.Some? && l < |s.rws| && s.running.value in s.rws[l].rholders
    case WriteUnlock(l) => s.running.Some? && l < |s.rws| && s.rws[l].l.writer == s.running
    case Sleep(z) => s.running.Some? && z < |s.rzs| &&
        (s.rzs[z].l.Some? ==> s.rzs[z].l.value < |s.qs| && s.qs[s.rzs[z].l.value].owner == s.running)
    case Wakeup(z, _) => s.running.Some? && z < |s.rzs|
    case Yield => s.running.Some?
    case Create(u) => s.running.Some? && u !in s.at
    case CreateRaw(u) => s.running.Some? && u !in s.at
    case Ready(u) => s.running.Some? && u in s.at && s.at[u] == Aside
    case Switch => s.running.Some?
    case Exit => s.running.Some?
  }

  /** _qlock by t, which runs. */
  ghost function DoLock(s: Sys, t: TaskId, l: nat, block: bool): Sys
    requires l < |s.qs|
  {
    var (q, o) := QLock(s.qs[l], t, block);
    var s' := s.(qs := s.qs[l := q]);
    if o == Queued then Block(s', t, OnQ(l), CheckOwner(l)) else s'
  }

  ghost function DoUnlock(s: Sys, l: nat): Sys
    requires l < |s.qs|
  {
    var (q, u) := QUnlock(s.qs[l]);
    Wake(s.(qs := s.qs[l := q]), OptSeq(u))
  }

  /** A turn of the scheduler: the head of the run queue runs. */
  ghost function Begun(s: Sys): Sys
    requires s.runq != []
  {
    var t := s.runq[0];
    s.(runq := s.runq[1..], running := Some(t), at := s.at[t := Running], cont := s.cont[t := Plain])
  }

  /** A turn of the scheduler, and what the task then does to finish the call it was in. */
  ghost function DoTurn(s: Sys): Sys
    requires s.runq != [] && (s.runq[0] in s.cont && s.cont[s.runq[0]].Relock? ==> s.cont[s.runq[0]].l < |s.qs|)
  {
    var t := s.runq[0];
    if t in s.cont && s.cont[t].Relock? then DoLock(Begun(s), t, s.cont[t].l, true) else Begun(s)
  }

  ghost function Alternated(s: Sys, t: TaskId, r: AltResult): Sys {
    var s' := Wake(s.(w := r.w), OptSeq(r.woken));
    if r.out == Parked then Block(s', t, OnAlt, Plain) else s'
  }

  ghost function DoAlternate(s: Sys, t: TaskId, alts: seq<Alt>, canblock: bool, j: nat, k: nat): Sys
    requires Inv(s.w) && Listed(s.w.chans, alts)
  {
    Alternated(s, t, ChanAlt(s.w, t, alts, canblock, j, k))
  }

  /** Does the caller have to queue? */
  ghost predicate QueuesUp(h: Held, e: Event) {
    match e
    case ReadLock(t, block) => RLock(h.l, t, block).1 == Queued
    case WriteLock(t, block) => WLock(h.l, t, block).1 == Queued
    case _ => false
  }

  /** The tasks an unlock makes ready, in order. */
  ghost function WokenBy(h: Held, e: Event): seq<TaskId> {
    match e
    case ReadUnlock(_) => OptSeq(RUnlock(h.l).1)
    case WriteUnlock(_) => h.l.rwaiting + OptSeq(WUnlock(h.l).1)
    case _ => []
  }

  ghost function DoRW(s: Sys, t: TaskId, l: nat, e: Event, p: Place): Sys
    requires l < |s.rws|
  {
    var s' := s.(rws := s.rws[l := Next(s.rws[l], e)]);
    if QueuesUp(s.rws[l], e) then Block(s', t, p, Plain) else Wake(s', WokenBy(s.rws[l], e))
  }

  /** The first half of tasksleep: the caller waits before its lock is released. */
  ghost function Slept(s: Sys, t: TaskId, z: nat): Sys
    requires z < |s.rzs|
  {
    Block(s.(rzs := s.rzs[z := s.rzs[z].(waiting := s.rzs[z].waiting + [t])]), t, OnRz(z), AfterSleep(s.rzs[z]))
  }

  ghost function DoSleep(s: Sys, t: TaskId, z: nat): Sys
    requires z < |s.rzs| && (s.rzs[z].l.Some? ==> s.rzs[z].l.value < |s.qs|)
  {
    if s.rzs[z].l.Some? then DoUnlock(Slept(s, t, z), s.rzs[z].l.value) else Slept(s, t, z)
  }

  /** The first n sleepers at z are made ready. */
  ghost function Woken(s: Sys, z: nat, n: nat): Sys
    requires z < |s.rzs| && n <= |s.rzs[z].waiting|
  {
    var q := s.rzs[z].waiting;
    Wake(s.(rzs := s.rzs[z := s.rzs[z].(waiting := q[n..])]), q[..n])
  }

  ghost function DoWakeup(s: Sys, z: nat, all: bool): Sys
    requires z < |s.rzs|
  {
    var q := s.rzs[z].waiting;
    var n := if all then |q| else if q == [] then 0 else 1;
    Woken(s, z, n)
  }

  ghost function Do(s: Sys, e: Ev): Sys
    requires SysInv(s) && Enabled(s, e)
  {
    match e
    case Turn => TurnOK(s); DoTurn(s)
    case Alternate(alts, canblock, j, k) => DoAlternate(s, s.running.value, alts, canblock, j, k)
    case Store(loc, x) => s.(w := s.w.(mem := s.w.mem[loc := x]))
    case ChanCreate(n) => s.(w := s.w.(chans := s.w.chans + [ChannelRuns.NewChan(n)]))
    case Lock(l, block) => DoLock(s, s.running.value, l, block)
    case Unlock(l) => DoUnlock(s, l)
    case ReadLock(l, block) => DoRW(s, s.running.value, l, Event.ReadLock(s.running.value, block), OnR(l))
    case WriteLock(l, block) => DoRW(s, s.running.value, l, Event.WriteLock(s.running.value, block), OnW(l))
    case ReadUnlock(l) => DoRW(s, s.running.value, l, Event.ReadUnlock(s.running.value), Running)
    case WriteUnlock(l) => DoRW(s, s.running.value, l, Event.WriteUnlock(s.running.value), Running)
    case Sleep(z) => DoSleep(s, s.running.value, z)
    case Wakeup(z, all) => DoWakeup(s, z, all)
    case Yield => Wake(Block(s, s.running.value, Aside, Plain), [s.running.value])
    case Create(u) => Wake(s.(at := s.at[u := Aside], cont := s.cont[u := Plain]), [u])
    case CreateRaw(u) => s.(at := s.at[u := Aside], cont := s.cont[u := Plain])
    case Ready(u) => Wake(s, [u])
    case Switch => Block(s, s.running.value, Aside, Plain)
    case Exit => s.(running := None, at := s.at - {s.running.value}, cont := s.cont - {s.running.value})
  }

  lemma TurnOK(s: Sys)
    requires SysInv(s) && s.runq != []
    ensures s.runq[0] in s.at && s.at[s.runq[0]] == Runnable
    ensures s.runq[0] in s.cont && s.cont[s.runq[0]].Relock? ==> s.cont[s.runq[0]].l < |s.qs|
  {
    assert s.runq[0] in Members(s, Runnable);
  }

  // ----- every step keeps the invariant

  /** Tasks us move from place p0 to place p1; every queue but those two stays. */
  lemma Moves(s: Sys, s': Sys, us: set<TaskId>, p0: Place, p1: Place)
    requires Placed(s) && p0 != p1 && us <= Members(s, p0)
    requires s'.at == s.at + (map t | t in us :: p1) && s'.cont.Keys == s'.at.Keys
    requires Members(s', p0) == Members(s, p0) - us && Members(s', p1) == Members(s, p1) + us
    requires forall q :: q != p0 && q != p1 && q != Aside ==> Members(s', q) == Members(s, q)
    ensures Placed(s')
  {
    assert us <= TasksAt(s.at, p0);
    forall q ensures Members(s', q) == TasksAt(s'.at, q) {
      assert Members(s, q) == TasksAt(s.at, q);
      MovedTo(s.at, us, p0, p1, q);
    }
  }

  lemma MovedTo(at: map<TaskId, Place>, us: set<TaskId>, p0: Place, p1: Place, q: Place)
    requires p0 != p1 && us <= TasksAt(at, p0)
    ensures TasksAt(at + (map t | t in us :: p1), q) ==
      if q == p0 then TasksAt(at, q) - us else if q == p1 then TasksAt(at, q) + us else TasksAt(at, q)
  {
  }

  lemma Same(s: Sys, s': Sys)
    requires Placed(s) && s'.at == s.at && s'.cont.Keys == s.cont.Keys
    requires forall q :: q != Aside ==> Members(s', q) == Members(s, q)
    ensures Placed(s')
  {
    forall q ensures Members(s', q) == TasksAt(s'.at, q) { assert Members(s, q) == TasksAt(s.at, q); }
  }

  lemma At(s: Sys, t: TaskId, p: Place)
    requires Placed(s) && t in Members(s, p)
    ensures t in s.at && s.at[t] == p && forall q :: q != p ==> t !in Members(s, q)
  {
    forall q | q != p ensures t !in Members(s, q) { assert Members(s, q) == TasksAt(s.at, q); }
    assert Members(s, p) == TasksAt(s.at, p);
  }

  lemma LockPlaced(s: Sys, t: TaskId, l: nat, block: bool)
    requires Placed(s) && s.running == Some(t) && l < |s.qs|
    ensures Placed(DoLock(s, t, l, block))
  {
    var s' := DoLock(s, t, l, block);
    At(s, t, Running);
    if QLock(s.qs[l], t, block).1 == Queued {
      Moves(s, s', {t}, Running, OnQ(l));
    } else {
      Same(s, s');
    }
  }

  lemma LockPromised(s: Sys, t: TaskId, l: nat, block: bool)
    requires Promised(s) && s.running == Some(t) && l < |s.qs| && t in s.at && s.at[t] == Running
    ensures Promised(DoLock(s, t, l, block))
  {
  }

  lemma LockParts(s: Sys, t: TaskId, l: nat, block: bool)
    requires PartsOK(s) && l < |s.qs| && t !in s.qs[l].waiting
    ensures PartsOK(DoLock(s, t, l, block))
  {
    assert QInv(s.qs[l]);
  }

  lemma LockKeeps(s: Sys, t: TaskId, l: nat, block: bool)
    requires SysInv(s) && s.running == Some(t) && l < |s.qs|
    ensures SysInv(DoLock(s, t, l, block))
  {
    At(s, t, Running);
    assert t !in s.qs[l].waiting by { assert t !in Members(s, OnQ(l)); }
    LockPlaced(s, t, l, block);
    LockParts(s, t, l, block);
    LockPromised(s, t, l, block);
  }

  /** The owner's unlock hands the lock to the first waiter and wakes it. */
  lemma UnlockKeeps(s: Sys, t: TaskId, l: nat)
    requires SysInv(s) && l < |s.qs| && s.qs[l].owner == Some(t) && (t in s.at ==> s.at[t] != Runnable)
    ensures SysInv(DoUnlock(s, l))
  {
    assert QInv(s.qs[l]);
    UnlockPlaced(s, l);
    UnlockParts(s, l);
    UnlockPromised(s, t, l);
  }

  lemma UnlockPlaced(s: Sys, l: nat)
    requires Placed(s) && l < |s.qs| && NoDup(s.qs[l].waiting)
    ensures Placed(DoUnlock(s, l))
    ensures s.qs[l].waiting != [] ==> s.qs[l].waiting[0] !in s.runq
    ensures s.qs[l].waiting != [] ==> var u := s.qs[l].waiting[0]; u in s.at && s.at[u] == OnQ(l)
  {
    var s', q := DoUnlock(s, l), s.qs[l].waiting;
    if q == [] {
      assert s'.at == s.at;
      Same(s, s');
    } else {
      var u := q[0];
      assert u in Members(s, OnQ(l));
      At(s, u, OnQ(l));
      assert u !in Members(s, Runnable);
      assert Elems(q[1..]) == Elems(q) - {u};
      Moves(s, s', {u}, OnQ(l), Runnable);
    }
  }

  lemma UnlockParts(s: Sys, l: nat)
    requires PartsOK(s) && l < |s.qs| && (s.qs[l].waiting != [] ==> s.qs[l].waiting[0] !in s.runq)
    ensures PartsOK(DoUnlock(s, l))
  {
    assert QInv(s.qs[l]);
  }

  lemma UnlockPromised(s: Sys, t: TaskId, l: nat)
    requires Promised(s) && l < |s.qs| && s.qs[l].owner == Some(t) && (t in s.at ==> s.at[t] != Runnable)
    requires s.qs[l].waiting != [] ==> var u := s.qs[l].waiting[0]; u in s.at && s.at[u] == OnQ(l)
    ensures Promised(DoUnlock(s, l))
  {
  }

  lemma BegunKeeps(s: Sys)
    requires SysInv(s) && s.runq != [] && s.running.None?
    ensures SysInv(Begun(s))
  {
    var t, s' := s.runq[0], Begun(s);
    assert t in Members(s, Runnable);
    At(s, t, Runnable);
    assert Elems(s.runq[1..]) == Elems(s.runq) - {t};
    Moves(s, s', {t}, Runnable, Running);
    BegunPromised(s);
  }

  lemma BegunPromised(s: Sys)
    requires Promised(s) && s.runq != [] && s.runq[0] in s.at && s.at[s.runq[0]] == Runnable
    ensures Promised(Begun(s))
  {
  }

  lemma TurnKeeps(s: Sys)
    requires SysInv(s) && s.runq != [] && s.running.None?
    ensures (s.runq[0] in s.cont && s.cont[s.runq[0]].Relock? ==> s.cont[s.runq[0]].l < |s.qs|) && SysInv(DoTurn(s))
  {
    TurnOK(s);
    BegunKeeps(s);
    var t := s.runq[0];
    if t in s.cont && s.cont[t].Relock? { LockKeeps(Begun(s), t, s.cont[t].l, true); }
  }

  lemma CallBlocked(w: World, t: TaskId, alts: seq<Alt>, canblock: bool, j: nat, k: nat)
    requires Inv(w) && Listed(w.chans, alts) && t !in w.blocked
    ensures var r := ChanAlt(w, t, alts, canblock, j, k);
      && Inv(r.w)
      && (r.woken.Some? ==> r.woken.value in w.blocked && r.out.Done?)
      && r.w.blocked == if r.out.Parked? then w.blocked[t := alts]
        else w.blocked - (if r.woken.Some? then {r.woken.value} else {})
  {
    ChanAltKeepsInv(w, t, alts, canblock, j, k);
    var ready := ChannelSpec.Ready(w.chans, alts, 0);
    if ready != [] {
      var i := ready[j % |ready|];
      assert i in ready;
      var o, s, r := ExecEffect(w, alts[i], k);
    }
  }

  lemma AlternateKeeps(s: Sys, t: TaskId, alts: seq<Alt>, canblock: bool, j: nat, k: nat)
    requires SysInv(s) && s.running == Some(t) && Listed(s.w.chans, alts)
    ensures SysInv(DoAlternate(s, t, alts, canblock, j, k))
  {
    At(s, t, Running);
    assert t !in s.w.blocked by { assert t !in Members(s, OnAlt); }
    CallBlocked(s.w, t, alts, canblock, j, k);
    var r := ChanAlt(s.w, t, alts, canblock, j, k);
    AlternatePlaced(s, t, alts, r);
    if r.woken.Some? {
      assert r.woken.value in Members(s, OnAlt);
      At(s, r.woken.value, OnAlt);
      assert r.woken.value !in s.runq by { assert r.woken.value !in Members(s, Runnable); }
    }
    AlternatePromised(s, t, r);
    AlternateParts(s, t, alts, canblock, j, k);
  }

  lemma AlternatePlaced(s: Sys, t: TaskId, alts: seq<Alt>, r: AltResult)
    requires Placed(s) && s.running == Some(t)
    requires r.woken.Some? ==> r.woken.value in s.w.blocked && r.out.Done?
    requires r.w.blocked == if r.out.Parked? then s.w.blocked[t := alts]
      else s.w.blocked - (if r.woken.Some? then {r.woken.value} else {})
    ensures Placed(Alternated(s, t, r))
  {
    var s' := Alternated(s, t, r);
    At(s, t, Running);
    if r.out.Parked? {
      assert s'.runq == s.runq;
      assert s.at + (map u | u in OptSeq(r.woken) :: Runnable) == s.at;
      Moves(s, s', {t}, Running, OnAlt);
    } else if r.woken.Some? {
      PartnerPlaced(s, r.w, r.woken.value);
    } else {
      assert s'.runq == s.runq && s'.at == s.at;
      Same(s, s');
    }
  }

  lemma PartnerPlaced(s: Sys, w: World, u: TaskId)
    requires Placed(s) && u in s.w.blocked && w.blocked == s.w.blocked - {u}
    ensures Placed(Wake(s.(w := w), [u]))
  {
    At(s, u, OnAlt);
    Moves(s, Wake(s.(w := w), [u]), {u}, OnAlt, Runnable);
  }

  lemma AlternatePromised(s: Sys, t: TaskId, r: AltResult)
    requires Promised(s) && t in s.at && s.at[t] == Running && s.cont.Keys == s.at.Keys
    requires r.woken.Some? ==> r.woken.value in s.at && s.at[r.woken.value] == OnAlt && s.cont[r.woken.value] == Plain
    ensures Promised(Alternated(s, t, r))
  {
    PromisedFrame(s, Alternated(s, t, r), (if r.out.Parked? then {t} else {}) + Elems(OptSeq(r.woken)));
  }

  // Reader-writer locks.

  lemma RWAllowed(s: Sys, t: TaskId, l: nat, e: Event)
    requires SysInv(s) && s.running == Some(t) && l < |s.rws| && e.t == t
    requires e.ReadUnlock? ==> t in s.rws[l].rholders
    requires e.WriteUnlock? ==> s.rws[l].l.writer == Some(t)
    ensures Allowed(s.rws[l], e) && HeldInv(s.rws[l]) && HeldInv(Next(s.rws[l], e)) && t in s.at && s.at[t] == Running
  {
    At(s, t, Running);
    assert t !in Members(s, OnR(l)) && t !in Members(s, OnW(l));
    assert HeldInv(s.rws[l]);
    NextKeepsInv(s.rws[l], e);
  }

  /** Where the tasks of the lock's two queues go: one more waits, or the readers
      all leave, or at most the first writer leaves. */
  ghost predicate QueuesMoved(h: Held, e: Event, l: RW, us: seq<TaskId>) {
    if QueuesUp(h, e) then
      if e.ReadLock? then OneMore(h.l.rwaiting, l.rwaiting, e.t) && l.wwaiting == h.l.wwaiting
      else e.WriteLock? && OneMore(h.l.wwaiting, l.wwaiting, e.t) && l.rwaiting == h.l.rwaiting
    else if h.l.rwaiting != [] && l.rwaiting == [] then us == h.l.rwaiting && l.wwaiting == h.l.wwaiting
    else l.rwaiting == h.l.rwaiting && |us| <= 1 && h.l.wwaiting == us + l.wwaiting
  }

  lemma RWMoves(h: Held, e: Event)
    requires RWInv(h.l) && Allowed(h, e)
    ensures QueuesMoved(h, e, Next(h, e).l, WokenBy(h, e))
  {
    match e
    case ReadLock(t, block) =>
    case WriteLock(t, block) =>
    case ReadUnlock(t) => WriterMoves(h.l.(readers := h.l.readers - 1));
    case WriteUnlock(t) => WriteUnlockMoves(h, t);
  }

  lemma WriteUnlockMoves(h: Held, t: TaskId)
    requires RWInv(h.l)
    ensures QueuesMoved(h, Event.WriteUnlock(t), WUnlock(h.l).0, WokenBy(h, Event.WriteUnlock(t)))
  {
    WriterMoves(h.l.(writer := None, readers := h.l.readers + |h.l.rwaiting|, rwaiting := []));
    var us := OptSeq(WUnlock(h.l).1);
    assert [] + us == us && h.l.rwaiting + [] == h.l.rwaiting;
  }

  lemma WriterMoves(l: RW)
    ensures var (l', u) := GrantWriter(l);
      l'.rwaiting == l.rwaiting && |OptSeq(u)| <= 1 && l.wwaiting == OptSeq(u) + l'.wwaiting
    ensures 0 < l.readers ==> GrantWriter(l).1.None?
  {
  }

  ghost predicate OneMore(q: seq<TaskId>, q': seq<TaskId>, t: TaskId) {
    q' == q + [t] && t !in q
  }

  lemma QueueUpPlaced(s: Sys, h: Held, t: TaskId, l: nat, p: Place)
    requires Placed(s) && s.running == Some(t) && l < |s.rws|
    requires (p == OnR(l) && OneMore(s.rws[l].l.rwaiting, h.l.rwaiting, t) && h.l.wwaiting == s.rws[l].l.wwaiting)
          || (p == OnW(l) && OneMore(s.rws[l].l.wwaiting, h.l.wwaiting, t) && h.l.rwaiting == s.rws[l].l.rwaiting)
    ensures Placed(Block(s.(rws := s.rws[l := h]), t, p, Plain))
  {
    var s' := Block(s.(rws := s.rws[l := h]), t, p, Plain);
    At(s, t, Running);
    assert Members(s', p) == Members(s, p) + {t};
    Moves(s, s', {t}, Running, p);
  }

  lemma WritersWake(s: Sys, h: Held, l: nat, us: seq<TaskId>)
    requires Placed(s) && l < |s.rws| && |us| <= 1 && s.rws[l].l.wwaiting == us + h.l.wwaiting
      && NoDup(s.rws[l].l.wwaiting)
    requires h.l.rwaiting == s.rws[l].l.rwaiting
    ensures Placed(Wake(s.(rws := s.rws[l := h]), us))
  {
    var s' := Wake(s.(rws := s.rws[l := h]), us);
    if us == [] {
      assert s'.runq == s.runq && s'.at == s.at;
      Same(s, s');
    } else {
      assert us == [us[0]];
      WriterWakes(s, h, l, us[0]);
    }
  }

  lemma WriterWakes(s: Sys, h: Held, l: nat, u: TaskId)
    requires Placed(s) && l < |s.rws| && s.rws[l].l.wwaiting == [u] + h.l.wwaiting && NoDup(s.rws[l].l.wwaiting)
    requires h.l.rwaiting == s.rws[l].l.rwaiting
    ensures Placed(Wake(s.(rws := s.rws[l := h]), [u]))
  {
    var s', q := Wake(s.(rws := s.rws[l := h]), [u]), s.rws[l].l.wwaiting;
    assert q[0] == u && q[1..] == h.l.wwaiting;
    assert u in Members(s, OnW(l));
    At(s, u, OnW(l));
    assert Elems(h.l.wwaiting) == Elems(q) - {u};
    Moves(s, s', {u}, OnW(l), Runnable);
  }

  lemma ReadersWake(s: Sys, h: Held, l: nat)
    requires Placed(s) && l < |s.rws| && h.l.rwaiting == [] && h.l.wwaiting == s.rws[l].l.wwaiting
    ensures Placed(Wake(s.(rws := s.rws[l := h]), s.rws[l].l.rwaiting))
  {
    var s' := Wake(s.(rws := s.rws[l := h]), s.rws[l].l.rwaiting);
    var us := Elems(s.rws[l].l.rwaiting);
    assert us == Members(s, OnR(l)) == TasksAt(s.at, OnR(l));
    assert (map u | u in s.rws[l].l.rwaiting :: Runnable) == (map u | u in us :: Runnable);
    Moves(s, s', us, OnR(l), Runnable);
  }

  lemma RWPlaced(s: Sys, t: TaskId, l: nat, e: Event, p: Place)
    requires Placed(s) && s.running == Some(t) && l < |s.rws| && RWInv(s.rws[l].l) && Allowed(s.rws[l], e) && e.t == t
    requires e.ReadLock? ==> p == OnR(l)
    requires e.WriteLock? ==> p == OnW(l)
    ensures Placed(DoRW(s, t, l, e, p))
  {
    var h, h' := s.rws[l], Next(s.rws[l], e);
    RWMoves(h, e);
    if QueuesUp(h, e) {
      QueueUpPlaced(s, h', t, l, p);
    } else if h.l.rwaiting != [] && h'.l.rwaiting == [] {
      ReadersWake(s, h', l);
    } else {
      WritersWake(s, h', l, WokenBy(h, e));
    }
  }

  /** Promises survive when every task that moves has none, before and after. */
  lemma PromisedFrame(s: Sys, s': Sys, us: set<TaskId>)
    requires Promised(s) && s'.qs == s.qs && s'.rzs == s.rzs
    requires forall x :: x in s'.at && x !in us ==>
      x in s.at && s'.at[x] == s.at[x] && x in s.cont && x in s'.cont && s'.cont[x] == s.cont[x]
    requires forall x :: x in s'.at && x in us ==>
      x in s'.cont && s'.cont[x] == Plain && !s'.at[x].OnQ? && !s'.at[x].OnRz?
    ensures Promised(s')
  {
  }

  lemma PlainAt(s: Sys, t: TaskId)
    requires SysInv(s) && t in s.at && !s.at[t].OnQ? && !s.at[t].OnRz? && s.at[t] != Runnable
    ensures t in s.cont && s.cont[t] == Plain
  {
    assert t in s.cont.Keys;
  }

  /** The woken tasks waited on this lock, so they are not in the run queue and owe nothing. */
  lemma WokenWaited(s: Sys, l: nat, us: seq<TaskId>)
    requires SysInv(s) && l < |s.rws|
    requires forall u :: u in us ==> u in s.rws[l].l.rwaiting || u in s.rws[l].l.wwaiting
    ensures forall u :: u in us ==> u in s.at && u in s.cont && s.cont[u] == Plain && u !in s.runq
  {
    forall u | u in us ensures u in s.at && u in s.cont && s.cont[u] == Plain && u !in s.runq {
      if u in s.rws[l].l.rwaiting {
        assert u in Members(s, OnR(l));
        At(s, u, OnR(l));
      } else {
        assert u in Members(s, OnW(l));
        At(s, u, OnW(l));
      }
      assert u !in Members(s, Runnable);
      PlainAt(s, u);
    }
  }

  lemma RWKeeps(s: Sys, t: TaskId, l: nat, e: Event, p: Place)
    requires SysInv(s) && s.running == Some(t) && l < |s.rws| && e.t == t
    requires e.ReadUnlock? ==> t in s.rws[l].rholders
    requires e.WriteUnlock? ==> s.rws[l].l.writer == Some(t)
    requires e.ReadLock? ==> p == OnR(l)
    requires e.WriteLock? ==> p == OnW(l)
    ensures SysInv(DoRW(s, t, l, e, p))
  {
    RWAllowed(s, t, l, e);
    var h, h' := s.rws[l], Next(s.rws[l], e);
    RWMoves(h, e);
    RWPlaced(s, t, l, e, p);
    var us := if QueuesUp(h, e) then [] else WokenBy(h, e);
    assert forall u :: u in us ==> u in h.l.rwaiting || u in h.l.wwaiting;
    WokenWaited(s, l, us);
    PlainAt(s, t);
    RWRest(s, t, l, h', us, QueuesUp(h, e), p);
  }

  lemma NoDupConcat(a: seq<TaskId>, b: seq<TaskId>)
    requires NoDup(a) && NoDup(b) && forall x :: x in b ==> x !in a
    ensures NoDup(a + b)
  {
    var c := a + b;
    forall i, j | 0 <= i < j < |c| ensures c[i] != c[j] {
      assert |a| <= j ==> c[j] in b;
      assert i < |a| ==> c[i] in a;
    }
  }

  lemma RWRest(s: Sys, t: TaskId, l: nat, h: Held, us: seq<TaskId>, queued: bool, p: Place)
    requires PartsOK(s) && Promised(s) && l < |s.rws| && HeldInv(h) && NoDup(us) && s.cont.Keys == s.at.Keys
    requires t in s.at && t in s.cont && s.cont[t] == Plain && (queued ==> p == OnR(l) || p == OnW(l))
    requires forall u :: u in us ==> u in s.at && u in s.cont && s.cont[u] == Plain && u !in s.runq
    ensures var s1 := s.(rws := s.rws[l := h]);
      var s' := if queued then Block(s1, t, p, Plain) else Wake(s1, us);
      PartsOK(s') && Promised(s')
  {
    var s1 := s.(rws := s.rws[l := h]);
    var s' := if queued then Block(s1, t, p, Plain) else Wake(s1, us);
    NoDupConcat(s.runq, us);
    PromisedFrame(s, s', if queued then {t} else Elems(us));
  }

  // Rendezvous points.

  lemma SleptKeeps(s: Sys, t: TaskId, z: nat)
    requires SysInv(s) && s.running == Some(t) && z < |s.rzs|
    ensures SysInv(Slept(s, t, z))
  {
    var s' := Slept(s, t, z);
    At(s, t, Running);
    assert t !in s.rzs[z].waiting by { assert t !in Members(s, OnRz(z)); }
    Moves(s, s', {t}, Running, OnRz(z));
    NoDupConcat(s.rzs[z].waiting, [t]);
    SleptPromised(s, t, z);
  }

  lemma SleptPromised(s: Sys, t: TaskId, z: nat)
    requires Promised(s) && z < |s.rzs| && t in s.at && s.at[t] == Running
    requires s.rzs[z].l.Some? ==> s.rzs[z].l.value < |s.qs|
    ensures Promised(Slept(s, t, z))
  {
    var s' := Slept(s, t, z);
    assert forall y :: 0 <= y < |s.rzs| ==> AfterSleep(s'.rzs[y]) == AfterSleep(s.rzs[y]);
    OneSleepsPromised(s, s', t, z);
  }

  /** t goes to sleep at z. */
  lemma OneSleepsPromised(s: Sys, s': Sys, t: TaskId, z: nat)
    requires Promised(s) && s'.qs == s.qs && z < |s.rzs| == |s'.rzs|
    requires forall y :: 0 <= y < |s.rzs| ==> AfterSleep(s'.rzs[y]) == AfterSleep(s.rzs[y])
    requires s.rzs[z].l.Some? ==> s.rzs[z].l.value < |s.qs|
    requires forall x :: x in s'.at && x != t ==> x in s.at && s'.at[x] == s.at[x]
    requires forall x :: x in s'.cont && x != t ==> x in s.cont && s'.cont[x] == s.cont[x]
    requires forall x :: x in s.cont ==> x in s'.cont
    requires t in s'.at && s'.at[t] == OnRz(z) && t in s'.cont && s'.cont[t] == AfterSleep(s.rzs[z])
    ensures Promised(s')
  {
  }

  lemma SleepKeeps(s: Sys, t: TaskId, z: nat)
    requires SysInv(s) && s.running == Some(t) && z < |s.rzs|
    requires s.rzs[z].l.Some? ==> s.rzs[z].l.value < |s.qs| && s.qs[s.rzs[z].l.value].owner == Some(t)
    ensures SysInv(DoSleep(s, t, z))
  {
    SleptKeeps(s, t, z);
    if s.rzs[z].l.Some? { UnlockKeeps(Slept(s, t, z), t, s.rzs[z].l.value); }
  }

  /** Cutting the first n of a list without repetition leaves the others. */
  lemma CutElems(q: seq<TaskId>, n: nat)
    requires NoDup(q) && n <= |q|
    ensures Elems(q[n..]) == Elems(q) - Elems(q[..n])
  {
    forall x ensures x in Elems(q[n..]) <==> x in Elems(q) - Elems(q[..n]) {
      assert q == q[..n] + q[n..];
    }
  }

  lemma SleepersNotReady(s: Sys, z: nat)
    requires Placed(s) && z < |s.rzs|
    ensures forall x :: x in s.rzs[z].waiting ==> x !in s.runq
  {
    forall x | x in s.rzs[z].waiting ensures x !in s.runq {
      assert x in Members(s, OnRz(z));
      At(s, x, OnRz(z));
      assert x !in Members(s, Runnable);
    }
  }

  lemma AllReady(at: map<TaskId, Place>, us: seq<TaskId>)
    ensures at + (map u | u in us :: Runnable) == at + (map u | u in Elems(us) :: Runnable)
  {
  }

  lemma WokenMembers(s: Sys, z: nat, n: nat)
    requires z < |s.rzs| && n <= |s.rzs[z].waiting| && NoDup(s.rzs[z].waiting)
    ensures var s' := Woken(s, z, n);
      var us := Elems(s.rzs[z].waiting[..n]);
      && Members(s', OnRz(z)) == Members(s, OnRz(z)) - us
      && Members(s', Runnable) == Members(s, Runnable) + us
      && forall p :: p != OnRz(z) && p != Runnable && p != Aside ==> Members(s', p) == Members(s, p)
  {
    CutElems(s.rzs[z].waiting, n);
  }

  lemma WakeupPlaced(s: Sys, z: nat, n: nat)
    requires Placed(s) && z < |s.rzs| && n <= |s.rzs[z].waiting| && NoDup(s.rzs[z].waiting)
    ensures Placed(Woken(s, z, n))
  {
    var us := Elems(s.rzs[z].waiting[..n]);
    WokenMembers(s, z, n);
    AllReady(s.at, s.rzs[z].waiting[..n]);
    assert us <= Members(s, OnRz(z)) == TasksAt(s.at, OnRz(z));
    Moves(s, Woken(s, z, n), us, OnRz(z), Runnable);
  }

  lemma WakeupKeeps(s: Sys, z: nat, all: bool)
    requires SysInv(s) && z < |s.rzs|
    ensures SysInv(DoWakeup(s, z, all))
  {
    var q := s.rzs[z].waiting;
    var n := if all then |q| else if q == [] then 0 else 1;
    WakeupPlaced(s, z, n);
    SleepersNotReady(s, z);
    NoDupConcat(s.runq, q[..n]);
    assert Elems(q) == Members(s, OnRz(z));
    WakeupPromised(s, z, n);
  }

  lemma WakeupPromised(s: Sys, z: nat, n: nat)
    requires Promised(s) && s.cont.Keys == s.at.Keys && z < |s.rzs| && n <= |s.rzs[z].waiting|
    requires Elems(s.rzs[z].waiting) == TasksAt(s.at, OnRz(z))
    ensures Promised(Woken(s, z, n))
  {
    var q := s.rzs[z].waiting;
    var s' := Woken(s, z, n);
    forall x | x in q[..n] ensures x in s.at && s.at[x] == OnRz(z) {
      assert x in Elems(q);
    }
    RedoPromised(s, s', Elems(q[..n]), z);
  }

  /** Sleepers at z become ready. */
  lemma RedoPromised(s: Sys, s': Sys, us: set<TaskId>, z: nat)
    requires Promised(s) && s'.qs == s.qs && s'.cont == s.cont && s'.at.Keys == s.at.Keys && |s'.rzs| == |s.rzs|
    requires forall y :: 0 <= y < |s.rzs| ==> AfterSleep(s'.rzs[y]) == AfterSleep(s.rzs[y])
    requires forall x :: x in us ==> x in s.at && s.at[x] == OnRz(z) && s'.at[x] == Runnable
    requires forall x :: x in s.at && x !in us ==> s'.at[x] == s.at[x]
    ensures Promised(s')
  {
  }

  // Tasks come, go and step aside.

  lemma SwitchKeeps(s: Sys, t: TaskId)
    requires SysInv(s) && s.running == Some(t)
    ensures SysInv(Block(s, t, Aside, Plain))
  {
    var s' := Block(s, t, Aside, Plain);
    At(s, t, Running);
    assert TasksAt(s'.at, Aside) == TasksAt(s.at, Aside) + {t};
    Moves(s, s', {t}, Running, Aside);
    PromisedFrame(s, s', {t});
  }

  lemma ReadyKeeps(s: Sys, u: TaskId)
    requires SysInv(s) && u in s.at && s.at[u] == Aside
    ensures SysInv(Wake(s, [u]))
  {
    var s' := Wake(s, [u]);
    assert u in Members(s, Aside);
    At(s, u, Aside);
    assert u !in Members(s, Runnable);
    ReadyPlaced(s, u);
    NoDupConcat(s.runq, [u]);
    PlainAt(s, u);
    PromisedFrame(s, s', {u});
  }

  lemma ReadyPlaced(s: Sys, u: TaskId)
    requires Placed(s) && u in s.at && s.at[u] == Aside
    ensures Placed(Wake(s, [u]))
  {
    var s' := Wake(s, [u]);
    assert TasksAt(s'.at, Aside) == TasksAt(s.at, Aside) - {u};
    assert Elems(s.runq + [u]) == Elems(s.runq) + {u};
    Moves(s, s', {u}, Aside, Runnable);
  }

  lemma CreateRawKeeps(s: Sys, u: TaskId)
    requires SysInv(s) && u !in s.at
    ensures SysInv(s.(at := s.at[u := Aside], cont := s.cont[u := Plain]))
  {
    var s' := s.(at := s.at[u := Aside], cont := s.cont[u := Plain]);
    forall q ensures Members(s', q) == TasksAt(s'.at, q) {
      assert Members(s, q) == TasksAt(s.at, q);
    }
    PromisedFrame(s, s', {u});
  }

  lemma ExitKeeps(s: Sys, t: TaskId)
    requires SysInv(s) && s.running == Some(t)
    ensures SysInv(s.(running := None, at := s.at - {t}, cont := s.cont - {t}))
  {
    var s' := s.(running := None, at := s.at - {t}, cont := s.cont - {t});
    At(s, t, Running);
    forall q ensures Members(s', q) == TasksAt(s'.at, q) {
      assert Members(s, q) == TasksAt(s.at, q);
    }
    PromisedFrame(s, s', {});
  }

  lemma AlternateParts(s: Sys, t: TaskId, alts: seq<Alt>, canblock: bool, j: nat, k: nat)
    requires SysInv(s) && s.running == Some(t) && Listed(s.w.chans, alts)
    ensures PartsOK(DoAlternate(s, t, alts, canblock, j, k))
  {
    At(s, t, Running);
    assert t !in s.w.blocked by { assert t !in Members(s, OnAlt); }
    CallBlocked(s.w, t, alts, canblock, j, k);
    var r := ChanAlt(s.w, t, alts, canblock, j, k);
    if r.woken.Some? {
      assert r.woken.value in Members(s, OnAlt);
      At(s, r.woken.value, OnAlt);
      assert r.woken.value !in Members(s, Runnable);
      NoDupConcat(s.runq, [r.woken.value]);
    }
  }

  lemma WorldKeeps(s: Sys, w: World)
    requires SysInv(s) && Inv(w) && w.blocked == s.w.blocked
    ensures SysInv(s.(w := w))
  {
    Same(s, s.(w := w));
    PromisedFrame(s, s.(w := w), {});
  }

  /** Every step any task or the scheduler can take keeps the invariant. */
  lemma DoKeeps(s: Sys, e: Ev)
    requires SysInv(s) && Enabled(s, e)
    ensures SysInv(Do(s, e))
  {
    match e
    case Turn => TurnKeeps(s);
    case Alternate(alts, canblock, j, k) => AlternateKeeps(s, s.running.value, alts, canblock, j, k);
    case Store(loc, x) =>
      ChannelRuns.ApplyKeepsInv(s.w, ChannelRuns.Write(loc, x));
      WorldKeeps(s, s.w.(mem := s.w.mem[loc := x]));
    case ChanCreate(n) =>
      ChannelRuns.CreateKeepsInv(s.w, n);
      WorldKeeps(s, s.w.(chans := s.w.chans + [ChannelRuns.NewChan(n)]));
    case Lock(l, block) => LockKeeps(s, s.running.value, l, block);
    case Unlock(l) => At(s, s.running.value, Running); UnlockKeeps(s, s.running.value, l);
    case ReadLock(l, block) => RWKeeps(s, s.running.value, l, Event.ReadLock(s.running.value, block), OnR(l));
    case WriteLock(l, block) => RWKeeps(s, s.running.value, l, Event.WriteLock(s.running.value, block), OnW(l));
    case ReadUnlock(l) => RWKeeps(s, s.running.value, l, Event.ReadUnlock(s.running.value), Running);
    case WriteUnlock(l) => RWKeeps(s, s.running.value, l, Event.WriteUnlock(s.running.value), Running);
    case Sleep(z) => SleepKeeps(s, s.running.value, z);
    case Wakeup(z, all) => WakeupKeeps(s, z, all);
    case Yield =>
      SwitchKeeps(s, s.running.value);
      ReadyKeeps(Block(s, s.running.value, Aside, Plain), s.running.value);
    case Create(u) =>
      CreateRawKeeps(s, u);
      ReadyKeeps(s.(at := s.at[u := Aside], cont := s.cont[u := Plain]), u);
    case CreateRaw(u) => CreateRawKeeps(s, u);
    case Ready(u) => ReadyKeeps(s, u);
    case Switch => SwitchKeeps(s, s.running.value);
    case Exit => ExitKeeps(s, s.running.value);
  }

  // ----- what holds over every run

  /** Before the scheduler starts: some tasks created, objects new and unused. */
  ghost function Boot(us: seq<TaskId>, qs: nat, rws: nat, rzs: seq<Option<nat>>): Sys {
    Sys(us, None, map t | t in us :: Runnable, map t | t in us :: Plain, ChannelRuns.START,
        seq(qs, _ => QL(None, [])), seq(rws, _ => Held(RW(0, None, [], []), multiset{})),
        seq(|rzs|, i requires 0 <= i < |rzs| => Rz(rzs[i], [])))
  }

  lemma BootOK(us: seq<TaskId>, qs: nat, rws: nat, rzs: seq<Option<nat>>)
    requires NoDup(us) && forall i :: 0 <= i < |rzs| && rzs[i].Some? ==> rzs[i].value < qs
    ensures SysInv(Boot(us, qs, rws, rzs)) && Released(Boot(us, qs, rws, rzs))
  {
    var s := Boot(us, qs, rws, rzs);
    forall p ensures Members(s, p) == TasksAt(s.at, p) {}
  }

  ghost predicate Step(s: Sys, e: Ev, s': Sys) {
    Enabled(s, e) && (SysInv(s) ==> s' == Do(s, e))
  }

  ghost predicate IsRun(ss: seq<Sys>, es: seq<Ev>) {
    && |ss| == |es| + 1 && SysInv(ss[0]) && Released(ss[0])
    && forall i :: 0 <= i < |es| ==> Step(ss[i], es[i], ss[i + 1])
  }

  lemma {:induction false} AlwaysSysInv(ss: seq<Sys>, es: seq<Ev>)
    requires IsRun(ss, es)
    ensures forall i :: 0 <= i < |ss| ==> SysInv(ss[i])
  {
    if es != [] {
      var n := |es| - 1;
      assert IsRun(ss[..n + 1], es[..n]);
      AlwaysSysInv(ss[..n + 1], es[..n]);
      assert SysInv(ss[n]) && Step(ss[n], es[n], ss[n + 1]);
      DoKeeps(ss[n], es[n]);
    }
  }

  lemma RunStep(ss: seq<Sys>, es: seq<Ev>, n: nat)
    requires IsRun(ss, es) && n < |es|
    ensures SysInv(ss[n]) && Enabled(ss[n], es[n]) && ss[n + 1] == Do(ss[n], es[n])
  {
    AlwaysSysInv(ss, es);
    assert SysInv(ss[n]) && Step(ss[n], es[n], ss[n + 1]);
  }

  /** The scheduler found nothing to run, with tasks left. */
  ghost predicate Stalled(s: Sys) {
    s.running.None? && s.runq == [] && s.at != map[]
  }

  /** Nothing a blocked task waits for is there: no data or space for any of its
      alternatives, no other task to exchange with, and no free lock. */
  ghost predicate TrulyBlocked(s: Sys, t: TaskId)
    requires t in s.at
  {
    match s.at[t]
    case OnAlt => t in s.w.blocked && forall i :: 0 <= i < |s.w.blocked[t]| ==> Hopeless(s.w, t, s.w.blocked[t][i])
    case OnQ(l) => l < |s.qs| && s.qs[l].owner.Some?
    case OnR(l) => l < |s.rws| && (s.rws[l].l.writer.Some? || s.rws[l].l.wwaiting != [])
                   && (s.rws[l].l.writer.Some? || 0 < s.rws[l].l.readers)
    case OnW(l) => l < |s.rws| && (s.rws[l].l.writer.Some? || 0 < s.rws[l].l.readers)
    case OnRz(z) => z < |s.rzs| && t in s.rzs[z].waiting
    case Aside => true
    case _ => false
  }

  ghost predicate Hopeless(w: World, t: TaskId, a: Alt) {
    a.op != Nop ==>
      a.c < |w.chans|
      && (0 < w.chans[a.c].bufsize ==> w.chans[a.c].nbuf == if a.op == Snd then w.chans[a.c].bufsize else 0)
      && forall u, j :: u in w.blocked && u != t && 0 <= j < |w.blocked[u]| && w.blocked[u][j].op != Nop ==>
           w.blocked[u][j].c != a.c || w.blocked[u][j].op == a.op
  }

  lemma AltsHopeless(w: World, t: TaskId, i: nat)
    requires Inv(w) && t in w.blocked && i < |w.blocked[t]|
    ensures Hopeless(w, t, w.blocked[t][i])
  {
    var a := w.blocked[t][i];
    assert a in w.blocked[t] && Listed(w.chans, w.blocked[t]);
    if a.op != Nop {
      assert ChannelSpec.Queued(w.chans[a.c], a.op, AltRef(t, i));
      assert NoMissed(w.chans[a.c]) && Fifo(w.chans[a.c]);
      forall u, j | u in w.blocked && u != t && 0 <= j < |w.blocked[u]| && w.blocked[u][j].op != Nop
        && w.blocked[u][j].c == a.c
        ensures w.blocked[u][j].op == a.op
      {
        var b := w.blocked[u][j];
        assert b in w.blocked[u] && Listed(w.chans, w.blocked[u]);
        assert ChannelSpec.Queued(w.chans[a.c], b.op, AltRef(u, j));
      }
    }
  }

  /** When the scheduler reports stalled tasks they are deadlocked: no step is
      possible, and every task that did not step aside by itself waits for
      something that nobody left can provide. */
  lemma StallIsDeadlock(ss: seq<Sys>, es: seq<Ev>, i: nat)
    requires IsRun(ss, es) && i < |ss| && Stalled(ss[i])
    ensures forall e :: !Enabled(ss[i], e)
    ensures forall t :: t in ss[i].at ==> StuckAt(ss[i], t)
  {
    AlwaysSysInv(ss, es);
    var s := ss[i];
    forall t | t in s.at ensures StuckAt(s, t) { Stuck(s, t); }
  }

  ghost predicate StuckAt(s: Sys, t: TaskId) {
    t in s.at && TrulyBlocked(s, t)
  }

  lemma Stuck(s: Sys, t: TaskId)
    requires SysInv(s) && Stalled(s) && t in s.at
    ensures StuckAt(s, t)
  {
    assert t in TasksAt(s.at, s.at[t]);
    assert Members(s, s.at[t]) == TasksAt(s.at, s.at[t]);
    match s.at[t]
    case OnAlt =>
      forall k | 0 <= k < |s.w.blocked[t]| ensures Hopeless(s.w, t, s.w.blocked[t][k]) { AltsHopeless(s.w, t, k); }
    case OnQ(l) => assert QInv(s.qs[l]);
    case OnR(l) => assert HeldInv(s.rws[l]);
    case OnW(l) => assert HeldInv(s.rws[l]);
    case _ =>
  }

  /** Coming back from the task switch of _qlock the caller owns the lock, so the
      check there never aborts; and tasksleep, which locks again after its switch,
      either has the lock at once or waits for it in that same queue. */
  lemma TurnHoldsLock(s: Sys)
    requires SysInv(s) && Enabled(s, Turn)
    ensures var t, s' := s.runq[0], Do(s, Turn);
      t in s.cont && s'.runq == s.runq[1..]
      && (s.cont[t].Plain? ==> s'.running == Some(t))
      && (s.cont[t].CheckOwner? ==> s'.running == Some(t) && s'.qs[s.cont[t].l].owner == Some(t))
      && (s.cont[t].Relock? ==>
        if s'.running == Some(t) then s'.qs[s.cont[t].l].owner == Some(t)
        else t in s'.at && s'.at[t] == OnQ(s.cont[t].l) && s'.cont[t] == CheckOwner(s.cont[t].l))
  {
    TurnOK(s);
    assert s.runq[0] in s.cont.Keys;
  }

  /** A task that sleeps on a rendezvous point keeps its place until a wakeup on that
      point makes it ready; wakeupall makes all sleepers ready, in order. */
  lemma SleeperStays(s: Sys, e: Ev, t: TaskId, z: nat)
    requires SysInv(s) && Enabled(s, e) && z < |s.rzs| && t in s.rzs[z].waiting
    ensures var s' := Do(s, e);
      z < |s'.rzs| &&
      if t in s'.rzs[z].waiting then !(e.Wakeup? && e.z == z && e.all) else e.Wakeup? && e.z == z && t in s'.runq
    ensures e == Wakeup(z, true) ==> Do(s, e).runq == s.runq + s.rzs[z].waiting
  {
    if e.Wakeup? && e.z == z {
      var q := s.rzs[z].waiting;
      var n := if e.all then |q| else if q == [] then 0 else 1;
      assert q == q[..n] + q[n..];
    }
  }
}
