/** Queuing locks, reader-writer locks and rendezvous points as functions on values,
    and what they guarantee over every run of calls on one lock. */
module LockSpec {
  import opened Base

  // ----- QLock

  datatype QL = QL(owner: Option<TaskId>, waiting: seq<TaskId>)

  datatype LockOutcome = Got | Refused | Queued

  ghost function QLock(l: QL, t: TaskId, block: bool): (QL, LockOutcome) {
    if l.owner.None? then (l.(owner := Some(t)), Got)
    else if !block then (l, Refused)
    else (l.(waiting := l.waiting + [t]), Queued)
  }

  ghost function QUnlock(l: QL): (QL, Option<TaskId>) {
    if l.waiting == [] then (l.(owner := None), None)
    else (QL(Some(l.waiting[0]), l.waiting[1..]), Some(l.waiting[0]))
  }

  /** A free lock has no waiters. */
  ghost predicate QInv(l: QL) {
    NoDup(l.waiting) && (l.waiting != [] ==> l.owner.Some?)
  }

  // ----- RWLock

  datatype RW = RW(readers: int, writer: Option<TaskId>, rwaiting: seq<TaskId>, wwaiting: seq<TaskId>)

  ghost function RLock(l: RW, t: TaskId, block: bool): (RW, LockOutcome) {
    if l.writer.None? && l.wwaiting == [] then (l.(readers := l.readers + 1), Got)
    else if !block then (l, Refused)
    else (l.(rwaiting := l.rwaiting + [t]), Queued)
  }

  ghost function WLock(l: RW, t: TaskId, block: bool): (RW, LockOutcome) {
    if l.writer.None? && l.readers == 0 then (l.(writer := Some(t)), Got)
    else if !block then (l, Refused)
    else (l.(wwaiting := l.wwaiting + [t]), Queued)
  }

  /** The first waiting writer gets the lock when no reader is left. */
  ghost function GrantWriter(l: RW): (RW, Option<TaskId>) {
    if l.readers == 0 && l.wwaiting != []
    then (l.(writer := Some(l.wwaiting[0]), wwaiting := l.wwaiting[1..]), Some(l.wwaiting[0]))
    else (l, None)
  }

  ghost function RUnlock(l: RW): (RW, Option<TaskId>) {
    GrantWriter(l.(readers := l.readers - 1))
  }

  /** All waiting readers enter together; with none, the first writer does. */
  ghost function WUnlock(l: RW): (RW, Option<TaskId>) {
    GrantWriter(l.(writer := None, readers := l.readers + |l.rwaiting|, rwaiting := []))
  }

  ghost predicate RWInv(l: RW) {
    && 0 <= l.readers
    && (l.writer.Some? ==> l.readers == 0)
    && (l.wwaiting != [] ==> l.writer.Some? || 0 < l.readers)
    && (l.rwaiting != [] ==> l.writer.Some? || l.wwaiting != [])
    && NoDup(l.rwaiting) && NoDup(l.wwaiting)
    && (forall t :: t in l.rwaiting ==> t !in l.wwaiting)
  }

  // ----- runs of calls on one reader-writer lock

  datatype Event =
    | ReadLock(t: TaskId, block: bool) | ReadUnlock(t: TaskId)
    | WriteLock(t: TaskId, block: bool) | WriteUnlock(t: TaskId)

  /** The lock, and who holds it for reading, with multiplicity. */
  datatype Held = Held(l: RW, rholders: multiset<TaskId>)

  ghost predicate HeldInv(s: Held) {
    RWInv(s.l) && s.l.readers == |s.rholders|
  }

  /** Callers do not wait on the lock, and unlock only what they hold. */
  ghost predicate Allowed(s: Held, e: Event) {
    && e.t !in s.l.rwaiting && e.t !in s.l.wwaiting
    && (e.ReadUnlock? ==> e.t in s.rholders)
    && (e.WriteUnlock? ==> s.l.writer == Some(e.t))
  }

  ghost function Next(s: Held, e: Event): Held {
    match e
    case ReadLock(t, block) =>
      var (l, o) := RLock(s.l, t, block);
      Held(l, if o == Got then s.rholders + multiset{t} else s.rholders)
    case ReadUnlock(t) => Held(RUnlock(s.l).0, s.rholders - multiset{t})
    case WriteLock(t, block) => Held(WLock(s.l, t, block).0, s.rholders)
    case WriteUnlock(t) => Held(WUnlock(s.l).0, s.rholders + multiset(s.l.rwaiting))
  }

  /** The task that event e lets in for writing. */
  ghost function Granted(s: Held, e: Event): Option<TaskId> {
    match e
    case ReadLock(_, _) => None
    case ReadUnlock(_) => RUnlock(s.l).1
    case WriteLock(t, block) => if WLock(s.l, t, block).1 == Got then Some(t) else None
    case WriteUnlock(_) => WUnlock(s.l).1
  }

  /** The tasks that event e lets in for reading. */
  ghost function Admitted(s: Held, e: Event): seq<TaskId> {
    match e
    case ReadLock(t, block) => if RLock(s.l, t, block).1 == Got then [t] else []
    case WriteUnlock(_) => s.l.rwaiting
    case _ => []
  }

  ghost predicate IsRun(ss: seq<Held>, es: seq<Event>) {
    && |ss| == |es| + 1 && HeldInv(ss[0])
    && forall i :: 0 <= i < |es| ==> Allowed(ss[i], es[i]) && ss[i + 1] == Next(ss[i], es[i])
  }

  lemma NextKeepsInv(s: Held, e: Event)
    requires HeldInv(s) && Allowed(s, e)
    ensures HeldInv(Next(s, e))
    ensures e.WriteUnlock? ==> s.l.readers == 0
  {
    match e
    case ReadLock(t, block) =>
    case ReadUnlock(t) => RUnlockKeeps(s, t);
    case WriteLock(t, block) =>
    case WriteUnlock(t) => WUnlockKeeps(s);
  }

  lemma RUnlockKeeps(s: Held, t: TaskId)
    requires HeldInv(s) && Allowed(s, ReadUnlock(t))
    ensures HeldInv(Next(s, ReadUnlock(t)))
  {
    if s.l.wwaiting != [] {
      assert forall x :: x in s.l.wwaiting[1..] ==> x in s.l.wwaiting;
    }
  }

  lemma WUnlockKeeps(s: Held)
    requires HeldInv(s) && s.l.writer.Some?
    ensures HeldInv(Next(s, WriteUnlock(s.l.writer.value))) && s.l.readers == 0
  {
    if s.l.wwaiting != [] {
      assert forall x :: x in s.l.wwaiting[1..] ==> x in s.l.wwaiting;
    }
  }

  /** Safety and no lost wakeup in every reachable state; the abort of wunlock for
      remaining readers is never taken by callers that unlock what they hold. */
  lemma {:induction false} AlwaysHeldInv(ss: seq<Held>, es: seq<Event>)
    requires IsRun(ss, es)
    ensures forall i :: 0 <= i < |ss| ==> HeldInv(ss[i])
    ensures forall i :: 0 <= i < |es| && es[i].WriteUnlock? ==> ss[i].l.readers == 0
  {
    if es != [] {
      var n := |es| - 1;
      assert IsRun(ss[..n + 1], es[..n]);
      AlwaysHeldInv(ss[..n + 1], es[..n]);
      assert HeldInv(ss[n]);
      NextKeepsInv(ss[n], es[n]);
    }
  }

  ghost function Grants(ss: seq<Held>, es: seq<Event>, n: nat): nat
    requires n <= |es| < |ss|
  {
    if n == 0 then 0 else Grants(ss, es, n - 1) + (if Granted(ss[n - 1], es[n - 1]).Some? then 1 else 0)
  }

  lemma ReaderWaits(s: Held, e: Event, r: TaskId)
    requires RWInv(s.l) && Allowed(s, e) && r in s.l.rwaiting
    ensures if r in Next(s, e).l.rwaiting
      then (Granted(s, e).Some? ==> s.l.writer.None?)
        && (s.l.writer.Some? || Granted(s, e).Some? ==> Next(s, e).l.writer.Some?)
      else Granted(s, e).None?
  {
    match e
    case ReadLock(t, block) =>
    case ReadUnlock(t) =>
    case WriteLock(t, block) =>
    case WriteUnlock(t) => assert s.l.rwaiting != [];
  }

  /** Bounded bypass for readers: as long as a reader waits, and up to the event that
      admits it, at most one writer gets the lock. */
  lemma {:induction false} ReaderBypass(ss: seq<Held>, es: seq<Event>, r: TaskId, n: nat)
    requires IsRun(ss, es) && n <= |es|
    requires forall i :: 0 <= i < n ==> r in ss[i].l.rwaiting
    ensures Grants(ss, es, n) <= 1
    ensures Grants(ss, es, n) == 1 && r in ss[n].l.rwaiting ==> ss[n].l.writer.Some?
  {
    if n != 0 {
      ReaderBypass(ss, es, r, n - 1);
      StepInRun(ss, es, n - 1);
      ReaderWaits(ss[n - 1], es[n - 1], r);
    }
  }

  lemma StepInRun(ss: seq<Held>, es: seq<Event>, i: nat)
    requires IsRun(ss, es) && i < |es|
    ensures RWInv(ss[i].l) && Allowed(ss[i], es[i]) && ss[i + 1] == Next(ss[i], es[i])
  {
    AlwaysHeldInv(ss, es);
    assert HeldInv(ss[i]);
  }

  /** When a waiting reader leaves the queue it has been admitted, with all others that waited. */
  lemma ReaderAdmitted(s: Held, e: Event, r: TaskId)
    requires HeldInv(s) && Allowed(s, e) && r in s.l.rwaiting && r !in Next(s, e).l.rwaiting
    ensures e.WriteUnlock? && r in Admitted(s, e) && r in Next(s, e).rholders
    ensures Next(s, e).l.rwaiting == [] && Granted(s, e).None?
  {
  }

  /** First come, first served among writers: behind k others, a writer gets the lock
      at exactly the grant that follows k further ones. */
  lemma {:induction false} WriterInTurn(ss: seq<Held>, es: seq<Event>, w: TaskId, k: nat, n: nat)
    requires IsRun(ss, es) && n <= |es| && k < |ss[0].l.wwaiting| && ss[0].l.wwaiting[k] == w
    requires forall i :: 0 <= i < n ==> w in ss[i].l.wwaiting
    ensures InTurn(ss, es, w, k, n)
  {
    if n != 0 {
      WriterInTurn(ss, es, w, k, n - 1);
      StepInRun(ss, es, n - 1);
      InTurnStep(ss, es, w, k, n - 1);
    }
  }

  /** After n events, g of which granted the lock, w has k - g writers before it, or was
      granted the lock by the last event, as the one behind k others. */
  ghost predicate InTurn(ss: seq<Held>, es: seq<Event>, w: TaskId, k: nat, n: nat)
    requires n <= |es| < |ss|
  {
    var g := Grants(ss, es, n);
    if w in ss[n].l.wwaiting then g <= k && At(ss[n].l.wwaiting, k - g, w)
    else 0 < n && Granted(ss[n - 1], es[n - 1]) == Some(w) && ss[n].l.writer == Some(w) && g == k + 1
  }

  lemma InTurnStep(ss: seq<Held>, es: seq<Event>, w: TaskId, k: nat, i: nat)
    requires i < |es| < |ss| && RWInv(ss[i].l) && Allowed(ss[i], es[i]) && ss[i + 1] == Next(ss[i], es[i])
    requires InTurn(ss, es, w, k, i) && w in ss[i].l.wwaiting
    ensures InTurn(ss, es, w, k, i + 1)
  {
    InTurnAfter(ss[i], es[i], w, k, Grants(ss, es, i));
  }

  lemma InTurnAfter(s: Held, e: Event, w: TaskId, k: nat, g: nat)
    requires RWInv(s.l) && Allowed(s, e) && g <= k && At(s.l.wwaiting, k - g, w)
    ensures var g1 := g + (if Granted(s, e).Some? then 1 else 0);
      if w in Next(s, e).l.wwaiting then g1 <= k && At(Next(s, e).l.wwaiting, k - g1, w)
      else Granted(s, e) == Some(w) && Next(s, e).l.writer == Some(w) && g1 == k + 1
  {
    WriterMoves(s, e, w, k - g);
  }

  ghost predicate At(q: seq<TaskId>, p: int, w: TaskId) {
    0 <= p < |q| && q[p] == w
  }

  lemma WriterMoves(s: Held, e: Event, w: TaskId, p: nat)
    requires RWInv(s.l) && Allowed(s, e) && At(s.l.wwaiting, p, w)
    ensures var q := Next(s, e).l.wwaiting;
      if Granted(s, e).None? then At(q, p, w)
      else if p == 0 then w !in q && Granted(s, e) == Some(w) && Next(s, e).l.writer == Some(w)
      else At(q, p - 1, w)
  {
    match e
    case ReadLock(t, block) =>
    case ReadUnlock(t) => assert forall x :: x in s.l.wwaiting[1..] ==> x != s.l.wwaiting[0];
    case WriteLock(t, block) =>
    case WriteUnlock(t) => assert forall x :: x in s.l.wwaiting[1..] ==> x != s.l.wwaiting[0];
  }

  /** Writers have precedence: while one waits, the only readers let in are the batch
      of all those waiting, when a writer unlocks. */
  lemma ReadersOnlyInBatch(s: Held, e: Event)
    requires HeldInv(s) && Allowed(s, e) && s.l.wwaiting != [] && Admitted(s, e) != []
    ensures e.WriteUnlock? && Admitted(s, e) == s.l.rwaiting
  {
  }

  // ----- runs of calls on one queuing lock

  datatype QEvent = Lock(t: TaskId, block: bool) | Unlock(t: TaskId)

  /** A caller does not wait on the lock, and unlocks it only as its owner. */
  ghost predicate QAllowed(l: QL, e: QEvent) {
    e.t !in l.waiting && (e.Unlock? ==> l.owner == Some(e.t))
  }

  ghost function QNext(l: QL, e: QEvent): QL {
    match e
    case Lock(t, block) => QLock(l, t, block).0
    case Unlock(_) => QUnlock(l).0
  }

  ghost predicate IsQRun(ls: seq<QL>, es: seq<QEvent>) {
    && |ls| == |es| + 1 && QInv(ls[0])
    && forall i :: 0 <= i < |es| ==> QAllowed(ls[i], es[i]) && ls[i + 1] == QNext(ls[i], es[i])
  }

  lemma QNextKeepsInv(l: QL, e: QEvent)
    requires QInv(l) && QAllowed(l, e)
    ensures QInv(QNext(l, e))
  {}

  /** A free lock never has waiters. */
  lemma {:induction false} AlwaysQInv(ls: seq<QL>, es: seq<QEvent>)
    requires IsQRun(ls, es)
    ensures forall i :: 0 <= i < |ls| ==> QInv(ls[i])
  {
    if es != [] {
      var n := |es| - 1;
      assert IsQRun(ls[..n + 1], es[..n]);
      AlwaysQInv(ls[..n + 1], es[..n]);
      assert QInv(ls[n]);
      QNextKeepsInv(ls[n], es[n]);
    }
  }

  ghost function Unlocks(es: seq<QEvent>, n: nat): nat
    requires n <= |es|
  {
    if n == 0 then 0 else Unlocks(es, n - 1) + (if es[n - 1].Unlock? then 1 else 0)
  }

  /** Strict order of arrival: behind k others, a waiter owns the lock from the unlock
      that follows k further ones, and from no other moment. */
  lemma {:induction false} OwnedInTurn(ls: seq<QL>, es: seq<QEvent>, w: TaskId, k: nat, n: nat)
    requires IsQRun(ls, es) && n <= |es| && At(ls[0].waiting, k, w)
    requires forall i :: 0 <= i < n ==> w in ls[i].waiting
    ensures if w in ls[n].waiting then Unlocks(es, n) <= k && At(ls[n].waiting, k - Unlocks(es, n), w)
      else 0 < n && es[n - 1].Unlock? && ls[n].owner == Some(w) && Unlocks(es, n) == k + 1
  {
    if n != 0 {
      OwnedInTurn(ls, es, w, k, n - 1);
      OwnedInTurnAt(ls, es, w, k, n - 1, Unlocks(es, n - 1));
    }
  }

  lemma OwnedInTurnAt(ls: seq<QL>, es: seq<QEvent>, w: TaskId, k: nat, i: nat, g: nat)
    requires IsQRun(ls, es) && i < |es| && g <= k && At(ls[i].waiting, k - g, w)
    ensures var g1 := g + (if es[i].Unlock? then 1 else 0);
      if w in ls[i + 1].waiting then g1 <= k && At(ls[i + 1].waiting, k - g1, w)
      else es[i].Unlock? && ls[i + 1].owner == Some(w) && g1 == k + 1
  {
    AlwaysQInv(ls, es);
    assert QInv(ls[i]);
    var q := ls[i].waiting;
    assert forall x :: x in q[1..] ==> x != q[0];
    if es[i].Unlock? && g < k { assert At(q[1..], k - g - 1, w); }
  }

  /** Once handed to w the lock is w's until w unlocks it: the owner check after the
      task switch in _qlock never fails, however late w runs. */
  lemma {:induction false} OwnerStays(ls: seq<QL>, es: seq<QEvent>, w: TaskId, n: nat)
    requires IsQRun(ls, es) && n <= |es| && ls[0].owner == Some(w)
    requires forall i :: 0 <= i < n ==> es[i] != Unlock(w)
    ensures ls[n].owner == Some(w)
  {
    if n != 0 {
      OwnerStays(ls, es, w, n - 1);
      assert QAllowed(ls[n - 1], es[n - 1]) && ls[n] == QNext(ls[n - 1], es[n - 1]);
    }
  }
}
