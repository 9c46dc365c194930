/** Who holds a lock, told from the calls alone: a queuing lock is a line whose head owns
    it, and a reader-writer lock lets in one writer or some readers. */
module LockHolders {
  import opened Base
  import opened LockSpec

  // ----- queuing locks

  /** The line of those who have come and not left after n calls: a caller that does not
      want to wait joins only an empty line. */
  ghost function Line(es: seq<QEvent>, n: nat): seq<TaskId>
    requires n <= |es|
  {
    if n == 0 then []
    else
      var q := Line(es, n - 1);
      match es[n - 1]
      case Lock(t, block) => if block || q == [] then q + [t] else q
      case Unlock(_) => if q == [] then [] else q[1..]
  }

  /** The lock when this line stands at it. */
  ghost function Headed(q: seq<TaskId>): QL {
    if q == [] then QL(None, []) else QL(Some(q[0]), q[1..])
  }

  lemma LineStep(q: seq<TaskId>, e: QEvent)
    requires e.Unlock? ==> q != []
    ensures QNext(Headed(q), e) ==
      Headed(match e case Lock(t, block) => if block || q == [] then q + [t] else q case Unlock(_) => q[1..])
  {
    if e.Lock? && q != [] { assert (q + [e.t])[1..] == q[1..] + [e.t]; }
  }

  /** The head of the line owns the lock, the others wait in the order of the line. */
  lemma {:induction false} OwnerHeadsLine(ls: seq<QL>, es: seq<QEvent>, n: nat)
    requires IsQRun(ls, es) && ls[0] == QL(None, []) && n <= |es|
    ensures ls[n] == Headed(Line(es, n))
  {
    if n != 0 {
      OwnerHeadsLine(ls, es, n - 1);
      assert QAllowed(ls[n - 1], es[n - 1]) && ls[n] == QNext(ls[n - 1], es[n - 1]);
      LineStep(Line(es, n - 1), es[n - 1]);
    }
  }

  /** A call finds the lock free just if the line is empty; then it has the lock, whether
      or not it would wait. */
  lemma LockAnswers(ls: seq<QL>, es: seq<QEvent>, n: nat)
    requires IsQRun(ls, es) && ls[0] == QL(None, []) && n < |es| && es[n].Lock?
    ensures QLock(ls[n], es[n].t, es[n].block).1 ==
      if Line(es, n) == [] then Got else if es[n].block then Queued else Refused
  {
    OwnerHeadsLine(ls, es, n);
  }

  // ----- reader-writer locks

  lemma WriterStep(s: Held, e: Event, w: TaskId)
    requires HeldInv(s) && Allowed(s, e) && s.l.writer == Some(w) && e != WriteUnlock(w)
    ensures Next(s, e).l.writer == Some(w) && Granted(s, e).None? && Admitted(s, e) == []
    ensures Next(s, e).rholders == multiset{} == s.rholders
  {
    assert |s.rholders| == 0;
  }

  /** Mutual exclusion: as long as a writer has not unlocked, it holds the lock, nobody
      else is let in, and nobody reads. */
  lemma {:induction false} WriterAlone(ss: seq<Held>, es: seq<Event>, w: TaskId, i: nat, j: nat)
    requires IsRun(ss, es) && i <= j <= |es| && ss[i].l.writer == Some(w)
    requires forall m :: i <= m < j ==> es[m] != WriteUnlock(w)
    ensures ss[j].l.writer == Some(w) && ss[j].rholders == multiset{}
    ensures forall m :: i <= m < j ==> Granted(ss[m], es[m]).None? && Admitted(ss[m], es[m]) == []
    decreases j
  {
    AlwaysHeldInv(ss, es);
    assert HeldInv(ss[j]);
    if i < j {
      WriterAlone(ss, es, w, i, j - 1);
      assert HeldInv(ss[j - 1]) && Allowed(ss[j - 1], es[j - 1]);
      WriterStep(ss[j - 1], es[j - 1], w);
    }
  }

  /** Nobody holds the lock. */
  ghost predicate Free(s: Held) {
    s.l.writer.None? && s.rholders == multiset{}
  }

  /** The same holders. */
  ghost predicate SameHolders(s: Held, s': Held) {
    s'.rholders == s.rholders && s'.l.writer == s.l.writer
  }

  /** The same tasks wait. */
  ghost predicate SameWaiters(s: Held, s': Held) {
    s'.l.rwaiting == s.l.rwaiting && s'.l.wwaiting == s.l.wwaiting
  }

  /** A call for reading: in as one more reader unless a writer holds the lock or waits for
      it, else to the end of the waiting readers, or nothing. */
  lemma ReaderAnswers(ss: seq<Held>, es: seq<Event>, n: nat)
    requires IsRun(ss, es) && n < |es| && es[n].ReadLock?
    ensures var s, s', t, o := ss[n], ss[n + 1], es[n].t, RLock(ss[n].l, es[n].t, es[n].block).1;
      if s.l.writer.None? && s.l.wwaiting == []
      then o == Got && s' == Held(s'.l, s.rholders + multiset{t}) && s'.l.writer.None? && SameWaiters(s, s')
      else if es[n].block
      then o == Queued && SameHolders(s, s') && s'.l.rwaiting == s.l.rwaiting + [t] && s'.l.wwaiting == s.l.wwaiting
      else o == Refused && s' == s
  {
    StepInRun(ss, es, n);
  }

  /** A call for writing: in if nobody holds the lock, else to the end of the waiting
      writers, or nothing. */
  lemma WriterAnswers(ss: seq<Held>, es: seq<Event>, n: nat)
    requires IsRun(ss, es) && n < |es| && es[n].WriteLock?
    ensures var s, s', t, o := ss[n], ss[n + 1], es[n].t, WLock(ss[n].l, es[n].t, es[n].block).1;
      if Free(s) then o == Got && s'.l.writer == Some(t) && s'.rholders == multiset{} && SameWaiters(s, s')
      else if es[n].block
      then o == Queued && SameHolders(s, s') && s'.l.wwaiting == s.l.wwaiting + [t] && s'.l.rwaiting == s.l.rwaiting
      else o == Refused && s' == s
  {
    AlwaysHeldInv(ss, es);
    assert HeldInv(ss[n]) && HeldInv(ss[n + 1]);
    StepInRun(ss, es, n);
  }

  /** An unlock by a reader takes that reader's hold away; when nobody reads any more,
      the first waiting writer holds the lock, and without one nobody does. */
  lemma ReaderLeaves(ss: seq<Held>, es: seq<Event>, n: nat)
    requires IsRun(ss, es) && n < |es| && es[n].ReadUnlock?
    ensures var s, s' := ss[n], ss[n + 1];
      && s'.rholders == s.rholders - multiset{es[n].t} && s'.l.rwaiting == s.l.rwaiting
      && if s'.rholders != multiset{} then s'.l.writer.None? && s'.l.wwaiting == s.l.wwaiting
         else if s.l.wwaiting == [] then Free(s') && s'.l.wwaiting == []
         else s'.l.writer == Some(s.l.wwaiting[0]) && s'.l.wwaiting == s.l.wwaiting[1..]
  {
    AlwaysHeldInv(ss, es);
    assert HeldInv(ss[n]) && HeldInv(ss[n + 1]);
    StepInRun(ss, es, n);
    assert ss[n].l.readers > 0;
  }

  /** An unlock by the writer hands the lock to all waiting readers together; without one
      to the first waiting writer, and without one to nobody. */
  lemma WriterLeaves(ss: seq<Held>, es: seq<Event>, n: nat)
    requires IsRun(ss, es) && n < |es| && es[n].WriteUnlock?
    ensures var s, s' := ss[n], ss[n + 1];
      && s'.rholders == multiset(s.l.rwaiting) && s'.l.rwaiting == []
      && if s.l.rwaiting != [] then s'.l.writer.None? && s'.l.wwaiting == s.l.wwaiting
         else if s.l.wwaiting == [] then Free(s') && s'.l.wwaiting == []
         else s'.l.writer == Some(s.l.wwaiting[0]) && s'.l.wwaiting == s.l.wwaiting[1..]
  {
    AlwaysHeldInv(ss, es);
    assert HeldInv(ss[n]) && HeldInv(ss[n + 1]);
    StepInRun(ss, es, n);
  }
}
