/** A run of the whole system, seen at one lock or at the channels alone, is a run of that
    part: what is proved of runs of the parts holds in the system. */
module KernelViews {
  import opened Base
  import opened ChannelSpec
  import ChannelRuns
  import opened LockSpec
  import opened Kernel

  // ----- a reader-writer lock

  /** What this step is for reader-writer lock l. */
  ghost function RWCall(s: Sys, e: Ev, l: nat): seq<Event> {
    if s.running.None? then []
    else
      var t := s.running.value;
      match e
      case ReadLock(m, block) => if m == l then [Event.ReadLock(t, block)] else []
      case WriteLock(m, block) => if m == l then [Event.WriteLock(t, block)] else []
      case ReadUnlock(m) => if m == l then [Event.ReadUnlock(t)] else []
      case WriteUnlock(m) => if m == l then [Event.WriteUnlock(t)] else []
      case _ => []
  }

  /** The calls on lock l among the first n steps. */
  ghost function RWCalls(ss: seq<Sys>, es: seq<Ev>, l: nat, n: nat): seq<Event>
    requires n <= |es| < |ss|
  {
    if n == 0 then [] else RWCalls(ss, es, l, n - 1) + RWCall(ss[n - 1], es[n - 1], l)
  }

  lemma RWStep(s: Sys, e: Ev, l: nat)
    requires SysInv(s) && Enabled(s, e) && l < |s.rws|
    ensures var s', xs := Do(s, e), RWCall(s, e, l);
      && |s'.rws| == |s.rws|
      && if xs == [] then s'.rws[l] == s.rws[l]
         else xs == [xs[0]] && Allowed(s.rws[l], xs[0]) && s'.rws[l] == Next(s.rws[l], xs[0])
  {
    if RWCall(s, e, l) != [] {
      RWAllowed(s, s.running.value, l, RWCall(s, e, l)[0]);
    } else if e.Alternate? || e.Turn? {
    } else {
      RWElsewhere(s, e, l);
    }
  }

  lemma RWElsewhere(s: Sys, e: Ev, l: nat)
    requires SysInv(s) && Enabled(s, e) && l < |s.rws| && RWCall(s, e, l) == [] && !e.Alternate? && !e.Turn?
    ensures |Do(s, e).rws| == |s.rws| && Do(s, e).rws[l] == s.rws[l]
  {
  }

  /** These calls lead the lock through the states hs from h0 to h. */
  ghost predicate RWSeen(hs: seq<Held>, xs: seq<Event>, h0: Held, h: Held) {
    LockSpec.IsRun(hs, xs) && hs[0] == h0 && hs[|xs|] == h
  }

  lemma RWMore(hs: seq<Held>, xs: seq<Event>, h0: Held, h: Held, more: seq<Event>, h': Held) returns (hs': seq<Held>)
    requires RWSeen(hs, xs, h0, h)
    requires if more == [] then h' == h else more == [more[0]] && Allowed(h, more[0]) && h' == Next(h, more[0])
    ensures RWSeen(hs', xs + more, h0, h')
  {
    if more == [] {
      assert xs + more == xs;
      hs' := hs;
    } else {
      hs' := hs + [h'];
    }
  }

  /** Seen at a reader-writer lock, the system runs through these states of the lock. */
  lemma {:induction false} RWRun(ss: seq<Sys>, es: seq<Ev>, l: nat, n: nat) returns (hs: seq<Held>)
    requires Kernel.IsRun(ss, es) && n <= |es| && l < |ss[0].rws|
    ensures l < |ss[n].rws| && RWSeen(hs, RWCalls(ss, es, l, n), ss[0].rws[l], ss[n].rws[l])
  {
    if n == 0 {
      hs := [ss[0].rws[l]];
    } else {
      hs := RWRun(ss, es, l, n - 1);
      RunStep(ss, es, n - 1);
      RWStep(ss[n - 1], es[n - 1], l);
      hs := RWMore(hs, RWCalls(ss, es, l, n - 1), ss[0].rws[l], ss[n - 1].rws[l],
        RWCall(ss[n - 1], es[n - 1], l), ss[n].rws[l]);
    }
  }

  // ----- a queuing lock

  /** What this step is for queuing lock l: a task that comes back from the wait in
      tasksleep locks as well, and tasksleep unlocks. */
  ghost function QCall(s: Sys, e: Ev, l: nat): seq<QEvent> {
    match e
    case Turn =>
      if s.runq != [] && s.runq[0] in s.cont && s.cont[s.runq[0]] == Relock(l)
      then [QEvent.Lock(s.runq[0], true)] else []
    case Lock(m, block) => if m == l && s.running.Some? then [QEvent.Lock(s.running.value, block)] else []
    case Unlock(m) => if m == l && s.running.Some? then [QEvent.Unlock(s.running.value)] else []
    case Sleep(z) =>
      if s.running.Some? && z < |s.rzs| && s.rzs[z].l == Some(l) then [QEvent.Unlock(s.running.value)] else []
    case _ => []
  }

  ghost function QCalls(ss: seq<Sys>, es: seq<Ev>, l: nat, n: nat): seq<QEvent>
    requires n <= |es| < |ss|
  {
    if n == 0 then [] else QCalls(ss, es, l, n - 1) + QCall(ss[n - 1], es[n - 1], l)
  }

  /** The lock l of s' is what these calls make of that of s. */
  ghost predicate QFollows(s: Sys, s': Sys, l: nat, xs: seq<QEvent>) {
    && l < |s.qs| == |s'.qs|
    && if xs == [] then s'.qs[l] == s.qs[l]
       else xs == [xs[0]] && QAllowed(s.qs[l], xs[0]) && s'.qs[l] == QNext(s.qs[l], xs[0])
  }

  lemma NotWaiting(s: Sys, t: TaskId, p: Place, l: nat)
    requires SysInv(s) && t in Members(s, p) && !p.OnQ? && l < |s.qs|
    ensures t !in s.qs[l].waiting
  {
    Kernel.At(s, t, p);
    assert t !in Members(s, OnQ(l));
  }

  lemma QStep(s: Sys, e: Ev, l: nat)
    requires SysInv(s) && Enabled(s, e) && l < |s.qs|
    ensures QFollows(s, Do(s, e), l, QCall(s, e, l))
  {
    if e.Turn? {
      QTurn(s, l);
    } else if e.Sleep? {
      QSleep(s, e.z, l);
    } else if e.Lock? || e.Unlock? {
      NotWaiting(s, s.running.value, Running, l);
    } else if e.Alternate? || e.ReadLock? || e.WriteLock? || e.ReadUnlock? || e.WriteUnlock? {
    } else {
      QElsewhere(s, e);
    }
  }

  lemma QTurn(s: Sys, l: nat)
    requires SysInv(s) && Enabled(s, Turn) && l < |s.qs|
    ensures QFollows(s, Do(s, Turn), l, QCall(s, Turn, l))
  {
    TurnOK(s);
    NotWaiting(s, s.runq[0], Runnable, l);
  }

  lemma QSleep(s: Sys, z: nat, l: nat)
    requires SysInv(s) && Enabled(s, Sleep(z)) && l < |s.qs|
    ensures QFollows(s, Do(s, Sleep(z)), l, QCall(s, Sleep(z), l))
  {
    NotWaiting(s, s.running.value, Running, l);
  }

  lemma QElsewhere(s: Sys, e: Ev)
    requires SysInv(s) && Enabled(s, e) && !e.Alternate? && !e.Turn? && !e.Lock? && !e.Unlock? && !e.Sleep?
    ensures Do(s, e).qs == s.qs
  {
  }

  /** These calls lead the lock through the states ls from l0 to l1. */
  ghost predicate QSeen(ls: seq<QL>, xs: seq<QEvent>, l0: QL, l1: QL) {
    IsQRun(ls, xs) && ls[0] == l0 && ls[|xs|] == l1
  }

  lemma QMore(ls: seq<QL>, xs: seq<QEvent>, l0: QL, l1: QL, more: seq<QEvent>, l2: QL) returns (ls': seq<QL>)
    requires QSeen(ls, xs, l0, l1)
    requires if more == [] then l2 == l1 else more == [more[0]] && QAllowed(l1, more[0]) && l2 == QNext(l1, more[0])
    ensures QSeen(ls', xs + more, l0, l2)
  {
    if more == [] {
      assert xs + more == xs;
      ls' := ls;
    } else {
      ls' := ls + [l2];
    }
  }

  lemma {:induction false} QStepOf(ss: seq<Sys>, es: seq<Ev>, l: nat, m: nat)
    requires Kernel.IsRun(ss, es) && m < |es| && l < |ss[0].qs|
    ensures QFollows(ss[m], ss[m + 1], l, QCall(ss[m], es[m], l))
  {
    if m > 0 { QStepOf(ss, es, l, m - 1); }
    RunStep(ss, es, m);
    QStep(ss[m], es[m], l);
  }

  lemma {:induction false} QPath(ss: seq<Sys>, es: seq<Ev>, l: nat, n: nat) returns (ls: seq<QL>)
    requires |ss| == |es| + 1 && n <= |es| && l < |ss[0].qs| && QInv(ss[0].qs[l])
    requires forall m :: 0 <= m < |es| ==> QFollows(ss[m], ss[m + 1], l, QCall(ss[m], es[m], l))
    ensures l < |ss[n].qs| && QSeen(ls, QCalls(ss, es, l, n), ss[0].qs[l], ss[n].qs[l])
  {
    if n == 0 {
      ls := [ss[0].qs[l]];
    } else {
      ls := QPath(ss, es, l, n - 1);
      assert QFollows(ss[n - 1], ss[n], l, QCall(ss[n - 1], es[n - 1], l));
      ls := QMore(ls, QCalls(ss, es, l, n - 1), ss[0].qs[l], ss[n - 1].qs[l],
        QCall(ss[n - 1], es[n - 1], l), ss[n].qs[l]);
    }
  }

  /** Seen at a queuing lock, the system runs through these states of the lock. */
  lemma QRun(ss: seq<Sys>, es: seq<Ev>, l: nat, n: nat) returns (ls: seq<QL>)
    requires Kernel.IsRun(ss, es) && n <= |es| && l < |ss[0].qs|
    ensures l < |ss[n].qs| && QSeen(ls, QCalls(ss, es, l, n), ss[0].qs[l], ss[n].qs[l])
  {
    assert QInv(ss[0].qs[l]);
    forall m | 0 <= m < |es| ensures QFollows(ss[m], ss[m + 1], l, QCall(ss[m], es[m], l)) {
      QStepOf(ss, es, l, m);
    }
    ls := QPath(ss, es, l, n);
  }

  // ----- the channels

  /** What this step is for the channels. */
  ghost function ChanCall(s: Sys, e: Ev): seq<ChannelRuns.Event> {
    match e
    case Alternate(alts, canblock, j, k) =>
      if s.running.Some? then [ChannelRuns.Call(s.running.value, alts, canblock, j, k)] else []
    case Store(loc, x) => [ChannelRuns.Write(loc, x)]
    case ChanCreate(n) => [ChannelRuns.Create(n)]
    case _ => []
  }

  ghost function ChanCalls(ss: seq<Sys>, es: seq<Ev>, n: nat): seq<ChannelRuns.Event>
    requires n <= |es| < |ss|
  {
    if n == 0 then [] else ChanCalls(ss, es, n - 1) + ChanCall(ss[n - 1], es[n - 1])
  }

  lemma ChanStep(s: Sys, e: Ev)
    requires SysInv(s) && Enabled(s, e)
    ensures var s', xs := Do(s, e), ChanCall(s, e);
      if xs == [] then s'.w == s.w else xs == [xs[0]] && ChannelRuns.Step(s.w, xs[0], s'.w)
  {
    if e.Alternate? {
      var t := s.running.value;
      Kernel.At(s, t, Running);
      assert t !in s.w.blocked by { assert t !in Members(s, OnAlt); }
    } else if e.Turn? || e.ReadLock? || e.WriteLock? || e.ReadUnlock? || e.WriteUnlock? {
    } else {
      ChanElsewhere(s, e);
    }
  }

  lemma ChanElsewhere(s: Sys, e: Ev)
    requires SysInv(s) && Enabled(s, e) && !e.Alternate? && !e.Turn?
    ensures var s', xs := Do(s, e), ChanCall(s, e);
      if xs == [] then s'.w == s.w else xs == [xs[0]] && ChannelRuns.Step(s.w, xs[0], s'.w)
  {
  }

  /** These events lead the channels through the states ws from w0 to w. */
  ghost predicate ChanSeen(ws: seq<World>, xs: seq<ChannelRuns.Event>, w0: World, w: World) {
    ChannelRuns.IsRun(ws, xs) && ws[0] == w0 && ws[|xs|] == w
  }

  lemma ChanMore(ws: seq<World>, xs: seq<ChannelRuns.Event>, w0: World, w: World, more: seq<ChannelRuns.Event>,
                 w': World)
    returns (ws': seq<World>)
    requires ChanSeen(ws, xs, w0, w)
    requires if more == [] then w' == w else more == [more[0]] && ChannelRuns.Step(w, more[0], w')
    ensures ChanSeen(ws', xs + more, w0, w')
  {
    if more == [] {
      assert xs + more == xs;
      ws' := ws;
    } else {
      ws' := ws + [w'];
    }
  }

  /** Seen at the channels, the system runs through these states of channels and memory. */
  lemma {:induction false} ChanRun(ss: seq<Sys>, es: seq<Ev>, n: nat) returns (ws: seq<World>)
    requires Kernel.IsRun(ss, es) && n <= |es|
    ensures Inv(ss[0].w) && ChanSeen(ws, ChanCalls(ss, es, n), ss[0].w, ss[n].w)
  {
    if n == 0 {
      ws := [ss[0].w];
    } else {
      ws := ChanRun(ss, es, n - 1);
      RunStep(ss, es, n - 1);
      ChanStep(ss[n - 1], es[n - 1]);
      ws := ChanMore(ws, ChanCalls(ss, es, n - 1), ss[0].w, ss[n - 1].w, ChanCall(ss[n - 1], es[n - 1]), ss[n].w);
    }
  }
}
