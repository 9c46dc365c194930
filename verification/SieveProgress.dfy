/** The prime sieve never deadlocks, and every run of it ends in taskexitall. */
module SieveProgress {
  import opened Base
  import opened ChannelSpec
  import opened Primes
  import opened Sieve
  import opened SieveSafety

  // ----- some task can always step

  lemma {:induction false} FindEdge(s: State, n: nat) returns (x: nat)
    requires n < |s.pc| && Sends(s.pc[0]) && !Sends(s.pc[n])
    ensures x < n && Sends(s.pc[x]) && !Sends(s.pc[x + 1])
  {
    if Sends(s.pc[n - 1]) { x := n - 1; } else { x := FindEdge(s, n - 1); }
  }

  lemma BlockedQueued(s: State, u: nat)
    requires QueuesExact(s.w) && BlockedInCall(s) && u < |s.pc|
    ensures var a := CallOf(u, s.pc[u]);
      u in s.w.blocked ==> a.c < |s.w.chans| && Queued(s.w.chans[a.c], a.op, AltRef(u, 0))
  {
    if u in s.w.blocked {
      var a := s.w.blocked[u][0];
      assert a == CallOf(u, s.pc[u]) && a in s.w.blocked[u];
      assert Queued(s.w.chans[a.c], a.op, AltRef(u, 0));
    }
  }

  lemma NotBothQueued(w: World, c: nat, x: nat, y: nat)
    requires Inv(w) && c < |w.chans| && x != y
    ensures !(Queued(w.chans[c], Snd, AltRef(x, 0)) && Queued(w.chans[c], Rcv, AltRef(y, 0)))
  {
    assert NoMissed(w.chans[c]) && Fifo(w.chans[c]);
  }

  /** The tasks at the two ends of a channel are never both blocked on it. */
  lemma EdgeOpen(s: State, x: nat)
    requires WellFormed(s) && x + 1 < |s.pc| && Sends(s.pc[x]) && !Sends(s.pc[x + 1])
    ensures x !in s.w.blocked || x + 1 !in s.w.blocked
  {
    BlockedQueued(s, x);
    BlockedQueued(s, x + 1);
    NotStuckTogether(s, x);
  }

  lemma NotStuckTogether(s: State, x: nat)
    requires Inv(s.w) && x + 1 < |s.pc| && Sends(s.pc[x]) && !Sends(s.pc[x + 1])
    requires x in s.w.blocked ==> x < |s.w.chans| && Queued(s.w.chans[x], Snd, AltRef(x, 0))
    requires x + 1 in s.w.blocked ==> x < |s.w.chans| && Queued(s.w.chans[x], Rcv, AltRef(x + 1, 0))
    ensures x !in s.w.blocked || x + 1 !in s.w.blocked
  {
    if x < |s.w.chans| { NotBothQueued(s.w, x, x, x + 1); }
  }

  lemma SomeTaskCanStep(g: Params, s: State)
    requires SInv(g, s) && !s.exited
    ensures exists x :: CanStep(s, x)
  {
    var n := |s.pc| - 1;
    assert PcOK(s, 0) && TaskOK(s, n);
    var x := FindEdge(s, n);
    EdgeOpen(s, x);
    assert CanStep(s, x) || CanStep(s, x + 1);
  }

  // ----- every step makes progress

  /** How far task x has come. */
  ghost function Rank(s: State, x: nat): int
    requires x < |s.pc| && |s.pc| == |s.w.chans| + 1 && (x == 0 ==> Sends(s.pc[0]))
  {
    match s.pc[x]
    case Gen(i) => 2 * i
    case GenWait(i) => 2 * i + 1
    case First => 0
    case FirstWait => 1
    case Loop(p) => 4 * Received(s, x)
    case LoopWait(p) => if x in s.w.blocked then 4 * Received(s, x) + 1 else 4 * Received(s, x) - 3
    case Sending(p, i) => 4 * Received(s, x) - 2
    case SendWait(p, i) => 4 * Received(s, x) - 1
  }

  ghost function Received(s: State, x: nat): nat
    requires |s.pc| == |s.w.chans| + 1 && x < |s.pc|
  {
    if x == 0 then 0 else |InOf(s, x)|
  }

  ghost function Total(s: State, n: nat): int
    requires n <= |s.pc| == |s.w.chans| + 1 && 0 < |s.pc| && Sends(s.pc[0])
  {
    if n == 0 then 0 else Total(s, n - 1) + Rank(s, n - 1)
  }

  lemma {:induction false} TotalGrows(s: State, s': State, x: nat, n: nat)
    requires |s.pc| == |s.w.chans| + 1 && |s'.pc| == |s'.w.chans| + 1 && n <= |s.pc| <= |s'.pc| && 0 < |s.pc|
    requires Sends(s.pc[0]) && Sends(s'.pc[0])
    requires forall y :: 0 <= y < n && y != x ==> Rank(s', y) == Rank(s, y)
    requires x < n ==> Rank(s, x) < Rank(s', x)
    ensures Total(s', n) >= Total(s, n) + if x < n then 1 else 0
  {
    if n != 0 { TotalGrows(s, s', x, n - 1); }
  }

  /** The partner of an exchange stands where it stood. */
  lemma OtherRank(s: State, x: nat, w1: World, r: AltResult, y: nat)
    requires Sized(s) && BlockedInCall(s) && x < |s.pc| && y < |s.pc| && y != x && !Waits(s.pc[x]) && x !in s.w.blocked
    requires w1 == s.w.(mem := w1.mem)
    requires Effect(w1, x, CallOf(x, s.pc[x]), r) && Sends(s.pc[0]) && (s.pc[y].LoopWait? ==> 0 < y)
    ensures Rank(Called(s, x, r), y) == Rank(s, y)
  {
    var s', a := Called(s, x, r), CallOf(x, s.pc[x]);
    if r.woken == Some(y) && r.out.Done? {
      assert s.w.blocked[y] == [CallOf(y, s.pc[y])] == [Alt(a.c, Some(y), Other(a.op))];
      assert [CallOf(y, s.pc[y])][0] == [Alt(a.c, Some(y), Other(a.op))][0];
    } else {
      assert y in s'.w.blocked <==> y in s.w.blocked;
      assert 0 < y ==> InOf(s', y) == InOf(s, y);
    }
  }

  lemma CallGrows(g: Params, s: State, x: nat, j: nat, k: nat)
    requires SInv(g, s) && CanStep(s, x) && !Waits(s.pc[x])
    ensures var s' := Called(s, x, Operate(s, x, j, k));
      SInv(g, s') && Sends(s.pc[0]) && Sends(s'.pc[0]) && Total(s', |s'.pc|) > Total(s, |s.pc|)
  {
    assert PcOK(s, x) && PcOK(s, 0);
    PreparedInv(s, x);
    var w1, r := Prepared(s, x), Operate(s, x, j, k);
    OneCall(w1, x, CallOf(x, s.pc[x]), j, k);
    CallKeepsInv(g, s, x, j, k);
    var s' := Called(s, x, r);
    assert PcOK(s', 0);
    forall y | 0 <= y < |s.pc| && y != x ensures Rank(s', y) == Rank(s, y) {
      assert PcOK(s, y);
      OtherRank(s, x, w1, r, y);
    }
    CallerRank(s, x, w1, r);
    TotalGrows(s, s', x, |s.pc|);
  }

  lemma CallerRank(s: State, x: nat, w1: World, r: AltResult)
    requires Sized(s) && x < |s.pc| && !Waits(s.pc[x]) && x !in s.w.blocked && Sends(s.pc[0])
    requires w1 == s.w.(mem := w1.mem) && Effect(w1, x, CallOf(x, s.pc[x]), r)
    ensures Rank(s, x) < Rank(Called(s, x, r), x)
  {
    var s' := Called(s, x, r);
    if Sends(s.pc[x]) {
      assert 0 < x ==> InOf(s', x) == InOf(s, x);
    }
  }

  lemma CompleteRank(g: Params, s: State, x: nat)
    requires Sized(s) && CanStep(s, x) && Waits(s.pc[x]) && Sends(s.pc[0]) && PcOK(s, x) && TaskOK(s, x)
    requires !After(g, s, x).exited
    ensures var s' := After(g, s, x);
      && |s.pc| <= |s'.pc| == |s'.w.chans| + 1 && Sends(s'.pc[0])
      && Rank(s, x) < Rank(s', x) && forall y :: 0 <= y < |s.pc| && y != x ==> Rank(s', y) == Rank(s, y)
  {
    var s' := After(g, s, x);
    forall y | 0 <= y < |s.pc| && y != x ensures Rank(s', y) == Rank(s, y) {
      assert 0 < y ==> InOf(s', y) == InOf(s, y);
    }
    assert 0 < x ==> InOf(s', x) == InOf(s, x);
  }

  lemma CompleteGrows(g: Params, s: State, x: nat)
    requires SInv(g, s) && CanStep(s, x) && Waits(s.pc[x])
    ensures PcOK(s, x)
    ensures var s' := After(g, s, x);
      !s'.exited ==> SInv(g, s') && Sends(s.pc[0]) && Sends(s'.pc[0]) && Total(s', |s'.pc|) > Total(s, |s.pc|)
  {
    assert PcOK(s, x) && PcOK(s, 0) && TaskOK(s, x);
    CompleteKeeps(g, s, x);
    var s' := After(g, s, x);
    if !s'.exited {
      CompleteRank(g, s, x);
      TotalGrows(s, s', x, |s.pc|);
      if |s.pc| < |s'.pc| { assert s'.pc[|s.pc|] == First; }
    }
  }

  lemma StepRaisesTotal(g: Params, s: State, c: Choice, s': State)
    requires SInv(g, s) && Step(g, s, c, s') && !s'.exited
    ensures SInv(g, s') && Sends(s.pc[0]) && Sends(s'.pc[0]) && Total(s', |s'.pc|) > Total(s, |s.pc|)
  {
    var x := c.x;
    assert PcOK(s, x);
    if Waits(s.pc[x]) {
      CompleteGrows(g, s, x);
    } else {
      var r := Operate(s, x, c.j, c.k);
      CallGrows(g, s, x, c.j, c.k);
      if r.out.Done? {
        CallKeepsPc(s, x, c.j, c.k);
        CompletedCall(s, x, c.j, c.k);
        AfterSame(g, s.(w := r.w), Called(s, x, r), x);
        CompleteGrows(g, Called(s, x, r), x);
      }
    }
  }
}
