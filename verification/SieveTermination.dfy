/** Every run of the prime sieve is finite: a bound on its length that depends only
    on the goal and the buffer size. */
module SieveTermination {
  import opened Base
  import opened ChannelSpec
  import opened Primes
  import opened Sieve
  import opened SieveSafety
  import opened SieveProgress

  // ----- survivors never run out

  ghost function Product(ps: seq<int>): int {
    if ps == [] then 1 else Product(ps[..|ps| - 1]) * ps[|ps| - 1]
  }

  lemma {:induction false} ProductPositive(ps: seq<int>)
    requires Positive(ps)
    ensures 1 <= Product(ps)
  {
    if ps != [] {
      assert ps[|ps| - 1] in ps;
      var qs := ps[..|ps| - 1];
      forall p | p in qs ensures 0 < p { assert p in ps; }
      ProductPositive(qs);
      MulPositive(Product(ps[..|ps| - 1]), ps[|ps| - 1]);
    }
  }

  lemma MulPositive(a: int, b: int)
    requires 1 <= a && 1 <= b
    ensures 1 <= a * b
  {}

  lemma {:induction false} FactorOfProduct(ps: seq<int>, i: nat) returns (m: int)
    requires i < |ps|
    ensures Product(ps) == m * ps[i]
  {
    var n := |ps| - 1;
    if i == n {
      m := Product(ps[..n]);
    } else {
      var m0 := FactorOfProduct(ps[..n], i);
      m := m0 * ps[n];
      MulSwap(m0, ps[i], ps[n]);
    }
  }

  lemma MulSwap(a: int, b: int, c: int)
    ensures a * b * c == a * c * b
  {}

  ghost predicate AtLeastTwo(ps: seq<int>) {
    forall p :: p in ps ==> 2 <= p
  }

  /** One more than a multiple of all of ps survives ps. */
  lemma OneMoreSurvives(ps: seq<int>, j: int)
    requires AtLeastTwo(ps)
    ensures Positive(ps) && Survives(ps, j * Product(ps) + 1)
  {
    forall p | p in ps ensures (j * Product(ps) + 1) % p != 0 {
      var i :| 0 <= i < |ps| && ps[i] == p;
      var m := FactorOfProduct(ps, i);
      MulAssoc(j, m, p);
      ModUnique(j * Product(ps) + 1, p, j * m, 1);
    }
  }

  lemma MulAssoc(a: int, b: int, c: int)
    ensures a * (b * c) == (a * b) * c
  {}

  lemma {:induction false} LongerFurther(ps: seq<int>, lo: int, hi: int)
    requires Positive(ps) && lo <= hi
    ensures |Survivors(ps, lo)| <= |Survivors(ps, hi)|
    decreases hi - lo
  {
    if lo < hi { LongerFurther(ps, lo, hi - 1); }
  }

  lemma {:induction false} ManySurvivors(ps: seq<int>, j: nat)
    requires AtLeastTwo(ps)
    ensures Positive(ps) && j <= |Survivors(ps, j * Product(ps) + 2)|
  {
    if j != 0 {
      ManySurvivors(ps, j - 1);
      ProductPositive(ps);
      OneMoreSurvives(ps, j);
      var v := j * Product(ps) + 1;
      assert j * Product(ps) == (j - 1) * Product(ps) + Product(ps);
      MulNonNegative(j - 1, Product(ps));
      LongerFurther(ps, (j - 1) * Product(ps) + 2, v);
    }
  }

  lemma MulNonNegative(a: int, b: int)
    requires 0 <= a && 0 <= b
    ensures 0 <= a * b
  {}

  lemma {:induction false} SurvivorsLength(ps: seq<int>, hi: int)
    requires Positive(ps)
    ensures |Survivors(ps, hi)| <= if hi <= 2 then 0 else hi - 2
    decreases hi
  {
    if 2 < hi { SurvivorsLength(ps, hi - 1); }
  }

  /** A stage that may pass on only l numbers can not receive more than this many. */
  ghost function Limit(ps: seq<int>, l: nat): int {
    (l + 1) * Product(ps)
  }

  lemma ReceivesFew(ps: seq<int>, p: int, rx: seq<int>, l: nat)
    requires AtLeastTwo(ps) && Positive(ps) && 2 <= p && Streams(ps, rx) && |Sifted(rx, p)| <= l
    ensures |rx| <= Limit(ps + [p], l)
  {
    SiftSurvivors(ps, p, Hi(rx));
    assert Sifted(rx, p) == Survivors(ps + [p], Hi(rx));
    SurvivorsWithin(ps + [p], Hi(rx), l);
    SurvivorsLength(ps, Hi(rx));
  }

  /** At most l survivors: then one has not gone far. */
  lemma SurvivorsWithin(ps: seq<int>, hi: int, l: nat)
    requires AtLeastTwo(ps) && |Survivors(ps, hi)| <= l
    ensures 0 < Limit(ps, l) && hi < Limit(ps, l) + 2
  {
    ManySurvivors(ps, l + 1);
    if Limit(ps, l) + 2 <= hi { LongerFurther(ps, Limit(ps, l) + 2, hi); }
    ProductPositive(ps);
    MulPositive(l + 1, Product(ps));
  }

  // ----- how much can flow through each channel

  ghost function Targets(g: Params): seq<int> {
    PrimesBelow(g.goal + 1)
  }

  /** A bound on what is ever received from channel c. */
  ghost function Bound(g: Params, c: nat): int
    requires c <= |Targets(g)|
    decreases |Targets(g)| - c
  {
    if c == |Targets(g)| then 1
    else
      var b := Bound(g, c + 1);
      Limit(Targets(g)[..c + 1], if b < 0 then 0 else b + g.buffer + 1)
  }

  lemma BoundPositive(g: Params, c: nat)
    requires c <= |Targets(g)|
    ensures 1 <= Bound(g, c)
  {
    if c < |Targets(g)| {
      var ps := Targets(g)[..c + 1];
      forall p | p in ps ensures 0 < p { assert p in Targets(g); }
      ProductPositive(ps);
      var b := Bound(g, c + 1);
      MulPositive((if b < 0 then 0 else b + g.buffer + 1) + 1, Product(ps));
    }
  }

  lemma {:induction false} PrimesPrefix(lo: int, hi: int)
    requires lo <= hi
    ensures PrimesBelow(lo) <= PrimesBelow(hi)
    decreases hi - lo
  {
    if lo < hi { PrimesPrefix(lo, hi - 1); }
  }

  lemma PrintedIsPrefix(g: Params, s: State)
    requires SInv(g, s)
    ensures s.out <= Targets(g)
  {
    if s.out != [] {
      assert s.out[|s.out| - 1] in s.out;
      PrimesPrefix(Hi(s.out), g.goal + 1);
    }
  }

  lemma SiftedShorter(rx: seq<int>, sent: seq<int>, p: int)
    requires 0 < p && Passed(rx, sent, p)
    ensures |Sifted(rx, p)| <= |sent| + 1
  {
    if rx != [] { SiftedAppend(rx[..|rx| - 1], rx[|rx| - 1], p); assert rx == rx[..|rx| - 1] + [rx[|rx| - 1]]; }
  }

  lemma SentBound(ch: Chan)
    requires Fifo(ch)
    ensures |ch.sent| <= |ch.recvd| + ch.bufsize
  {}

  ghost predicate WithinLimits(g: Params, s: State) {
    && Chain(s) && s.out <= Targets(g)
    && (forall c :: 0 <= c < |s.w.chans| ==> |s.w.chans[c].sent| <= |s.w.chans[c].recvd| + g.buffer)
  }

  lemma LimitsHold(g: Params, s: State)
    requires SInv(g, s)
    ensures WithinLimits(g, s)
  {
    Chained(g, s);
    PrintedIsPrefix(g, s);
    forall c | 0 <= c < |s.w.chans| ensures |s.w.chans[c].sent| <= |s.w.chans[c].recvd| + g.buffer {
      assert Fifo(s.w.chans[c]);
      SentBound(s.w.chans[c]);
    }
  }

  lemma {:induction false} ReceivedBound(g: Params, s: State, c: nat)
    requires WithinLimits(g, s) && c < |s.w.chans|
    ensures |s.w.chans[c].recvd| <= Bound(g, c)
    decreases |s.w.chans| - c
  {
    BoundPositive(g, c);
    if c < |s.out| {
      ReceivedBound(g, s, c + 1);
      BoundPositive(g, c + 1);
      StageBound(g, s, c, Bound(g, c + 1));
    } else {
      assert TaskOK(s, c + 1);
    }
  }

  /** If little leaves a stage, little enters it. */
  lemma StageBound(g: Params, s: State, c: nat, b: nat)
    requires WithinLimits(g, s) && c < |s.out| && |s.w.chans[c + 1].recvd| <= b
    ensures |s.w.chans[c].recvd| <= Limit(Targets(g)[..c + 1], b + g.buffer + 1)
  {
    assert TaskOK(s, c + 1);
    var rx, p := s.w.chans[c].recvd, s.out[c];
    StagePasses(s, c + 1);
    SiftedShorter(rx, OutOf(s, c + 1), p);
    StreamOf(s, c);
    assert s.out[..c] + [p] == Targets(g)[..c + 1];
    forall q | q in s.out[..c] ensures 2 <= q { assert q in Targets(g); }
    ReceivesFew(s.out[..c], p, rx, b + g.buffer + 1);
  }

  // ----- the length of a run

  ghost function Cap(g: Params, x: nat): int
    requires x <= |Targets(g)| + 1
  {
    if x == 0 then 2 * (Bound(g, 0) + g.buffer + 2) + 1 else 4 * Bound(g, x - 1) + 1
  }

  ghost function Caps(g: Params, n: nat): int
    requires n <= |Targets(g)| + 2
  {
    if n == 0 then 0 else Caps(g, n - 1) + Cap(g, n - 1)
  }

  lemma {:induction false} NaturalsLength(i: int)
    requires 2 <= i
    ensures |Survivors([], i)| == i - 2
  {
    if 2 < i {
      NaturalsLength(i - 1);
      assert Survives([], i - 1);
    }
  }

  lemma RankBound(g: Params, s: State, x: nat)
    requires WithinLimits(g, s) && x < |s.pc| && Sends(s.pc[0])
    ensures x <= |Targets(g)| + 1 && Rank(s, x) <= Cap(g, x)
  {
    assert TaskOK(s, x);
    if x == 0 {
      ReceivedBound(g, s, 0);
      NaturalsLength(s.pc[0].i);
      NaturalsLength(s.pc[0].i + 1);
    } else {
      ReceivedBound(g, s, x - 1);
    }
  }

  lemma {:induction false} TotalBound(g: Params, s: State, n: nat)
    requires WithinLimits(g, s) && n <= |s.pc| && Sends(s.pc[0])
    ensures n <= |Targets(g)| + 2 && Total(s, n) <= Caps(g, n)
  {
    if n != 0 {
      TotalBound(g, s, n - 1);
      RankBound(g, s, n - 1);
    }
  }

  lemma {:induction false} CapsMonotone(g: Params, m: nat, n: nat)
    requires m <= n <= |Targets(g)| + 2
    ensures Caps(g, m) <= Caps(g, n)
  {
    if m < n {
      CapsMonotone(g, m, n - 1);
      BoundPositive(g, if n == 1 then 0 else n - 2);
    }
  }

  lemma {:induction false} RunTotal(g: Params, ss: seq<State>, cs: seq<Choice>)
    requires IsRun(g, ss, cs) && !ss[|cs|].exited
    ensures SInv(g, ss[|cs|]) && Sends(ss[|cs|].pc[0]) && |cs| <= Total(ss[|cs|], |ss[|cs|].pc|)
  {
    AlwaysGood(g, ss, cs);
    assert Good(g, ss[|cs|]);
    if cs == [] {
      var s := ss[0];
      assert Total(s, 0) == 0 && Total(s, 1) == Total(s, 0) + Rank(s, 0) && Total(s, 2) == Total(s, 1) + Rank(s, 1);
    } else {
      var n := |cs| - 1;
      assert IsRun(g, ss[..n + 1], cs[..n]);
      assert Good(g, ss[n]) && Step(g, ss[n], cs[n], ss[n + 1]);
      RunTotal(g, ss[..n + 1], cs[..n]);
      StepRaisesTotal(g, ss[n], cs[n], ss[n + 1]);
    }
  }

  /** No run is longer than this: with a given goal and buffer size, every schedule
      reaches taskexitall after finitely many steps. */
  lemma SieveTerminates(g: Params, ss: seq<State>, cs: seq<Choice>)
    requires IsRun(g, ss, cs)
    ensures |cs| <= Caps(g, |Targets(g)| + 2) + 1
  {
    if cs != [] {
      var n := |cs| - 1;
      assert IsRun(g, ss[..n + 1], cs[..n]);
      assert Step(g, ss[n], cs[n], ss[n + 1]);
      RunTotal(g, ss[..n + 1], cs[..n]);
      LimitsHold(g, ss[n]);
      TotalBound(g, ss[n], |ss[n].pc|);
      CapsMonotone(g, |ss[n].pc|, |Targets(g)| + 2);
    } else {
      CapsMonotone(g, 0, |Targets(g)| + 2);
    }
  }

  /** A run that has not exited can be continued, so a run that stops has printed
      exactly the primes up to the goal. */
  lemma SieveReachesExit(g: Params, ss: seq<State>, cs: seq<Choice>)
    requires IsRun(g, ss, cs)
    requires !exists c, s' :: Step(g, ss[|cs|], c, s')
    ensures ss[|cs|].exited && ss[|cs|].out == PrimesBelow(g.goal + 1)
  {
    AlwaysGood(g, ss, cs);
    var s := ss[|cs|];
    assert Good(g, s);
    if !s.exited {
      SomeTaskCanStep(g, s);
      var x :| CanStep(s, x);
      assert Step(g, s, Choice(x, 0, 0), StepOf(g, s, x, 0, 0));
    }
  }

  /** How many more steps a state is good for, at most. */
  ghost function StepsLeft(g: Params, s: State): (n: int)
    requires SInv(g, s)
    ensures 0 <= n
  {
    LimitsHold(g, s);
    assert PcOK(s, 0);
    TotalBound(g, s, |s.pc|);
    CapsMonotone(g, |s.pc|, |Targets(g)| + 2);
    Caps(g, |Targets(g)| + 2) - Total(s, |s.pc|)
  }

  lemma StepsLeftShrinks(g: Params, s: State, c: Choice, s': State)
    requires SInv(g, s) && SInv(g, s') && Step(g, s, c, s') && !s'.exited
    ensures StepsLeft(g, s') < StepsLeft(g, s)
  {
    StepRaisesTotal(g, s, c, s');
  }
}
