/** What the prime sieve prints, in every reachable state of every run. */
module SieveSafety {
  import opened Base
  import opened ChannelSpec
  import opened ChannelRuns
  import opened Primes
  import opened Sieve

  ghost function Start(g: Params): State {
    State(World([NewChan(g.buffer)], map[], map[], map[]), [Gen(2), First], [], false)
  }

  /** The task that runs, and two results of rand(). */
  datatype Choice = Choice(x: nat, j: nat, k: nat)

  ghost predicate Step(g: Params, s: State, c: Choice, s': State) {
    CanStep(s, c.x) && (WellFormed(s) ==> s' == StepOf(g, s, c.x, c.j, c.k))
  }

  ghost predicate IsRun(g: Params, ss: seq<State>, cs: seq<Choice>) {
    && |ss| == |cs| + 1 && ss[0] == Start(g)
    && forall i :: 0 <= i < |cs| ==> Step(g, ss[i], cs[i], ss[i + 1])
  }

  /** Received by task x, respectively sent by it, so far. */
  ghost function InOf(s: State, x: nat): seq<int> requires 0 < x <= |s.w.chans| { s.w.chans[x - 1].recvd }
  ghost function OutOf(s: State, x: nat): seq<int> requires x < |s.w.chans| { s.w.chans[x].sent }

  /** Task x is past its first number, and filters out multiples of the x-th prime printed. */
  ghost predicate Stage(s: State, x: nat, p: int)
    requires x <= |s.w.chans|
  {
    1 <= x <= |s.out| && p == s.out[x - 1] && 2 <= p && InOf(s, x) != [] && InOf(s, x)[0] == p
  }

  /** How what task x has sent relates to what it has received, wherever it is. */
  ghost predicate TaskOK(s: State, x: nat)
    requires x < |s.pc| && |s.pc| == |s.w.chans| + 1 && |s.out| + 1 == |s.w.chans|
  {
    var b := x in s.w.blocked;
    match s.pc[x]
    case Gen(i) => x == 0 && 2 <= i && !b && OutOf(s, x) == Survivors([], i)
    case GenWait(i) => x == 0 && 2 <= i && OutOf(s, x) == Survivors([], if b then i else i + 1)
      && (b ==> Cell(s.w, x) == i)
    case First => x == |s.out| + 1 && !b && InOf(s, x) == []
    case FirstWait => x == |s.out| + 1 && InOf(s, x) == if b then [] else [Cell(s.w, x)]
    case Loop(p) => Stage(s, x, p) && !b && OutOf(s, x) == Sifted(InOf(s, x), p)
    case LoopWait(p) => (Stage(s, x, p) &&
      var n := |InOf(s, x)|;
      if b then OutOf(s, x) == Sifted(InOf(s, x), p)
      else 2 <= n && InOf(s, x)[n - 1] == Cell(s.w, x) && OutOf(s, x) == Sifted(InOf(s, x)[..n - 1], p))
    case Sending(p, i) => Stage(s, x, p) && !b && OutOf(s, x) + [i] == Sifted(InOf(s, x), p)
    case SendWait(p, i) => (Stage(s, x, p) &&
      if b then OutOf(s, x) + [i] == Sifted(InOf(s, x), p) && Cell(s.w, x) == i
      else OutOf(s, x) == Sifted(InOf(s, x), p))
  }

  ghost predicate Shape(g: Params, s: State) {
    && WellFormed(s)
    && |s.w.chans| == |s.out| + 1
    && (forall c :: 0 <= c < |s.w.chans| ==> s.w.chans[c].bufsize == g.buffer)
    && s.out == PrimesBelow(Hi(s.out))
    && (forall p :: p in s.out ==> p <= g.goal)
  }

  ghost predicate SInv(g: Params, s: State) {
    Shape(g, s) && forall x :: 0 <= x < |s.pc| ==> TaskOK(s, x)
  }

  /** While running, the invariant; after taskexitall, all primes up to the goal have been printed. */
  ghost predicate Good(g: Params, s: State) {
    if s.exited then s.out == PrimesBelow(g.goal + 1) else SInv(g, s)
  }

  lemma StartOK(g: Params)
    ensures SInv(g, Start(g))
  {
    var s := Start(g);
    assert Fifo(s.w.chans[0]) && NoMissed(s.w.chans[0]);
    assert TaskOK(s, 0) && TaskOK(s, 1);
  }

  // ----- the streams

  /** A stage has passed on what it has received, but for at most the last number. */
  ghost predicate Passed(rx: seq<int>, sent: seq<int>, p: int)
    requires 0 < p
  {
    || sent == Sifted(rx, p)
    || (Sifted(rx, p) != [] && sent == Sifted(rx, p)[..|Sifted(rx, p)| - 1])
    || (rx != [] && sent == Sifted(rx[..|rx| - 1], p))
  }

  lemma StagePasses(s: State, x: nat)
    requires 0 < x <= |s.out| && |s.pc| == |s.w.chans| + 1 && |s.out| + 1 == |s.w.chans| && TaskOK(s, x)
    ensures 2 <= s.out[x - 1] && Passed(InOf(s, x), OutOf(s, x), s.out[x - 1])
  {
  }

  lemma PassedStreams(ps: seq<int>, p: int, rx: seq<int>, sent: seq<int>)
    requires Positive(ps) && 0 < p && Streams(ps, rx) && Passed(rx, sent, p)
    ensures Positive(ps + [p]) && Streams(ps + [p], sent)
  {
    SiftStreams(ps, p, rx);
    if rx != [] {
      PrefixStreams(ps, rx, rx[..|rx| - 1]);
      SiftStreams(ps, p, rx[..|rx| - 1]);
    }
    if Sifted(rx, p) != [] {
      PrefixStreams(ps + [p], Sifted(rx, p), Sifted(rx, p)[..|Sifted(rx, p)| - 1]);
    }
  }

  /** Of the invariant, what the streams depend on. */
  ghost predicate Chain(s: State) {
    && |s.pc| == |s.w.chans| + 1 && |s.out| + 1 == |s.w.chans|
    && (forall x :: 0 <= x < |s.pc| ==> TaskOK(s, x))
    && (forall c :: 0 <= c < |s.w.chans| ==> s.w.chans[c].recvd <= s.w.chans[c].sent)
  }

  lemma Chained(g: Params, s: State)
    requires SInv(g, s)
    ensures Chain(s)
  {
    assert forall c :: 0 <= c < |s.w.chans| ==> Fifo(s.w.chans[c]);
  }

  /** What has been sent on channel c, and what has been received from it, are initial
      parts of the stream of numbers that none of the first c primes divides. */
  lemma {:induction false} StreamOf(s: State, c: nat)
    requires Chain(s) && c < |s.w.chans|
    ensures Positive(s.out[..c])
    ensures Streams(s.out[..c], s.w.chans[c].sent) && Streams(s.out[..c], s.w.chans[c].recvd)
  {
    assert TaskOK(s, c);
    if c == 0 {
      assert s.out[..0] == [];
      match s.pc[0]
      case Gen(i) => Tight([], i);
      case GenWait(i) => Tight([], if 0 in s.w.blocked then i else i + 1);
    } else {
      StreamOf(s, c - 1);
      StagePasses(s, c);
      PassedStreams(s.out[..c - 1], s.out[c - 1], InOf(s, c), OutOf(s, c));
      assert s.out[..c] == s.out[..c - 1] + [s.out[c - 1]];
    }
    PrefixStreams(s.out[..c], s.w.chans[c].sent, s.w.chans[c].recvd);
  }

  // ----- one step

  ghost predicate Sized(s: State) {
    |s.pc| == |s.w.chans| + 1 && |s.out| + 1 == |s.w.chans|
  }

  /** A blocked task is inside the operation its program counter says. */
  ghost predicate BlockedInCall(s: State) {
    forall u :: u in s.w.blocked ==> u < |s.pc| && Waits(s.pc[u]) && s.w.blocked[u] == [CallOf(u, s.pc[u])]
  }

  /** A channel operation of x leaves every other task's invariant true: only the
      partner notices, and it finds its operation complete. */
  lemma OtherKeeps(s: State, x: nat, w1: World, r: AltResult, y: nat)
    requires Sized(s) && BlockedInCall(s) && x < |s.pc| && y < |s.pc| && y != x && !Waits(s.pc[x]) && x !in s.w.blocked
    requires w1 == s.w.(mem := w1.mem) && (forall l :: l != x ==> Cell(w1, l) == Cell(s.w, l))
    requires Effect(w1, x, CallOf(x, s.pc[x]), r)
    requires TaskOK(s, y) && (y == 0 ==> Sends(s.pc[0])) && (x == 0 ==> Sends(s.pc[0]))
    ensures Sized(s.(w := r.w)) && TaskOK(s.(w := r.w), y)
  {
    var s', a := s.(w := r.w), CallOf(x, s.pc[x]);
    if r.woken == Some(y) && r.out.Done? {
      assert s.w.blocked[y] == [CallOf(y, s.pc[y])] == [Alt(a.c, Some(y), Other(a.op))];
      assert [CallOf(y, s.pc[y])][0] == [Alt(a.c, Some(y), Other(a.op))][0];
      PartnerKeeps(s, x, w1, r, y);
    } else {
      assert y in s'.w.blocked <==> y in s.w.blocked;
      assert y < |s.w.chans| ==> OutOf(s', y) == OutOf(s, y);
      assert 0 < y ==> InOf(s', y) == InOf(s, y);
      Untouched(s, s', y);
    }
  }

  /** A task whose cell and streams have not changed. */
  lemma Untouched(s: State, s': State, y: nat)
    requires Sized(s) && Sized(s') && y < |s.pc| == |s'.pc| && s'.pc[y] == s.pc[y] && s'.out == s.out
    requires Cell(s'.w, y) == Cell(s.w, y) && (y in s'.w.blocked <==> y in s.w.blocked)
    requires (y < |s.w.chans| ==> OutOf(s', y) == OutOf(s, y)) && (0 < y ==> InOf(s', y) == InOf(s, y))
    requires TaskOK(s, y) && (y == 0 ==> Sends(s.pc[0]))
    ensures TaskOK(s', y)
  {
  }

  lemma PartnerKeeps(s: State, x: nat, w1: World, r: AltResult, y: nat)
    requires Sized(s) && x < |s.pc| && y < |s.pc| && y != x && y in s.w.blocked && Waits(s.pc[y])
    requires w1 == s.w.(mem := w1.mem) && (forall l :: l != x ==> Cell(w1, l) == Cell(s.w, l))
    requires r.woken == Some(y) && SoleExchange(w1, r.w, x, CallOf(x, s.pc[x]), r.woken)
    requires CallOf(y, s.pc[y]) == Alt(CallOf(x, s.pc[x]).c, Some(y), Other(CallOf(x, s.pc[x]).op))
    requires TaskOK(s, y) && (y == 0 ==> Sends(s.pc[0]))
    ensures Sized(s.(w := r.w)) && TaskOK(s.(w := r.w), y)
  {
    var s' := s.(w := r.w);
    if Sends(s.pc[y]) {
      assert OutOf(s', y) == OutOf(s, y) + [Cell(s.w, y)];
      assert 0 < y ==> InOf(s', y) == InOf(s, y);
      if s.pc[y].GenWait? {
        assert Survives([], s.pc[y].i);
      }
    } else {
      assert InOf(s', y) == InOf(s, y) + [Cell(s'.w, y)];
      assert InOf(s', y)[..|InOf(s, y)|] == InOf(s, y);
      assert y < |s.w.chans| ==> OutOf(s', y) == OutOf(s, y);
    }
  }

  /** The caller itself, seen as being inside its operation: blocked in it, or done with it. */
  ghost function Called(s: State, x: nat, r: AltResult): State
    requires x < |s.pc|
  {
    s.(w := r.w, pc := s.pc[x := Waiting(s.pc[x])])
  }

  /** What an operation of x does to its own streams: it is blocked in it and nothing has
      happened, or one number has been sent or received. */
  ghost predicate OwnEffect(s: State, s': State, x: nat)
    requires Sized(s) && Sized(s') && x < |s.pc| == |s'.pc|
  {
    && (x !in s'.w.blocked ==>
          if Sends(s.pc[x]) then
            && x < |s.w.chans| && OutOf(s', x) == OutOf(s, x) + [s.pc[x].i]
            && (0 < x ==> InOf(s', x) == InOf(s, x))
          else
            && 0 < x && InOf(s', x) == InOf(s, x) + [Cell(s'.w, x)]
            && (x < |s.w.chans| ==> OutOf(s', x) == OutOf(s, x)))
    && (x in s'.w.blocked ==>
          && (x < |s.w.chans| ==> OutOf(s', x) == OutOf(s, x)) && (0 < x ==> InOf(s', x) == InOf(s, x))
          && (Sends(s.pc[x]) ==> Cell(s'.w, x) == s.pc[x].i))
  }

  lemma CallerEffect(s: State, x: nat, w1: World, r: AltResult)
    requires Sized(s) && x < |s.pc| && !Waits(s.pc[x]) && x !in s.w.blocked && (x == 0 ==> Sends(s.pc[x]))
    requires Sends(s.pc[x]) ==> x < |s.w.chans|
    requires w1 == s.w.(mem := w1.mem) && (Sends(s.pc[x]) ==> Cell(w1, x) == s.pc[x].i)
    requires Effect(w1, x, CallOf(x, s.pc[x]), r)
    ensures Sized(Called(s, x, r)) && OwnEffect(s, Called(s, x, r), x)
  {
  }

  lemma CallerGen(s: State, s': State, x: nat)
    requires Sized(s) && Sized(s') && x < |s.pc| == |s'.pc| && OwnEffect(s, s', x) && s'.out == s.out
    requires s.pc[x].Gen? && s'.pc[x] == Waiting(s.pc[x]) && TaskOK(s, x)
    ensures TaskOK(s', x)
  {
    assert Survives([], s.pc[x].i);
  }

  lemma CallerReceives(s: State, s': State, x: nat)
    requires Sized(s) && Sized(s') && x < |s.pc| == |s'.pc| && OwnEffect(s, s', x) && s'.out == s.out
    requires (s.pc[x].First? || s.pc[x].Loop?) && s'.pc[x] == Waiting(s.pc[x]) && TaskOK(s, x)
    ensures TaskOK(s', x)
  {
    if x !in s'.w.blocked { assert InOf(s', x)[..|InOf(s, x)|] == InOf(s, x); }
  }

  lemma CallerSends(s: State, s': State, x: nat)
    requires Sized(s) && Sized(s') && x < |s.pc| == |s'.pc| && OwnEffect(s, s', x) && s'.out == s.out
    requires s.pc[x].Sending? && s'.pc[x] == Waiting(s.pc[x]) && TaskOK(s, x)
    ensures TaskOK(s', x)
  {
  }

  lemma CallerKeeps(s: State, x: nat, w1: World, r: AltResult)
    requires Sized(s) && x < |s.pc| && !Waits(s.pc[x]) && x !in s.w.blocked
    requires w1 == s.w.(mem := w1.mem) && (Sends(s.pc[x]) ==> Cell(w1, x) == s.pc[x].i)
    requires Effect(w1, x, CallOf(x, s.pc[x]), r)
    requires TaskOK(s, x)
    ensures Sized(Called(s, x, r)) && TaskOK(Called(s, x, r), x)
  {
    CallerEffect(s, x, w1, r);
    var s' := Called(s, x, r);
    match s.pc[x]
    case Gen(_) => CallerGen(s, s', x);
    case Sending(_, _) => CallerSends(s, s', x);
    case _ => CallerReceives(s, s', x);
  }

  lemma TasksKeep(s: State, x: nat, w1: World, r: AltResult)
    requires Sized(s) && BlockedInCall(s) && x < |s.pc| && !Waits(s.pc[x]) && x !in s.w.blocked
    requires w1 == s.w.(mem := w1.mem) && (forall l :: l != x ==> Cell(w1, l) == Cell(s.w, l))
    requires Sends(s.pc[x]) ==> Cell(w1, x) == s.pc[x].i
    requires Effect(w1, x, CallOf(x, s.pc[x]), r)
    requires Sends(s.pc[0]) && forall y :: 0 <= y < |s.pc| ==> TaskOK(s, y)
    ensures Sized(Called(s, x, r)) && forall y :: 0 <= y < |s.pc| ==> TaskOK(Called(s, x, r), y)
  {
    var s' := Called(s, x, r);
    CallerKeeps(s, x, w1, r);
    forall y | 0 <= y < |s'.pc| ensures TaskOK(s', y) {
      if y != x {
        OtherKeeps(s, x, w1, r, y);
        SamePc(s.(w := r.w), s', y);
      }
    }
  }

  lemma CallTasks(s: State, x: nat, j: nat, k: nat)
    requires WellFormed(s) && Sized(s) && CanStep(s, x) && !Waits(s.pc[x])
    requires forall y :: 0 <= y < |s.pc| ==> TaskOK(s, y)
    ensures var s' := Called(s, x, Operate(s, x, j, k));
      Sized(s') && forall y :: 0 <= y < |s'.pc| ==> TaskOK(s', y)
  {
    assert PcOK(s, x) && PcOK(s, 0);
    PreparedInv(s, x);
    OneCall(Prepared(s, x), x, CallOf(x, s.pc[x]), j, k);
    TasksKeep(s, x, Prepared(s, x), Operate(s, x, j, k));
  }

  lemma CallShaped(g: Params, s: State, x: nat, j: nat, k: nat)
    requires Shape(g, s) && CanStep(s, x) && !Waits(s.pc[x])
    ensures Shape(g, Called(s, x, Operate(s, x, j, k)))
  {
    assert PcOK(s, x) && PcOK(s, 0);
    PreparedInv(s, x);
    OneCall(Prepared(s, x), x, CallOf(x, s.pc[x]), j, k);
    CallShape(g, s, x, Prepared(s, x), Operate(s, x, j, k));
  }

  lemma CallKeepsInv(g: Params, s: State, x: nat, j: nat, k: nat)
    requires SInv(g, s) && CanStep(s, x) && !Waits(s.pc[x])
    ensures SInv(g, Called(s, x, Operate(s, x, j, k)))
  {
    CallTasks(s, x, j, k);
    CallShaped(g, s, x, j, k);
  }

  /** A task's invariant does not depend on the program counters of others. */
  lemma SamePc(s: State, s': State, y: nat)
    requires Sized(s) && y < |s.pc| == |s'.pc| && s' == s.(pc := s'.pc) && s'.pc[y] == s.pc[y] && TaskOK(s, y)
    ensures TaskOK(s', y)
  {
  }

  lemma CallShape(g: Params, s: State, x: nat, w1: World, r: AltResult)
    requires Shape(g, s) && CanStep(s, x) && !Waits(s.pc[x]) && PcOK(s, x)
    requires w1 == s.w.(mem := w1.mem) && Effect(w1, x, CallOf(x, s.pc[x]), r) && Inv(r.w)
    ensures Shape(g, Called(s, x, r))
  {
    var s' := Called(s, x, r);
    assert CallOf(x, s'.pc[x]) == CallOf(x, s.pc[x]);
    forall y | 0 <= y < |s'.pc| ensures PcOK(s', y) { assert PcOK(s, y); }
    forall u | u in s'.w.blocked
      ensures u < |s'.pc| && Waits(s'.pc[u]) && s'.w.blocked[u] == [CallOf(u, s'.pc[u])]
    {
      assert u != x ==> u in s.w.blocked;
    }
    forall c | 0 <= c < |s'.w.chans| ensures s'.w.chans[c].bufsize == g.buffer {
      assert s.w.chans[c].bufsize == g.buffer;
    }
  }

  lemma PcChangeKeeps(g: Params, s: State, s': State, x: nat)
    requires SInv(g, s) && x < |s.pc| == |s'.pc| && x !in s.w.blocked
    requires s' == s.(pc := s.pc[x := s'.pc[x]]) && PcOK(s', x) && TaskOK(s', x)
    ensures SInv(g, s')
  {
    forall y | 0 <= y < |s'.pc| ensures PcOK(s', y) && TaskOK(s', y) {
      assert PcOK(s, y) && TaskOK(s, y);
      if y != x { SamePc(s, s', y); }
    }
  }

  /** Coming out of a send. */
  lemma SentKeeps(g: Params, s: State, x: nat)
    requires SInv(g, s) && CanStep(s, x) && Waits(s.pc[x]) && Sends(s.pc[x])
    ensures SInv(g, After(g, s, x))
  {
    assert PcOK(s, x) && TaskOK(s, x);
    PcChangeKeeps(g, s, After(g, s, x), x);
  }

  /** Coming out of a receive in the loop: the number is passed on unless p divides it. */
  lemma GotTask(s: State, x: nat)
    requires Sized(s) && x < |s.pc| && s.pc[x].LoopWait? && x !in s.w.blocked && s.pc[x].p != 0 && TaskOK(s, x)
    ensures x < |s.w.chans| && TaskOK(Got(s, x, s.pc[x].p, Cell(s.w, x)), x)
  {
    var p, rx := s.pc[x].p, InOf(s, x);
    SiftedAppend(rx[..|rx| - 1], Cell(s.w, x), p);
    assert rx == rx[..|rx| - 1] + [Cell(s.w, x)];
  }

  lemma GotKeeps(g: Params, s: State, x: nat)
    requires SInv(g, s) && CanStep(s, x) && s.pc[x].LoopWait?
    ensures SInv(g, After(g, s, x))
  {
    assert PcOK(s, x) && TaskOK(s, x);
    GotTask(s, x);
    PcChangeKeeps(g, s, After(g, s, x), x);
  }

  /** The first number a stage receives is the next prime. */
  lemma FirstIsNextPrime(g: Params, s: State, x: nat)
    requires SInv(g, s) && CanStep(s, x) && s.pc[x].FirstWait?
    ensures var v := Cell(s.w, x);
      Prime(v) && PrimesBelow(v) == s.out && PrimesBelow(v + 1) == s.out + [v]
  {
    assert TaskOK(s, x);
    var v := Cell(s.w, x);
    Chained(g, s);
    StreamOf(s, x - 1);
    assert s.out[..x - 1] == s.out && s.w.chans[x - 1].recvd == [v];
    FirstIsLeast(s.out, [v]);
    NextPrime(s.out, Hi(s.out), v);
  }

  /** Past the goal, everything up to the goal has been printed. */
  lemma ExitComplete(g: Params, s: State, x: nat)
    requires SInv(g, s) && CanStep(s, x) && s.pc[x].FirstWait? && Cell(s.w, x) > g.goal
    ensures s.out == PrimesBelow(g.goal + 1)
  {
    var v := Cell(s.w, x);
    FirstIsNextPrime(g, s, x);
    forall n | g.goal + 1 <= n < v ensures !Prime(n) {
      assert n !in s.out;
    }
    PrimesBelowSame(g.goal + 1, v);
  }

  lemma FirstKeeps(g: Params, s: State, x: nat)
    requires SInv(g, s) && CanStep(s, x) && s.pc[x].FirstWait?
    ensures Good(g, After(g, s, x))
  {
    var v := Cell(s.w, x);
    FirstIsNextPrime(g, s, x);
    if v > g.goal {
      ExitComplete(g, s, x);
    } else {
      CreateKeepsInv(s.w, g.buffer);
      NewStageKeeps(g, s, x, v);
    }
  }

  lemma NewStageTask(g: Params, s: State, x: nat, v: int, y: nat)
    requires Sized(s) && x < |s.pc| && x !in s.w.blocked && s.pc[x].FirstWait? && v == Cell(s.w, x) && 2 <= v
    requires TaskOK(s, x) && (y < |s.pc| ==> TaskOK(s, y))
    requires |s.pc| !in s.w.blocked && y <= |s.pc|
    ensures Sized(GotFirst(g, s, x, v)) || v > g.goal
    ensures v <= g.goal ==> TaskOK(GotFirst(g, s, x, v), y)
  {
    var s' := GotFirst(g, s, x, v);
    if v <= g.goal && y < |s.pc| {
      assert y < |s.w.chans| ==> OutOf(s', y) == OutOf(s, y);
      assert 0 < y ==> InOf(s', y) == InOf(s, y);
    }
  }

  lemma NewStageKeeps(g: Params, s: State, x: nat, v: int)
    requires SInv(g, s) && CanStep(s, x) && s.pc[x].FirstWait? && v == Cell(s.w, x) <= g.goal
    requires 2 <= v && PrimesBelow(v + 1) == s.out + [v] && Inv(s.w.(chans := s.w.chans + [NewChan(g.buffer)]))
    ensures SInv(g, GotFirst(g, s, x, v))
  {
    var s' := GotFirst(g, s, x, v);
    assert TaskOK(s, x);
    forall y | 0 <= y < |s'.pc| ensures PcOK(s', y) {
      if y < |s.pc| { assert PcOK(s, y); }
    }
    forall y | 0 <= y < |s'.pc| ensures TaskOK(s', y) {
      if y < |s.pc| { assert TaskOK(s, y); }
      NewStageTask(g, s, x, v, y);
    }
    NewStageShape(g, s, x, v);
  }

  lemma NewStageShape(g: Params, s: State, x: nat, v: int)
    requires Shape(g, s) && CanStep(s, x) && s.pc[x].FirstWait? && v == Cell(s.w, x) <= g.goal
    requires PrimesBelow(v + 1) == s.out + [v] && Inv(s.w.(chans := s.w.chans + [NewChan(g.buffer)]))
    requires forall y :: 0 <= y < |GotFirst(g, s, x, v).pc| ==> PcOK(GotFirst(g, s, x, v), y)
    ensures Shape(g, GotFirst(g, s, x, v))
  {
  }

  lemma StepKeeps(g: Params, s: State, c: Choice, s': State)
    requires SInv(g, s) && Step(g, s, c, s')
    ensures Good(g, s')
  {
    var x := c.x;
    assert PcOK(s, x);
    if Waits(s.pc[x]) {
      CompleteKeeps(g, s, x);
    } else {
      var r := Operate(s, x, c.j, c.k);
      var s1 := Called(s, x, r);
      CallKeepsInv(g, s, x, c.j, c.k);
      if r.out.Done? {
        CallKeepsPc(s, x, c.j, c.k);
        CompletedCall(s, x, c.j, c.k);
        AfterSame(g, s.(w := r.w), s1, x);
        CompleteKeeps(g, s1, x);
      }
    }
  }

  lemma CompleteKeeps(g: Params, s: State, x: nat)
    requires SInv(g, s) && CanStep(s, x) && Waits(s.pc[x])
    ensures PcOK(s, x) && Good(g, After(g, s, x))
  {
    assert PcOK(s, x);
    if Sends(s.pc[x]) { SentKeeps(g, s, x); }
    else if s.pc[x].LoopWait? { GotKeeps(g, s, x); }
    else { FirstKeeps(g, s, x); }
  }

  lemma CompletedCall(s: State, x: nat, j: nat, k: nat)
    requires WellFormed(s) && CanStep(s, x) && !Waits(s.pc[x]) && Operate(s, x, j, k).out.Done?
    ensures x !in Operate(s, x, j, k).w.blocked
  {
    assert PcOK(s, x);
    PreparedInv(s, x);
    OneCall(Prepared(s, x), x, CallOf(x, s.pc[x]), j, k);
  }

  lemma AfterSame(g: Params, s: State, s1: State, x: nat)
    requires !s.exited && x < |s.pc| && !Waits(s.pc[x]) && PcOK(s, x) && s1 == s.(pc := s.pc[x := Waiting(s.pc[x])])
    ensures PcOK(s1, x) && After(g, s, x).exited == After(g, s1, x).exited && After(g, s, x).out == After(g, s1, x).out
    ensures After(g, s, x).exited == s.exited ==> After(g, s, x) == After(g, s1, x)
  {
    if After(g, s, x).exited == s.exited {
      assert After(g, s, x).pc == After(g, s1, x).pc;
    }
  }

  /** Every reachable state of every run, whatever the schedule, rand() and the
      buffer size: exactly the first primes have been printed, in order; and when
      the program has called taskexitall, exactly the primes up to the goal. */
  lemma AlwaysGood(g: Params, ss: seq<State>, cs: seq<Choice>)
    requires IsRun(g, ss, cs)
    ensures forall i :: 0 <= i < |ss| ==> Good(g, ss[i])
  {
    forall i | 0 <= i < |ss| ensures Good(g, ss[i]) { GoodAt(g, ss, cs, i); }
  }

  lemma {:induction false} GoodAt(g: Params, ss: seq<State>, cs: seq<Choice>, i: nat)
    requires IsRun(g, ss, cs) && i < |ss|
    ensures Good(g, ss[i])
  {
    if i == 0 {
      StartOK(g);
    } else {
      GoodAt(g, ss, cs, i - 1);
      StepKeeps(g, ss[i - 1], cs[i - 1], ss[i]);
    }
  }

  lemma SievePrintsPrimes(g: Params, ss: seq<State>, cs: seq<Choice>, i: nat)
    requires IsRun(g, ss, cs) && i < |ss|
    ensures exists q :: ss[i].out == PrimesBelow(q)
    ensures forall p :: p in ss[i].out ==> Prime(p) && p <= g.goal
    ensures ss[i].exited ==> ss[i].out == PrimesBelow(g.goal + 1)
  {
    AlwaysGood(g, ss, cs);
    assert Good(g, ss[i]);
    if ss[i].exited {
      assert ss[i].out == PrimesBelow(g.goal + 1);
    } else {
      assert ss[i].out == PrimesBelow(Hi(ss[i].out));
    }
  }
}
