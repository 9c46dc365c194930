/** The concurrent prime sieve of libtask/primes.c as a network of tasks over the
    channels of ChannelSpec. Task 0 is taskmain; task x > 0 is the x-th primetask.
    Task x sends on channel x and task x + 1 receives from it. A run may interleave
    the tasks in any order: the scheduler's order is one of them. */
module Sieve {
  import opened Base
  import opened ChannelSpec
  import opened ChannelRuns
  import opened Primes

  /** Where a task is; the Wait forms are inside a channel operation that had to block. */
  datatype Pc =
    | Gen(i: int) | GenWait(i: int)
    | First | FirstWait
    | Loop(p: int) | LoopWait(p: int)
    | Sending(p: int, i: int) | SendWait(p: int, i: int)

  datatype State = State(w: World, pc: seq<Pc>, out: seq<int>, exited: bool)

  /** goal is the command-line argument, buffer the global variable. */
  datatype Params = Params(goal: int, buffer: nat)

  predicate Waits(pc: Pc) {
    pc.GenWait? || pc.FirstWait? || pc.LoopWait? || pc.SendWait?
  }

  predicate Sends(pc: Pc) {
    pc.Gen? || pc.GenWait? || pc.Sending? || pc.SendWait?
  }

  /** The only alternative of task x's next, or current, channel operation. Its
      data pointer is the address of a local variable, of which each task has one. */
  function CallOf(x: nat, pc: Pc): Alt {
    if Sends(pc) then Alt(x, Some(x), Snd) else Alt(if 0 < x then x - 1 else 0, Some(x), Rcv)
  }

  function Waiting(pc: Pc): Pc {
    match pc
    case Gen(i) => GenWait(i)
    case First => FirstWait
    case Loop(p) => LoopWait(p)
    case Sending(p, i) => SendWait(p, i)
    case _ => pc
  }

  /** chansendul stores its argument before it calls. */
  ghost function Prepared(s: State, x: nat): World
    requires x < |s.pc|
  {
    match s.pc[x]
    case Gen(i) => s.w.(mem := s.w.mem[x := i])
    case Sending(p, i) => s.w.(mem := s.w.mem[x := i])
    case _ => s.w
  }

  function Cell(w: World, x: nat): int {
    Load(w.mem, Some(x))
  }

  /** What task x does once its channel operation is complete, up to its next one. */
  ghost function After(g: Params, s: State, x: nat): State
    requires x < |s.pc| && PcOK(s, x)
  {
    match s.pc[x]
    case Gen(i) => s.(pc := s.pc[x := Gen(i + 1)])
    case GenWait(i) => s.(pc := s.pc[x := Gen(i + 1)])
    case Sending(p, _) => s.(pc := s.pc[x := Loop(p)])
    case SendWait(p, _) => s.(pc := s.pc[x := Loop(p)])
    case First => GotFirst(g, s, x, Cell(s.w, x))
    case FirstWait => GotFirst(g, s, x, Cell(s.w, x))
    case Loop(p) => Got(s, x, p, Cell(s.w, x))
    case LoopWait(p) => Got(s, x, p, Cell(s.w, x))
  }

  /** The first number received: exit, or print it and start the next stage. */
  ghost function GotFirst(g: Params, s: State, x: nat, v: int): State
    requires x < |s.pc|
  {
    if v > g.goal then s.(exited := true)
    else State(s.w.(chans := s.w.chans + [NewChan(g.buffer)]), s.pc[x := Loop(v)] + [First], s.out + [v], s.exited)
  }

  ghost function Got(s: State, x: nat, p: int, i: int): State
    requires x < |s.pc| && p != 0
  {
    s.(pc := s.pc[x := if i % p != 0 then Sending(p, i) else Loop(p)])
  }

  /** The program counter of task x is one it can have. */
  ghost predicate PcOK(s: State, x: nat)
    requires x < |s.pc|
  {
    match s.pc[x]
    case Gen(i) => x == 0
    case GenWait(i) => x == 0
    case First => 0 < x
    case FirstWait => 0 < x
    case Loop(p) => 0 < x && 2 <= p
    case LoopWait(p) => 0 < x && 2 <= p
    case Sending(p, i) => 0 < x && 2 <= p && x < |s.w.chans|
    case SendWait(p, i) => 0 < x && 2 <= p && x < |s.w.chans|
  }

  ghost predicate WellFormed(s: State) {
    && Inv(s.w)
    && |s.pc| == |s.w.chans| + 1 && 2 <= |s.pc|
    && (forall x :: 0 <= x < |s.pc| ==> PcOK(s, x))
    && (forall u :: u in s.w.blocked ==> u < |s.pc| && Waits(s.pc[u]) && s.w.blocked[u] == [CallOf(u, s.pc[u])])
  }

  ghost predicate CanStep(s: State, x: nat) {
    !s.exited && x < |s.pc| && x !in s.w.blocked
  }

  ghost function Operate(s: State, x: nat, j: nat, k: nat): AltResult
    requires WellFormed(s) && CanStep(s, x) && !Waits(s.pc[x])
  {
    assert PcOK(s, x);
    assert Inv(Prepared(s, x)) by { PreparedInv(s, x); }
    ChanAlt(Prepared(s, x), x, [CallOf(x, s.pc[x])], true, j, k)
  }

  lemma PreparedInv(s: State, x: nat)
    requires WellFormed(s) && CanStep(s, x)
    ensures Inv(Prepared(s, x))
  {
    var w' := Prepared(s, x);
    assert forall r, c, op :: Refers(s.w, r, c, op) == Refers(w', r, c, op);
  }

  /** One step of task x: it starts a channel operation, which completes or blocks;
      or, made ready again, it comes out of one. j and k are results of rand(). */
  ghost function StepOf(g: Params, s: State, x: nat, j: nat, k: nat): State
    requires WellFormed(s) && CanStep(s, x)
  {
    assert PcOK(s, x);
    if Waits(s.pc[x]) then After(g, s, x)
    else
      var r := Operate(s, x, j, k);
      if r.out.Done? then CallKeepsPc(s, x, j, k); After(g, s.(w := r.w), x)
      else s.(w := r.w, pc := s.pc[x := Waiting(s.pc[x])])
  }

  lemma CallKeepsPc(s: State, x: nat, j: nat, k: nat)
    requires WellFormed(s) && CanStep(s, x) && !Waits(s.pc[x])
    ensures |Operate(s, x, j, k).w.chans| == |s.w.chans|
    ensures PcOK(s.(w := Operate(s, x, j, k).w), x)
  {
    assert PcOK(s, x);
    PreparedInv(s, x);
    OneCall(Prepared(s, x), x, CallOf(x, s.pc[x]), j, k);
  }

  // ----- a channel operation is a chanalt with one alternative

  ghost predicate Singles(w: World) {
    forall u :: u in w.blocked ==> |w.blocked[u]| == 1 && w.blocked[u][0].v == Some(u)
  }

  ghost predicate SameHistory(x: Chan, y: Chan) {
    x.sent == y.sent && x.recvd == y.recvd && x.bufsize == y.bufsize
  }

  /** The histories of all channels but c are the same. */
  ghost predicate OnlyOn(w: World, w': World, c: nat) {
    && c < |w.chans| == |w'.chans|
    && (forall d :: 0 <= d < |w.chans| && d != c ==> SameHistory(w'.chans[d], w.chans[d]))
    && w'.chans[c].bufsize == w.chans[c].bufsize
  }

  /** x completed the single alternative a at once, with u the woken task if any. */
  ghost predicate SoleExchange(w: World, w': World, x: nat, a: Alt, u: Option<TaskId>) {
    var c := a.c;
    && OnlyOn(w, w', c)
    && (forall l :: (a.op == Rcv ==> l != x) && (a.op == Snd ==> u != Some(l)) ==> Cell(w', l) == Cell(w, l))
    && w'.blocked == (if u.Some? then w.blocked - {u.value} else w.blocked)
    && (u.Some? ==> u.value in w.blocked && u.value != x && w.blocked[u.value] == [Alt(c, Some(u.value), Other(a.op))])
    && (if a.op == Snd then
          && w'.chans[c].sent == w.chans[c].sent + [Cell(w, x)]
          && w'.chans[c].recvd == w.chans[c].recvd + (if u.Some? then [Cell(w', u.value)] else [])
        else
          && w'.chans[c].recvd == w.chans[c].recvd + [Cell(w', x)]
          && w'.chans[c].sent == w.chans[c].sent + (if u.Some? then [Cell(w, u.value)] else []))
  }

  /** What a call of x with the single alternative a may do. */
  ghost predicate Effect(w: World, x: nat, a: Alt, r: AltResult) {
    || (r.out.Done? && SoleExchange(w, r.w, x, a, r.woken))
    || (r.out.Parked? && OnlyOn(w, r.w, a.c) && SameHistory(r.w.chans[a.c], w.chans[a.c])
        && r.w.blocked == w.blocked[x := [a]] && r.w.mem == w.mem)
  }

  lemma OneExec(w: World, x: nat, a: Alt, k: nat)
    requires Inv(w) && Singles(w) && Listed(w.chans, [a]) && a.op != Nop && a.v == Some(x) && x !in w.blocked
    requires CanExec(w.chans, a)
    ensures SoleExchange(w, Exec(w, a, k).0, x, a, Exec(w, a, k).1)
  {
    var o, s, r := ExecEffect(w, a, k);
    assert RingOK(w.chans[a.c]) by { assert Fifo(w.chans[a.c]); }
    OneCopy(w, Exec(w, a, k).0, x, a, o, s, r);
  }

  lemma OneCopy(w: World, w': World, x: nat, a: Alt, o: Option<AltRef>, s: Option<Alt>, r: Option<Alt>)
    requires Singles(w) && a.c < |w.chans| && (a.op == Snd || a.op == Rcv) && a.v == Some(x) && x !in w.blocked
    requires RingOK(w.chans[a.c])
    requires o.Some? ==> Refers(w, o.value, a.c, Other(a.op))
    requires s == SenderOf(a, PartnerAlt(w, o)) && r == ReceiverOf(a, PartnerAlt(w, o))
    requires CanCopy(w.chans[a.c], s, r)
    requires Exchanged(w, w', a.c, Copy(w.chans[a.c], w.mem, s, r).0, o)
    requires w'.mem == Copy(w.chans[a.c], w.mem, s, r).1
    ensures SoleExchange(w, w', x, a, if o.Some? then Some(o.value.task) else None)
  {
    if o.Some? {
      assert w.blocked[o.value.task] == [Alt(a.c, Some(o.value.task), Other(a.op))];
    }
  }

  lemma OneCall(w: World, x: nat, a: Alt, j: nat, k: nat)
    requires Inv(w) && Singles(w) && Listed(w.chans, [a]) && a.op != Nop && a.v == Some(x) && x !in w.blocked
    ensures Effect(w, x, a, ChanAlt(w, x, [a], true, j, k))
    ensures Inv(ChanAlt(w, x, [a], true, j, k).w)
  {
    assert a in [a];
    var r := ChanAlt(w, x, [a], true, j, k);
    ChanAltKeepsInv(w, x, [a], true, j, k);
    var ready := Ready(w.chans, [a], 0);
    if ready != [] {
      assert ready[j % |ready|] in ready;
      OneExec(w, x, a, k);
    } else {
      ParkKeepsQueues(w, r.w, x, [a]);
    }
  }
}
