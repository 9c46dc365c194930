/** libtask/primes.c run on the channels of ChannelImp, by a scheduler that picks
    any ready task: it ends, and has printed exactly the primes up to the goal. */
module SieveProgram {
  import opened Base
  import opened ChannelSpec
  import opened ChannelImp
  import opened Primes
  import opened Sieve
  import SieveSafety
  import SieveProgress
  import SieveTermination

  class Program {
    const goal: int
    const buffer: nat
    const sys: ChanSystem
    var pc: seq<Pc>
    var out: seq<int>
    var exited: bool

    ghost function View(): State
      reads this, sys
    {
      State(sys.world, pc, out, exited)
    }

    ghost predicate Valid()
      reads this, sys, sys.Repr
    {
      sys.Valid() && this !in sys.Repr
    }

    constructor (goal: int, buffer: nat)
      ensures Valid() && fresh(sys.Repr)
      ensures this.goal == goal && this.buffer == buffer && View() == SieveSafety.Start(Params(goal, buffer))
    {
      this.goal, this.buffer := goal, buffer;
      pc, out, exited := [Gen(2), First], [], false;
      sys := new ChanSystem();
      new;
      var c := sys.ChanCreate(buffer);
    }

    /** One step of task x, up to its next channel operation or its next block. */
    method Run(x: nat, j: nat, k: nat)
      requires Valid() && WellFormed(View()) && CanStep(View(), x)
      modifies this, sys.Repr
      ensures Valid() && fresh(sys.Repr - old(sys.Repr))
      ensures View() == StepOf(Params(goal, buffer), old(View()), x, j, k)
    {
      assert PcOK(View(), x);
      ghost var s := View();
      if Waits(pc[x]) {
        Complete(x);
        return;
      }
      CallKeepsPc(s, x, j, k);
      var done := Call(x, j, k);
      if done.Done? {
        Complete(x);
      } else {
        pc := pc[x := Waiting(pc[x])];
      }
    }

    /** chansendul or chanrecvul up to its return or its task switch. */
    method Call(x: nat, j: nat, k: nat) returns (done: Outcome)
      requires Valid() && WellFormed(View()) && CanStep(View(), x) && !Waits(pc[x])
      modifies sys.Repr
      ensures Valid() && fresh(sys.Repr - old(sys.Repr))
      ensures sys.world == Operate(old(View()), x, j, k).w && done == Operate(old(View()), x, j, k).out
    {
      ghost var s := View();
      PreparedInv(s, x);
      assert PcOK(s, x);
      if pc[x].Gen? || pc[x].Sending? {
        sys.Write(x, pc[x].i);
      }
      var a := Single(x, pc[x]);
      var woken;
      done, woken := sys.Alternate(x, a, j, k);
      assert AltResult(sys.world, done, woken) == Operate(s, x, j, k);
    }

    /** What a task does once its channel operation is complete. */
    method Complete(x: nat)
      requires Valid() && x < |pc| && PcOK(View(), x)
      modifies this, sys.Repr
      ensures Valid() && fresh(sys.Repr - old(sys.Repr))
      ensures View() == After(Params(goal, buffer), old(View()), x)
    {
      var v := Load(sys.mem, Some(x));
      match pc[x] {
        case Gen(i) => pc := pc[x := Gen(i + 1)];
        case GenWait(i) => pc := pc[x := Gen(i + 1)];
        case Sending(p, _) => pc := pc[x := Loop(p)];
        case SendWait(p, _) => pc := pc[x := Loop(p)];
        case First => Begin(x, v);
        case FirstWait => Begin(x, v);
        case Loop(p) => pc := pc[x := if v % p != 0 then Sending(p, v) else Loop(p)];
        case LoopWait(p) => pc := pc[x := if v % p != 0 then Sending(p, v) else Loop(p)];
      }
    }

    method Begin(x: nat, p: int)
      requires Valid() && x < |pc|
      modifies this, sys.Repr
      ensures Valid() && fresh(sys.Repr - old(sys.Repr))
      ensures View() == GotFirst(Params(goal, buffer), old(View()), x, p)
    {
      if p > goal {
        exited := true;
        return;
      }
      out := out + [p];
      var nc := sys.ChanCreate(buffer);
      pc := pc[x := Loop(p)] + [First];
    }
  }

  /** The list _chanop builds. */
  function Single(x: nat, pc: Pc): (a: seq<Alt>)
    ensures Terminated(a) && StopAt(a) == 1 && Body(a) == [CallOf(x, pc)] && a[1].op == End
  {
    var a := [CallOf(x, pc), Alt(0, None, End)];
    assert Stops(a[1].op);
    a
  }

  /** main: run ready tasks, chosen in any order, until the program exits. */
  method RunSieve(goal: int, buffer: nat) returns (out: seq<int>)
    ensures out == PrimesBelow(goal + 1)
  {
    var m := new Program(goal, buffer);
    ghost var g := Params(goal, buffer);
    SieveSafety.StartOK(g);
    while !m.exited
      invariant m.goal == goal && m.buffer == buffer && m.Valid() && fresh(m) && fresh(m.sys.Repr)
      invariant SieveSafety.Good(g, m.View())
      decreases if m.exited then -1 else SieveTermination.StepsLeft(g, m.View())
    {
      ghost var s := m.View();
      SieveProgress.SomeTaskCanStep(g, s);
      var x: nat :| x < |m.pc| && x !in m.sys.lists;
      var j: nat := *;
      var k: nat := *;
      m.Run(x, j, k);
      SieveSafety.StepKeeps(g, s, SieveSafety.Choice(x, j, k), m.View());
      if !m.exited { SieveTermination.StepsLeftShrinks(g, s, SieveSafety.Choice(x, j, k), m.View()); }
    }
    out := m.out;
  }
}
