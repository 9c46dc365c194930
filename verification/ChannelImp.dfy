/** libtask/channel.c in its own form: ring buffers and growable queues that are
    updated in place, and the loops of chanalt over the caller's list. Every
    method is proved against the functions of ChannelSpec. */
module ChannelImp {
  import opened Base
  import opened ChannelSpec
  import opened ChannelRuns

  /** Altarray: a growable array of which the first n slots are in use. */
  class Altarray {
    var a: array<AltRef>
    var n: nat

    ghost predicate Valid() reads this {
      n <= a.Length
    }

    ghost function View(): seq<AltRef> reads this, a requires Valid() {
      a[..n]
    }

    constructor ()
      ensures Valid() && View() == [] && fresh(a)
    {
      a := new AltRef[0];
      n := 0;
    }

    method AddArray(alt: AltRef)
      requires Valid()
      modifies this, a
      ensures Valid() && (a == old(a) || fresh(a))
      ensures View() == old(View()) + [alt]
    {
      if n == a.Length {
        var b := new AltRef[a.Length + 16];
        for i := 0 to n
          invariant a == old(a) && n == old(n) && b.Length == a.Length + 16 && a[..] == old(a[..])
          invariant b[..i] == a[..i]
        {
          b[i] := a[i];
        }
        a := b;
      }
      a[n] := alt;
      n := n + 1;
    }

    method DelArray(i: nat)
      requires Valid() && i < n
      modifies this, a
      ensures Valid() && a == old(a)
      ensures View() == SwapRemove(old(View()), i)
    {
      n := n - 1;
      a[i] := a[n];
    }
  }

  class Channel {
    const bufsize: nat
    const buf: array<Elem>
    var nbuf: nat
    var off: nat
    const asend: Altarray
    const arecv: Altarray
    ghost var sent: seq<Elem>
    ghost var recvd: seq<Elem>

    ghost function Repr(): set<object> reads this, asend, arecv {
      {this, buf, asend, arecv, asend.a, arecv.a}
    }

    ghost predicate Valid() reads Repr() {
      && buf.Length == bufsize
      && asend != arecv && asend.a != arecv.a
      && asend.Valid() && arecv.Valid()
    }

    ghost function View(): Chan reads Repr() requires Valid() {
      Chan(bufsize, buf[..], nbuf, off, asend.View(), arecv.View(), sent, recvd)
    }

    constructor (size: nat)
      ensures Valid() && fresh(Repr())
      ensures View() == Chan(size, seq(size, i => 0), 0, 0, [], [], [], [])
    {
      bufsize := size;
      buf := new Elem[size](i => 0);
      nbuf, off := 0, 0;
      asend := new Altarray();
      arecv := new Altarray();
      sent, recvd := [], [];
    }

    /** chanarray: the queue for an operation, null for an operation without one. */
    function ChanArray(op: Op): (q: Altarray?)
      ensures q == null <==> op != Snd && op != Rcv
    {
      match op
      case Snd => asend
      case Rcv => arecv
      case _ => null
    }

    method AltQueue(op: Op, alt: AltRef)
      requires Valid() && (op == Snd || op == Rcv)
      modifies Repr()
      ensures Valid() && fresh(Repr() - old(Repr()))
      ensures View() == Enqueue(old(View()), op, alt)
    {
      var ar := ChanArray(op);
      ar.AddArray(alt);
    }

    /** The part of altcopy that moves data between sender s, buffer and receiver r. */
    method Move(s: Option<Alt>, r: Option<Alt>, mem: map<nat, Elem>) returns (m: map<nat, Elem>)
      requires Valid() && RingOK(View()) && CanCopy(View(), s, r)
      modifies this, buf
      ensures Valid() && Repr() == old(Repr())
      ensures View() == Copy(old(View()), mem, s, r).0 && m == Copy(old(View()), mem, s, r).1
    {
      m := mem;
      if s.Some? && r.Some? && nbuf == 0 {
        var x := Load(m, s.value.v);
        m := Store(m, r.value.v, x);
        sent, recvd := sent + [x], recvd + [x];
        return;
      }
      if r.Some? {
        m := Store(m, r.value.v, buf[off]);
        recvd := recvd + [buf[off]];
        nbuf := nbuf - 1;
        off := off + 1;
        if off == bufsize {
          off := 0;
        }
      }
      if s.Some? {
        var x := Load(m, s.value.v);
        buf[(off + nbuf) % bufsize] := x;
        sent := sent + [x];
        nbuf := nbuf + 1;
      }
    }

    /** altdequeue; found is false where the program aborts. */
    method AltDequeue(op: Op, alt: AltRef) returns (found: bool)
      requires Valid()
      modifies Repr()
      ensures Valid() && Repr() == old(Repr())
      ensures found <==> alt in Waiters(old(View()), op)
      ensures View() == Dequeue(old(View()), op, alt)
    {
      var ar := ChanArray(op);
      if ar == null {
        return false;
      }
      ghost var q := ar.View();
      var i := 0;
      while i < ar.n
        invariant 0 <= i <= ar.n && Valid() && Repr() == old(Repr()) && View() == old(View())
        invariant forall h :: 0 <= h < i ==> q[h] != alt
      {
        if ar.a[i] == alt {
          assert q[i] == alt && i == IndexOf(q, alt);
          ar.DelArray(i);
          return true;
        }
        i := i + 1;
      }
      return false;
    }
  }

  /** All channels, the lists of the blocked callers and memory. world is what they stand for. */
  class ChanSystem {
    var chans: seq<Channel>
    var lists: map<TaskId, seq<Alt>>
    var chosen: map<TaskId, nat>
    var mem: map<nat, Elem>
    ghost var world: World
    ghost var Repr: set<object>

    ghost predicate Valid()
      reads this, Repr
      ensures Valid() ==> this in Repr
    {
      && this in Repr
      && Shown()
      && Inv(world)
      && mem == world.mem && chosen == world.chosen
      && lists.Keys == world.blocked.Keys
      && (forall t :: t in lists ==> Terminated(lists[t]) && Body(lists[t]) == world.blocked[t])
    }

    /** The channel objects are separate from each other and show world.chans. */
    ghost predicate Shown()
      reads this, Repr
    {
      && this in Repr
      && |chans| == |world.chans|
      && (forall i :: 0 <= i < |chans| ==> ChanOK(chans[i]) && chans[i].View() == world.chans[i])
      && (forall i, j :: 0 <= i < j < |chans| ==> chans[i].Repr() !! chans[j].Repr())
    }

    ghost predicate ChanOK(c: Channel)
      reads this, Repr
    {
      && c in Repr && c.asend in Repr && c.arecv in Repr && c.Repr() <= Repr && this !in c.Repr()
      && c.Valid()
    }

    constructor ()
      ensures Valid() && fresh(Repr)
      ensures world == World([], map[], map[], map[])
    {
      chans, lists, chosen, mem := [], map[], map[], map[];
      world := World([], map[], map[], map[]);
      Repr := {this};
    }

    /** As Shown, but saying nothing of what channel k holds. */
    ghost predicate ShownBut(k: nat)
      reads this, Repr, if k < |chans| then {chans[k], chans[k].asend, chans[k].arecv} else {}
    {
      && this in Repr
      && k < |chans| == |world.chans|
      && this !in chans[k].Repr()
      && (forall i :: 0 <= i < |chans| && i != k ==>
            ChanOK(chans[i]) && chans[i].View() == world.chans[i] && chans[i].Repr() !! chans[k].Repr())
      && (forall i, j :: 0 <= i < j < |chans| && i != k && j != k ==> chans[i].Repr() !! chans[j].Repr())
    }

    /** When only channel k has changed, and what it took in is new, the others still stand. */
    twostate lemma OthersStand(k: nat)
      requires old(Shown()) && unchanged(this) && k < |chans|
      requires forall o: object :: o in old(Repr) && o !in old(chans[k].Repr()) ==> unchanged(o)
      requires fresh(chans[k].Repr() - old(chans[k].Repr()))
      ensures ShownBut(k)
    {
      assert old(ChanOK(chans[k]));
      forall j | 0 <= j < |chans| && j != k
        ensures ChanOK(chans[j]) && chans[j].View() == world.chans[j] && chans[j].Repr() !! chans[k].Repr()
        ensures chans[j].Repr() == old(chans[j].Repr())
      {
        assert old(chans[j].Repr() !! chans[k].Repr());
        assert old(ChanOK(chans[j]));
      }
    }

    /** Bring the ghost state up to date after a change of channel k. */
    ghost method Refresh(k: nat)
      requires ShownBut(k) && chans[k].Valid()
      modifies `Repr, `world
      ensures Shown() && Repr == old(Repr) + chans[k].Repr()
      ensures world == old(world).(chans := old(world).chans[k := chans[k].View()])
    {
      Repr := Repr + chans[k].Repr();
      world := world.(chans := world.chans[k := chans[k].View()]);
    }

    method SetMem(m: map<nat, Elem>)
      requires Shown()
      modifies `mem
      ensures Shown() && mem == m
    {
      mem := m;
    }

    /** altqueue */
    method AltQueue(a: Alt, r: AltRef)
      requires Shown() && a.c < |chans| && (a.op == Snd || a.op == Rcv)
      modifies Repr
      ensures Shown() && fresh(Repr - old(Repr))
      ensures chans == old(chans) && lists == old(lists) && chosen == old(chosen) && mem == old(mem)
      ensures world == old(world).(chans := old(world).chans[a.c := Enqueue(old(world).chans[a.c], a.op, r)])
    {
      var c := chans[a.c];
      c.AltQueue(a.op, r);
      OthersStand(a.c);
      Refresh(a.c);
    }

    method AltDequeue(a: Alt, r: AltRef) returns (found: bool)
      requires Shown() && a.c < |chans| && (a.op == Snd || a.op == Rcv)
      modifies Repr
      ensures Shown() && fresh(Repr - old(Repr))
      ensures chans == old(chans) && lists == old(lists) && chosen == old(chosen) && mem == old(mem)
      ensures world == old(world).(chans := old(world).chans[a.c := Dequeue(old(world).chans[a.c], a.op, r)])
      ensures found <==> r in Waiters(old(world).chans[a.c], a.op)
    {
      var c := chans[a.c];
      found := c.AltDequeue(a.op, r);
      OthersStand(a.c);
      Refresh(a.c);
    }

    /** altalldequeue; absent is true where the program aborts. */
    method AltAllDequeue(t: TaskId, a: seq<Alt>) returns (absent: bool)
      requires Shown() && Terminated(a) && Pending(world.chans, t, Body(a), 0)
      modifies Repr
      ensures Shown() && fresh(Repr - old(Repr))
      ensures chans == old(chans) && lists == old(lists) && chosen == old(chosen) && mem == old(mem)
      ensures world == old(world).(chans := DequeueAll(old(world).chans, t, Body(a), 0))
      ensures !absent
    {
      absent := false;
      var i := 0;
      ghost var body := Body(a);
      while !Stops(a[i].op)
        invariant 0 <= i <= |body| && Shown() && fresh(Repr - old(Repr))
        invariant chans == old(chans) && lists == old(lists) && chosen == old(chosen) && mem == old(mem)
        invariant !absent && Pending(world.chans, t, body, i)
        invariant world == old(world).(chans := world.chans)
        invariant DequeueAll(world.chans, t, body, i) == DequeueAll(old(world).chans, t, body, 0)
        decreases |body| - i
      {
        DequeueOne(world.chans, t, body, i);
        if a[i].op != Nop {
          var found := AltDequeue(a[i], AltRef(t, i));
          absent := absent || !found;
        }
        i := i + 1;
      }
    }

    /** altcopy: sort out who sends, then move the data. */
    method AltCopy(s0: Alt, r0: Option<Alt>)
      requires Shown() && s0.c < |chans| && RingOK(world.chans[s0.c])
      requires (s0.op == Snd || s0.op == Rcv) && (r0.Some? ==> r0.value.op == Other(s0.op))
      requires CanCopy(world.chans[s0.c], SenderOf(s0, r0), ReceiverOf(s0, r0))
      modifies Repr
      ensures Shown() && fresh(Repr - old(Repr))
      ensures chans == old(chans) && lists == old(lists) && chosen == old(chosen)
      ensures var (ch, m) := Copy(old(world).chans[s0.c], old(mem), SenderOf(s0, r0), ReceiverOf(s0, r0));
        mem == m && world == old(world).(chans := old(world).chans[s0.c := ch])
    {
      var s, r := Some(s0), r0;
      var c := chans[s0.c];
      if s0.op == Rcv {
        s, r := r0, Some(s0);
      }
      assert s.None? || s.value.op == Snd;
      assert r.None? || r.value.op == Rcv;
      var m := c.Move(s, r, mem);
      OthersStand(s0.c);
      Refresh(s0.c);
      SetMem(m);
    }

    /** The end of altexec: the partner's call is settled, and names alternative i. */
    method Commit(u: TaskId, i: nat)
      requires Shown()
      modifies this`lists, this`chosen, this`world
      ensures Shown() && lists == old(lists) - {u} && chosen == old(chosen)[u := i]
      ensures world == World(old(world).chans, old(world).blocked - {u}, old(world).chosen[u := i], mem)
    {
      lists := lists - {u};
      chosen := chosen[u := i];
      world := World(world.chans, world.blocked - {u}, world.chosen[u := i], mem);
    }

    /** altexec on a channel where nobody waits on the other side changes memory only. */
    ghost method SyncMem()
      requires Shown()
      modifies this`world
      ensures Shown() && world == old(world).(mem := mem)
    {
      world := world.(mem := mem);
    }

    /** altcanexec */
    method AltCanExec(a: Alt) returns (can: bool)
      requires Shown() && Listed(world.chans, [a])
      ensures can == CanExec(world.chans, a)
    {
      assert a in [a];
      if a.op == Nop {
        return false;
      }
      var c := chans[a.c];
      assert ChanOK(c) && c.View() == world.chans[a.c];
      if c.bufsize == 0 {
        var ar := c.ChanArray(Other(a.op));
        return ar != null && ar.n > 0;
      }
      match a.op
      case Snd => return c.nbuf < c.bufsize;
      case Rcv => return c.nbuf > 0;
      case _ => return false;
    }

    /** altcopy, and the world brought up to date with memory. */
    method MoveData(a: Alt, b: Option<Alt>)
      requires Shown() && mem == world.mem && CanMove(world, a, b)
      modifies Repr
      ensures Shown() && fresh(Repr - old(Repr)) && mem == world.mem
      ensures chans == old(chans) && lists == old(lists) && chosen == old(chosen)
      ensures world == Moved(old(world), a, b)
    {
      AltCopy(a, b);
      SyncMem();
    }

    /** The rest of altexec with a partner: take it off every queue, settle its call. */
    method Unpark(other: AltRef, list: seq<Alt>)
      requires Shown() && mem == world.mem && other.task in world.blocked
      requires Terminated(list) && Body(list) == world.blocked[other.task]
        && Pending(world.chans, other.task, Body(list), 0)
      modifies Repr
      ensures Shown() && fresh(Repr - old(Repr)) && mem == world.mem
      ensures chans == old(chans) && lists == old(lists) - {other.task} && chosen == old(chosen)[other.task := other.i]
      ensures other.task in old(world).blocked && Listed(old(world).chans, old(world).blocked[other.task])
      ensures world == Unparked(old(world), other)
    {
      var absent := AltAllDequeue(other.task, list);
      assert !absent;
      Commit(other.task, other.i);
    }

    /** altexec with a partner. */
    method Pair(a: Alt, other: AltRef, list: seq<Alt>, ghost next: World)
      requires Shown() && mem == world.mem && other.task in world.blocked && other.i < |world.blocked[other.task]|
      requires Terminated(list) && Body(list) == world.blocked[other.task]
      requires CanMove(world, a, Some(list[other.i])) && Moved(world, a, Some(list[other.i])) == next
      requires Pending(next.chans, other.task, Body(list), 0)
      modifies Repr
      ensures Shown() && fresh(Repr - old(Repr)) && mem == world.mem
      ensures chans == old(chans) && lists == old(lists) - {other.task} && chosen == old(chosen)[other.task := other.i]
      ensures other.task in next.blocked && Listed(next.chans, next.blocked[other.task])
        && world == Unparked(next, other)
    {
      MoveData(a, Some(list[other.i]));
      Unpark(other, list);
    }

    /** altexec: woken is the task made ready, if any. */
    method AltExec(a: Alt, k: nat) returns (woken: Option<TaskId>)
      requires Valid() && Listed(world.chans, [a]) && CanExec(world.chans, a)
      modifies Repr
      ensures Valid() && fresh(Repr - old(Repr)) && chans == old(chans)
      ensures (world, woken) == Exec(old(world), a, k)
    {
      var other := FindPartner(a, k);
      if other.Some? {
        ExecPaired(a, k, other.value);
        woken := Some(other.value.task);
      } else {
        ExecAlone(a, k);
        woken := None;
      }
    }

    /** altexec when somebody waits on the other side. */
    method ExecPaired(a: Alt, ghost k: nat, other: AltRef)
      requires Valid() && Listed(world.chans, [a]) && CanExec(world.chans, a)
        && Partner(world.chans, a, k) == Some(other)
      modifies Repr
      ensures Valid() && fresh(Repr - old(Repr)) && chans == old(chans)
      ensures (world, Some(other.task)) == Exec(old(world), a, k)
    {
      ExecPlan(world, a, k, Some(other));
      ListOf(other.task);
      ghost var next := Moved(world, a, PartnerAlt(world, Some(other)));
      Pair(a, other, lists[other.task], next);
    }

    /** altexec when nobody does. */
    method ExecAlone(a: Alt, ghost k: nat)
      requires Valid() && Listed(world.chans, [a]) && CanExec(world.chans, a) && Partner(world.chans, a, k) == None
      modifies Repr
      ensures Valid() && fresh(Repr - old(Repr)) && chans == old(chans)
      ensures (world, None) == Exec(old(world), a, k)
    {
      ExecPlan(world, a, k, None);
      MoveData(a, None);
    }

    /** Whom altexec picks. */
    method FindPartner(a: Alt, k: nat) returns (o: Option<AltRef>)
      requires Shown() && Listed(world.chans, [a]) && CanExec(world.chans, a)
      ensures o == Partner(world.chans, a, k)
    {
      assert a in [a];
      var c := chans[a.c];
      assert ChanOK(c) && c.View() == world.chans[a.c];
      var ar := c.ChanArray(Other(a.op));
      if ar != null && ar.n > 0 {
        o := Some(ar.a[k % ar.n]);
      } else {
        o := None;
      }
    }

    /** The list of a blocked task is where its alternatives are looked up. */
    lemma ListOf(u: TaskId)
      requires Valid() && u in world.blocked
      ensures u in lists && Terminated(lists[u]) && Body(lists[u]) == world.blocked[u]
      ensures forall i :: 0 <= i < |world.blocked[u]| ==> lists[u][i] == world.blocked[u][i]
    {
    }

    /** The counting loop of chanalt. */
    method CountReady(a: seq<Alt>, n: nat) returns (ncan: nat)
      requires Shown() && n <= |a| && Listed(world.chans, a[..n])
      ensures ncan == |Ready(world.chans, a[..n], 0)|
    {
      ncan := 0;
      var i := 0;
      while i < n
        invariant 0 <= i <= n
        invariant ncan + |Ready(world.chans, a[..n], i)| == |Ready(world.chans, a[..n], 0)|
      {
        assert a[..n][i] == a[i] && a[i] in a[..n];
        var can := AltCanExec(a[i]);
        if can {
          ncan := ncan + 1;
        }
        i := i + 1;
      }
    }

    /** The choosing loop of chanalt: the position of the executable alternative number j0. */
    method Pick(a: seq<Alt>, n: nat, j0: nat) returns (i: nat)
      requires Shown() && n <= |a| && Listed(world.chans, a[..n])
      requires j0 < |Ready(world.chans, a[..n], 0)|
      ensures i == Ready(world.chans, a[..n], 0)[j0]
    {
      i := 0;
      var j := j0;
      ghost var alts := a[..n];
      ghost var ready, left := Ready(world.chans, alts, 0), Ready(world.chans, alts, 0);
      while i < n
        invariant 0 <= i <= n && 0 <= j < |left| && left == Ready(world.chans, alts, i) && left[j] == ready[j0]
      {
        assert alts[i] == a[i] && a[i] in alts;
        ReadyStep(world.chans, alts, i);
        var can := AltCanExec(a[i]);
        if can {
          if j == 0 {
            return;
          }
          j := j - 1;
        }
        i := i + 1;
        left := Ready(world.chans, alts, i);
      }
      assert false;
    }

    /** One round of the queueing loop of chanalt; all is what the loop is to make of the channels. */
    method QueueOne(t: TaskId, a: Alt, ghost alts: seq<Alt>, i: nat, ghost all: seq<Chan>)
      requires Shown() && i < |alts| && alts[i] == a && Listed(world.chans, alts)
        && EnqueueAll(world.chans, t, alts, i) == all
      modifies Repr
      ensures Shown() && fresh(Repr - old(Repr)) && Listed(world.chans, alts)
        && EnqueueAll(world.chans, t, alts, i + 1) == all
      ensures chans == old(chans) && lists == old(lists) && chosen == old(chosen) && mem == old(mem)
      ensures world == old(world).(chans := world.chans)
    {
      EnqueueAllStep(world.chans, t, alts, i);
      if a.op != Nop {
        AltQueue(a, AltRef(t, i));
      }
    }

    /** The queueing loop of chanalt. */
    method QueueAll(t: TaskId, a: seq<Alt>, n: nat)
      requires Shown() && n <= |a| && Listed(world.chans, a[..n])
      modifies Repr
      ensures Shown() && fresh(Repr - old(Repr))
      ensures chans == old(chans) && lists == old(lists) && chosen == old(chosen) && mem == old(mem)
      ensures world == old(world).(chans := EnqueueAll(old(world).chans, t, a[..n], 0))
    {
      var i := 0;
      ghost var alts := a[..n];
      ghost var all := EnqueueAll(world.chans, t, alts, 0);
      while i < n
        invariant 0 <= i <= n && Shown() && fresh(Repr - old(Repr)) && Listed(world.chans, alts)
        invariant chans == old(chans) && lists == old(lists) && chosen == old(chosen) && mem == old(mem)
        invariant world == old(world).(chans := world.chans)
        invariant EnqueueAll(world.chans, t, alts, i) == all
      {
        QueueOne(t, a[i], alts, i, all);
        i := i + 1;
      }
    }

    /** The caller's list is now the one its queued alternatives point into. */
    method Park(t: TaskId, a: seq<Alt>)
      requires Shown() && Terminated(a)
      modifies this`lists, this`chosen, this`world
      ensures Shown() && lists == old(lists)[t := a] && chosen == old(chosen) - {t}
      ensures world == old(world).(blocked := old(world).blocked[t := Body(a)], chosen := old(world).chosen - {t})
    {
      lists := lists[t := a];
      chosen := chosen - {t};
      world := world.(blocked := world.blocked[t := Body(a)], chosen := world.chosen - {t});
    }

    /** A task stores x in memory. */
    method Write(l: nat, x: Elem)
      requires Valid()
      modifies this`mem, this`world
      ensures Valid() && Apply(old(world), Event.Write(l, x)) == world
    {
      assert forall r, c, op :: Refers(world, r, c, op) == Refers(world.(mem := mem[l := x]), r, c, op);
      mem := mem[l := x];
      world := world.(mem := mem);
    }

    /** The loop of chanalt that finds the end of the list. */
    method Length(a: seq<Alt>) returns (n: nat)
      requires Terminated(a)
      ensures n == StopAt(a) && a[..n] == Body(a)
    {
      n := 0;
      while !Stops(a[n].op)
        invariant 0 <= n <= StopAt(a)
        decreases StopAt(a) - n
      {
        n := n + 1;
      }
    }

    /** The part of chanalt for a list with executable alternatives. */
    method Choose(ghost t: TaskId, a: seq<Alt>, n: nat, ncan: nat, ghost canblock: bool, j: nat, k: nat)
      returns (i: nat, woken: Option<TaskId>)
      requires Valid() && Terminated(a) && n == StopAt(a) && Listed(world.chans, Body(a)) && t !in world.blocked
      requires 0 < ncan == |Ready(world.chans, Body(a), 0)|
      modifies Repr
      ensures Valid() && fresh(Repr - old(Repr)) && chans == old(chans)
      ensures AltResult(world, Done(i), woken) == ChanAlt(old(world), t, Body(a), canblock, j, k)
    {
      i := Pick(a, n, j % ncan);
      assert i in Ready(world.chans, Body(a), 0) && Body(a)[i] == a[i];
      woken := AltExec(a[i], k);
    }

    /** chanalt for task t, with j and k the results of rand(), up to its return or its task switch. */
    method Alternate(t: TaskId, a: seq<Alt>, j: nat, k: nat) returns (out: Outcome, woken: Option<TaskId>)
      requires Valid() && Terminated(a) && Listed(world.chans, Body(a)) && t !in world.blocked
      modifies Repr
      ensures Valid() && fresh(Repr - old(Repr)) && chans == old(chans)
      ensures AltResult(world, out, woken) == ChanAlt(old(world), t, Body(a), a[StopAt(a)].op == End, j, k)
    {
      var n := Length(a);
      var canblock := a[n].op == End;
      var ncan := CountReady(a, n);
      if ncan > 0 {
        var i;
        i, woken := Choose(t, a, n, ncan, canblock, j, k);
        return Done(i), woken;
      }
      if !canblock {
        return Refused, None;
      }
      Block(t, a, n);
      return Parked, None;
    }

    /** The end of chanalt before its task switch. */
    method Block(t: TaskId, a: seq<Alt>, n: nat)
      requires Valid() && Terminated(a) && n == StopAt(a) && Listed(world.chans, Body(a)) && t !in world.blocked
      requires Ready(world.chans, Body(a), 0) == []
      modifies Repr
      ensures Valid() && fresh(Repr - old(Repr)) && chans == old(chans)
      ensures AltResult(world, Parked, None) == ChanAlt(old(world), t, Body(a), true, 0, 0)
    {
      ghost var w := world;
      ParkKeepsInv(w, t, Body(a));
      QueueAll(t, a, n);
      Park(t, a);
      assert Inv(world);
    }

    /** The value chanalt returns after its task switch. */
    method Resume(t: TaskId) returns (i: nat)
      requires Valid() && t !in world.blocked && t in world.chosen
      ensures i == world.chosen[t]
    {
      i := chosen[t];
    }

    method AddChannel(ch: Channel)
      requires Shown() && ch.Valid() && ch.Repr() !! Repr
      modifies this`chans, this`Repr, this`world
      ensures Shown() && Repr == old(Repr) + ch.Repr() && chans == old(chans) + [ch]
      ensures world == old(world).(chans := old(world).chans + [ch.View()])
    {
      chans := chans + [ch];
      Repr := Repr + ch.Repr();
      world := world.(chans := world.chans + [ch.View()]);
      forall i | 0 <= i < |old(chans)|
        ensures ChanOK(chans[i]) && chans[i].View() == world.chans[i] && chans[i].Repr() !! ch.Repr()
      {
        assert old(ChanOK(chans[i]));
      }
    }

    /** chancreate */
    method ChanCreate(bufsize: nat) returns (c: nat)
      requires Valid()
      modifies this
      ensures Valid() && fresh(Repr - old(Repr)) && c == |old(chans)| && |chans| == c + 1 && chans[..c] == old(chans)
      ensures world == old(world).(chans := old(world).chans + [NewChan(bufsize)])
    {
      CreateKeepsInv(world, bufsize);
      var ch := new Channel(bufsize);
      c := |chans|;
      AddChannel(ch);
    }
  }

  /** The roles are sorted out and altcopy is legal. */
  ghost predicate CanMove(w: World, a: Alt, b: Option<Alt>) {
    && a.c < |w.chans| && (a.op == Snd || a.op == Rcv) && (b.Some? ==> b.value.op == Other(a.op))
    && RingOK(w.chans[a.c]) && CanCopy(w.chans[a.c], SenderOf(a, b), ReceiverOf(a, b))
  }

  /** The world after altcopy of a and b. */
  ghost function Moved(w: World, a: Alt, b: Option<Alt>): World
    requires CanMove(w, a, b)
  {
    var (ch, m) := Copy(w.chans[a.c], w.mem, SenderOf(a, b), ReceiverOf(a, b));
    w.(chans := w.chans[a.c := ch], mem := m)
  }

  /** The world after the blocked call of r was settled by its alternative r. */
  ghost function Unparked(w: World, r: AltRef): World
    requires r.task in w.blocked && Listed(w.chans, w.blocked[r.task])
  {
    World(DequeueAll(w.chans, r.task, w.blocked[r.task], 0), w.blocked - {r.task}, w.chosen[r.task := r.i], w.mem)
  }

  /** What altexec will do, and that nothing in it can go wrong. */
  lemma ExecPlan(w: World, a: Alt, k: nat, o: Option<AltRef>)
    requires Inv(w) && Listed(w.chans, [a]) && CanExec(w.chans, a) && o == Partner(w.chans, a, k)
    ensures o.Some? ==> o.value.task in w.blocked && o.value.i < |w.blocked[o.value.task]|
    ensures CanMove(w, a, PartnerAlt(w, o))
    ensures var next := Moved(w, a, PartnerAlt(w, o));
      && (o.None? ==> Exec(w, a, k) == (next, None))
      && (o.Some? ==> Pending(next.chans, o.value.task, w.blocked[o.value.task], 0)
                      && Exec(w, a, k) == (Unparked(next, o.value), Some(o.value.task)))
    ensures Inv(Exec(w, a, k).0)
  {
    assert a in [a];
    ExecCanCopy(w, a, k);
    ExecKeepsInv(w, a, k);
    var s, r := SenderOf(a, PartnerAlt(w, o)), ReceiverOf(a, PartnerAlt(w, o));
    CopyKeepsFifo(w.chans[a.c], w.mem, s, r);
    if o.Some? {
      PendingPartner(w, w.chans[a.c := Copy(w.chans[a.c], w.mem, s, r).0], o.value.task);
    }
  }

  lemma PendingPartner(w: World, chans: seq<Chan>, u: TaskId)
    requires QueuesExact(w) && u in w.blocked && |chans| == |w.chans|
    requires forall c :: 0 <= c < |chans| ==> chans[c].asend == w.chans[c].asend && chans[c].arecv == w.chans[c].arecv
    ensures Pending(chans, u, w.blocked[u], 0)
  {
    var body := w.blocked[u];
    assert Listed(w.chans, body);
    forall h | 0 <= h < |body| && body[h].op != Nop ensures Queued(chans[body[h].c], body[h].op, AltRef(u, h)) {
      assert body[h] in body && Queued(w.chans[body[h].c], body[h].op, AltRef(u, h));
    }
  }

  /** Every alternative of t's list from i on is still in its queue. */
  ghost predicate Pending(chans: seq<Chan>, t: TaskId, body: seq<Alt>, i: nat) {
    && Listed(chans, body) && QueuesNoDup(chans) && i <= |body|
    && forall h :: i <= h < |body| && body[h].op != Nop ==> Queued(chans[body[h].c], body[h].op, AltRef(t, h))
  }

  lemma DequeueOne(chans: seq<Chan>, t: TaskId, body: seq<Alt>, i: nat)
    requires Pending(chans, t, body, i) && i < |body|
    ensures body[i].op == Nop ==>
      Pending(chans, t, body, i + 1) && DequeueAll(chans, t, body, i + 1) == DequeueAll(chans, t, body, i)
    ensures body[i].op != Nop ==>
      && (body[i].op == Snd || body[i].op == Rcv) && body[i].c < |chans|
      && AltRef(t, i) in Waiters(chans[body[i].c], body[i].op)
      && var chans' := chans[body[i].c := Dequeue(chans[body[i].c], body[i].op, AltRef(t, i))];
         Pending(chans', t, body, i + 1) && DequeueAll(chans', t, body, i + 1) == DequeueAll(chans, t, body, i)
  {
    assert body[i] in body;
    if body[i].op != Nop {
      DequeueEffect(chans[body[i].c], body[i].op, AltRef(t, i));
    }
  }

  predicate Stops(op: Op) {
    op == End || op == NoBlk
  }

  /** An alternative list as chanalt takes it: it has a terminator. */
  ghost predicate Terminated(a: seq<Alt>) {
    exists i :: 0 <= i < |a| && Stops(a[i].op)
  }

  /** Where the list stops. */
  ghost function StopAt(a: seq<Alt>): (n: nat)
    requires Terminated(a)
    ensures n < |a| && Stops(a[n].op) && forall i :: 0 <= i < n ==> !Stops(a[i].op)
  {
    if Stops(a[0].op) then 0
    else
      assert Terminated(a[1..]) by {
        var i :| 0 <= i < |a| && Stops(a[i].op);
        assert a[1..][i - 1] == a[i];
      }
      1 + StopAt(a[1..])
  }

  ghost function Body(a: seq<Alt>): seq<Alt>
    requires Terminated(a)
  {
    a[..StopAt(a)]
  }
}
