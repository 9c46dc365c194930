/** Where an exchange puts the data, and which exchange the two results of rand() select. */
module ChannelData {
  import opened Base
  import opened ChannelSpec

  // ----- data

  /** What the cell at v holds; behind a null pointer there are zeros. */
  ghost function CellAt(mem: map<nat, Elem>, v: Option<nat>): Elem {
    match v
    case Some(loc) => if loc in mem then mem[loc] else 0
    case None => 0
  }

  /** From w to w' alternative a has been carried out: one element is received, and is in the
      cell that a points to, or one is sent, and is what that cell holds. */
  ghost predicate CarriedOut(w: World, w': World, a: Alt) {
    && a.c < |w.chans| == |w'.chans|
    && var ch, ch' := w.chans[a.c], w'.chans[a.c];
       if a.op == Rcv then
         && |ch'.recvd| == |ch.recvd| + 1 && ch.recvd <= ch'.recvd
         && (a.v.Some? ==> CellAt(w'.mem, a.v) == ch'.recvd[|ch.recvd|])
       else
         && a.op == Snd && |ch'.sent| == |ch.sent| + 1 && ch.sent <= ch'.sent
         && ch'.sent[|ch.sent|] == CellAt(w'.mem, a.v)
  }

  /** The one cell that an alternative may write to. */
  ghost function Target(a: Alt): set<nat> {
    if a.op == Rcv && a.v.Some? then {a.v.value} else {}
  }

  /** Only the cells in locs have changed. */
  ghost predicate OnlyCells(mem: map<nat, Elem>, mem': map<nat, Elem>, locs: set<nat>) {
    forall l :: l !in locs ==> (l in mem' <==> l in mem) && (l in mem ==> mem'[l] == mem[l])
  }

  lemma CopyData(ch: Chan, mem: map<nat, Elem>, s: Option<Alt>, r: Option<Alt>)
    requires Fifo(ch) && CanCopy(ch, s, r)
    ensures var (ch', mem') := Copy(ch, mem, s, r);
      && (s.Some? ==> ch'.sent == ch.sent + [CellAt(mem', s.value.v)])
      && (r.Some? ==> |ch'.recvd| == |ch.recvd| + 1 && ch.recvd <= ch'.recvd)
      && (r.Some? && r.value.v.Some? ==> CellAt(mem', r.value.v) == ch'.recvd[|ch.recvd|])
      && OnlyCells(mem, mem', if r.Some? && r.value.v.Some? then {r.value.v.value} else {})
  {
    CopyKeepsFifo(ch, mem, s, r);
  }

  /** What is sent is what the sender's cell holds before, unless the receiver has written to it. */
  lemma CopySends(ch: Chan, mem: map<nat, Elem>, s: Alt, r: Option<Alt>)
    requires Fifo(ch) && CanCopy(ch, Some(s), r)
    ensures var (ch', mem') := Copy(ch, mem, Some(s), r);
      && |ch'.sent| == |ch.sent| + 1 && (r.Some? ==> |ch'.recvd| == |ch.recvd| + 1)
      && ch'.sent[|ch.sent|] ==
           if r.Some? && 0 < ch.nbuf && r.value.v.Some? && s.v == r.value.v then ch'.recvd[|ch.recvd|]
           else CellAt(mem, s.v)
  {
    CopyKeepsFifo(ch, mem, Some(s), r);
  }

  /** The alternative of the woken task that the exchange chose. */
  ghost function ChosenAlt(w: World, w': World, u: TaskId): Alt
    requires u in w.blocked && u in w'.chosen && w'.chosen[u] < |w.blocked[u]|
  {
    w.blocked[u][w'.chosen[u]]
  }

  /** What an exchange with alternative a does to data: it carries out a, and with a woken
      task the opposite alternative that this task will be told; no cell changes but that
      of the receiver. */
  ghost predicate DataMoved(w: World, w': World, a: Alt, woken: Option<TaskId>) {
    && CarriedOut(w, w', a)
    && match woken
       case None => OnlyCells(w.mem, w'.mem, Target(a))
       case Some(u) =>
         && u in w.blocked && u in w'.chosen && w'.chosen[u] < |w.blocked[u]|
         && var b := ChosenAlt(w, w', u);
            && b.c == a.c && b.op == Other(a.op) && CarriedOut(w, w', b)
            && OnlyCells(w.mem, w'.mem, Target(a) + Target(b))
  }

  lemma ExecMovesData(w: World, a: Alt, k: nat)
    requires Inv(w) && Listed(w.chans, [a]) && CanExec(w.chans, a)
    ensures DataMoved(w, Exec(w, a, k).0, a, Exec(w, a, k).1)
  {
    var o, s, r := ExecEffect(w, a, k);
    CopyKeepsFifo(w.chans[a.c], w.mem, s, r);
    CopyData(w.chans[a.c], w.mem, s, r);
    ExchangeMovesData(w, Exec(w, a, k).0, a, o, s, r);
  }

  lemma ExchangeMovesData(w: World, w': World, a: Alt, o: Option<AltRef>, s: Option<Alt>, r: Option<Alt>)
    requires (a.op == Snd || a.op == Rcv) && a.c < |w.chans| && Fifo(w.chans[a.c]) && CanCopy(w.chans[a.c], s, r)
    requires o.Some? ==> Refers(w, o.value, a.c, Other(a.op))
    requires s == SenderOf(a, PartnerAlt(w, o)) && r == ReceiverOf(a, PartnerAlt(w, o))
    requires Exchanged(w, w', a.c, Copy(w.chans[a.c], w.mem, s, r).0, o)
    requires w'.chosen == (if o.Some? then w.chosen[o.value.task := o.value.i] else w.chosen)
    requires w'.mem == Copy(w.chans[a.c], w.mem, s, r).1
    ensures DataMoved(w, w', a, if o.Some? then Some(o.value.task) else None)
  {
    CopyData(w.chans[a.c], w.mem, s, r);
    CopyKeepsFifo(w.chans[a.c], w.mem, s, r);
  }

  /** A call that returns an index has moved data like this; any other has moved none. */
  lemma CallMovesData(w: World, t: TaskId, alts: seq<Alt>, canblock: bool, j: nat, k: nat)
    requires Inv(w) && Listed(w.chans, alts) && t !in w.blocked
    ensures var r := ChanAlt(w, t, alts, canblock, j, k);
      if r.out.Done? then r.out.i < |alts| && DataMoved(w, r.w, alts[r.out.i], r.woken)
      else r.woken.None? && r.w.mem == w.mem && SameDataAll(r.w.chans, w.chans)
  {
    var ready := Ready(w.chans, alts, 0);
    if ready != [] {
      var i := ready[j % |ready|];
      assert i in ready;
      ExecMovesData(w, alts[i], k);
    } else if canblock {
      forall c, op: Op, q | 0 <= c < |w.chans| && Queued(w.chans[c], op, q) ensures q.task != t {
        assert Refers(w, q, c, op);
      }
      EnqueueAllEffect(w.chans, t, alts, 0);
    } else {
      assert SameDataAll(w.chans, w.chans);
    }
  }

  /** The receiver writes to the cell that the sender reads, behind a full buffer. */
  ghost predicate Overwrites(w: World, r: Alt, s: Alt) {
    r.c < |w.chans| && 0 < w.chans[r.c].bufsize && r.op == Rcv && s.op == Snd && r.v.Some? && s.v == r.v
  }

  /** What is sent is what the sender's cell held before, except when a receiver takes the
      oldest element out of a full buffer into that very cell before the waiting sender puts its
      own in: then that element is sent again. */
  lemma SentIsOld(w: World, a: Alt, k: nat)
    requires Inv(w) && Listed(w.chans, [a]) && CanExec(w.chans, a)
    ensures var (w', u) := Exec(w, a, k);
      && DataMoved(w, w', a, u)
      && var ch, ch' := w.chans[a.c], w'.chans[a.c];
         && (a.op == Snd ==> ch'.sent[|ch.sent|] == CellAt(w.mem, a.v))
         && (a.op == Rcv && u.Some? ==>
              var b := ChosenAlt(w, w', u.value);
              ch'.sent[|ch.sent|] == if Overwrites(w, a, b) then ch'.recvd[|ch.recvd|] else CellAt(w.mem, b.v))
  {
    ExecMovesData(w, a, k);
    var o, s, r := ExecEffect(w, a, k);
    assert NoMissed(w.chans[a.c]) && Fifo(w.chans[a.c]);
    if s.Some? { CopySends(w.chans[a.c], w.mem, s.value, r); }
  }

  /** A full buffer that holds 7, and task 1, which waits to send the 8 in cell 5. */
  ghost function Waiting(): World {
    World([Chan(1, [7], 1, 0, [AltRef(1, 0)], [], [7], [])], map[1 := [Alt(0, Some(5), Snd)]], map[], map[5 := 8])
  }

  lemma WaitingOK()
    ensures Inv(Waiting()) && Contents(Waiting().chans[0]) == [7]
  {
    var w := Waiting();
    assert Refers(w, AltRef(1, 0), 0, Snd);
    assert Fifo(w.chans[0]) by { assert [] + [7] == [7]; }
  }

  /** Whoever then receives into cell 5 makes task 1 send 7 instead. */
  lemma SentAgain(k: nat)
    ensures var w, a := Waiting(), Alt(0, Some(5), Rcv);
      && Inv(w) && Listed(w.chans, [a]) && CanExec(w.chans, a)
      && Exec(w, a, k).1 == Some(1) && Exec(w, a, k).0.chans[0].sent == [7, 7]
  {
    WaitingOK();
    var w, a := Waiting(), Alt(0, Some(5), Rcv);
    ExecMovesData(w, a, k);
    SentIsOld(w, a, k);
    var ch' := Exec(w, a, k).0.chans[0];
    assert Exec(w, a, k).1 == Some(1) by { var o, s, r := ExecEffect(w, a, k); }
    ExecKeepsInv(w, a, k);
    assert Fifo(ch') && ch'.recvd[0] == ch'.sent[0] == 7;
  }

  // ----- choices

  lemma {:induction false} SizeOf(s: seq<nat>)
    requires NoDup(s)
    ensures |Elems(s)| == |s|
  {
    if s != [] {
      var n := |s| - 1;
      SizeOf(s[..n]);
      assert s == s[..n] + [s[n]];
      assert Elems(s) == Elems(s[..n]) + {s[n]};
      assert s[n] !in s[..n];
    }
  }

  lemma {:induction false} ReadyOnce(chans: seq<Chan>, alts: seq<Alt>, i: nat)
    requires Listed(chans, alts) && i <= |alts|
    ensures NoDup(Ready(chans, alts, i))
    decreases |alts| - i
  {
    if i < |alts| {
      ReadyOnce(chans, alts, i + 1);
      var rest := Ready(chans, alts, i + 1);
      assert i !in rest;
      assert CanExec(chans, alts[i]) ==> Ready(chans, alts, i) == [i] + rest;
    }
  }

  /** The alternatives that can be executed now. */
  ghost function Executable(chans: seq<Chan>, alts: seq<Alt>): set<nat>
    requires Listed(chans, alts)
  {
    set i: nat | i < |alts| && CanExec(chans, alts[i])
  }

  lemma ReadyIsExecutable(chans: seq<Chan>, alts: seq<Alt>)
    requires Listed(chans, alts)
    ensures var ready := Ready(chans, alts, 0);
      NoDup(ready) && Elems(ready) == Executable(chans, alts) && |ready| == |Executable(chans, alts)|
  {
    ReadyOnce(chans, alts, 0);
    SizeOf(Ready(chans, alts, 0));
    assert Elems(Ready(chans, alts, 0)) == Executable(chans, alts);
  }

  /** Every executable alternative is chosen by one residue of rand() modulo their number. */
  lemma EachAlternativeChosen(w: World, t: TaskId, alts: seq<Alt>, canblock: bool, i: nat) returns (m: nat)
    requires Inv(w) && Listed(w.chans, alts) && i < |alts| && CanExec(w.chans, alts[i])
    ensures i in Executable(w.chans, alts) && m < |Executable(w.chans, alts)|
    ensures forall j: nat, k: nat ::
      ChanAlt(w, t, alts, canblock, j, k).out == Done(i) <==> j % |Executable(w.chans, alts)| == m
  {
    var ready := Ready(w.chans, alts, 0);
    ReadyIsExecutable(w.chans, alts);
    assert i in ready;
    m :| m < |ready| && ready[m] == i;
    forall j: nat, k: nat ensures ChanAlt(w, t, alts, canblock, j, k).out == Done(i) <==> j % |ready| == m {
      var p := j % |ready|;
      assert ChanAlt(w, t, alts, canblock, j, k).out == Done(ready[p]);
      assert ready[p] == ready[m] ==> p == m;
    }
  }

  /** The exchange wakes the task of r, which will be told the index in r. */
  ghost predicate Takes(w: World, a: Alt, k: nat, r: AltRef)
    requires Inv(w) && Listed(w.chans, [a]) && CanExec(w.chans, a)
  {
    var (w', u) := Exec(w, a, k);
    u == Some(r.task) && r.task in w'.chosen && w'.chosen[r.task] == r.i
  }

  lemma TakesPartner(w: World, a: Alt, k: nat, r: AltRef)
    requires Inv(w) && Listed(w.chans, [a]) && CanExec(w.chans, a)
    ensures Takes(w, a, k, r) <==> Partner(w.chans, a, k) == Some(r)
  {
    var o, s, v := ExecEffect(w, a, k);
  }

  /** The waiter at position m of its queue is selected by this result of rand(). */
  ghost predicate Selects(k: nat, q: seq<AltRef>, m: nat)
    requires q != []
  {
    k % |q| == m
  }

  lemma TakesAt(w: World, a: Alt, k: nat, m: nat)
    requires Inv(w) && Listed(w.chans, [a]) && a in [a] && CanExec(w.chans, a)
    requires m < |Waiters(w.chans[a.c], Other(a.op))|
    ensures var q := Waiters(w.chans[a.c], Other(a.op)); Takes(w, a, k, q[m]) <==> Selects(k, q, m)
  {
    TakesPartner(w, a, k, Waiters(w.chans[a.c], Other(a.op))[m]);
  }

  /** And every waiter on the other side by one residue of rand() modulo their number. */
  lemma EachWaiterChosen(w: World, a: Alt, r: AltRef) returns (m: nat)
    requires Inv(w) && Listed(w.chans, [a]) && a in [a] && a.op != Nop && r in Waiters(w.chans[a.c], Other(a.op))
    requires CanExec(w.chans, a)
    ensures m < |Waiters(w.chans[a.c], Other(a.op))|
    ensures forall k: nat :: Takes(w, a, k, r) <==> Selects(k, Waiters(w.chans[a.c], Other(a.op)), m)
  {
    m :| m < |Waiters(w.chans[a.c], Other(a.op))| && Waiters(w.chans[a.c], Other(a.op))[m] == r;
    forall k: nat ensures Takes(w, a, k, r) <==> Selects(k, Waiters(w.chans[a.c], Other(a.op)), m) {
      TakesAt(w, a, k, m);
    }
  }
}
