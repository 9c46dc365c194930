/** What the alternation protocol guarantees over every run: any tasks, any calls,
    any results of rand(), any writes to memory in between. */
module ChannelRuns {
  import opened Base
  import opened ChannelSpec
  import opened ChannelData

  datatype Event =
    | Create(bufsize: nat)
    | Write(loc: nat, x: Elem)
    | Call(t: TaskId, alts: seq<Alt>, canblock: bool, j: nat, k: nat)

  ghost const START := World([], map[], map[], map[])

  ghost function NewChan(bufsize: nat): Chan {
    Chan(bufsize, seq(bufsize, i => 0), 0, 0, [], [], [], [])
  }

  /** A blocked task runs nothing, and a caller passes existing channels. */
  ghost predicate Enabled(w: World, e: Event) {
    e.Call? ==> Listed(w.chans, e.alts) && e.t !in w.blocked
  }

  ghost function Apply(w: World, e: Event): World
    requires Inv(w) && Enabled(w, e)
  {
    match e
    case Create(bufsize) => w.(chans := w.chans + [NewChan(bufsize)])
    case Write(loc, x) => w.(mem := w.mem[loc := x])
    case Call(t, alts, canblock, j, k) => ChanAlt(w, t, alts, canblock, j, k).w
  }

  /** The task that event e makes ready, if any. */
  ghost function Woken(w: World, e: Event): Option<TaskId> {
    if e.Call? && Inv(w) && Enabled(w, e) then ChanAlt(w, e.t, e.alts, e.canblock, e.j, e.k).woken else None
  }

  ghost predicate Step(w: World, e: Event, w': World) {
    Inv(w) ==> Enabled(w, e) && w' == Apply(w, e)
  }

  ghost predicate IsRun(ws: seq<World>, es: seq<Event>) {
    |ws| == |es| + 1 && forall i :: 0 <= i < |es| ==> Step(ws[i], es[i], ws[i + 1])
  }

  lemma ApplyKeepsInv(w: World, e: Event)
    requires Inv(w) && Enabled(w, e)
    ensures Inv(Apply(w, e))
  {
    match e
    case Write(loc, x) =>
      var w' := Apply(w, e);
      assert forall r, c, op :: Refers(w, r, c, op) == Refers(w', r, c, op);
    case Call(t, alts, canblock, j, k) =>
      ChanAltKeepsInv(w, t, alts, canblock, j, k);
    case Create(bufsize) =>
      CreateKeepsInv(w, bufsize);
  }

  /** On the new channel a send is executable just if there is a buffer, and a receive is
      not; on the others nothing changes. */
  ghost predicate NewReady(chans: seq<Chan>, bufsize: nat, a: Alt)
    requires Listed(chans + [NewChan(bufsize)], [a])
  {
    CanExec(chans + [NewChan(bufsize)], a) <==>
      if a.c == |chans| then a.op == Snd && 0 < bufsize else Listed(chans, [a]) && CanExec(chans, a)
  }

  lemma NewIsReady(chans: seq<Chan>, bufsize: nat, a: Alt)
    requires Listed(chans + [NewChan(bufsize)], [a]) && a.op != Nop
    ensures NewReady(chans, bufsize, a)
  {
    assert a in [a];
    var all := chans + [NewChan(bufsize)];
    assert all[a.c] == if a.c < |chans| then chans[a.c] else NewChan(bufsize);
  }

  lemma CreateKeepsInv(w: World, bufsize: nat)
    requires Inv(w)
    ensures Inv(w.(chans := w.chans + [NewChan(bufsize)]))
    ensures forall a: Alt :: Listed(w.chans + [NewChan(bufsize)], [a]) && a.op != Nop ==>
      NewReady(w.chans, bufsize, a)
  {
    NewKeepsInv(w, bufsize);
    forall a: Alt | Listed(w.chans + [NewChan(bufsize)], [a]) && a.op != Nop
      ensures NewReady(w.chans, bufsize, a)
    {
      NewIsReady(w.chans, bufsize, a);
    }
  }

  lemma NewKeepsInv(w: World, bufsize: nat)
    requires Inv(w)
    ensures Inv(w.(chans := w.chans + [NewChan(bufsize)]))
  {
    var w' := w.(chans := w.chans + [NewChan(bufsize)]);
    forall c, op, r | 0 <= c < |w'.chans| && Queued(w'.chans[c], op, r) ensures Refers(w', r, c, op) {
      assert c < |w.chans| && Queued(w.chans[c], op, r);
      assert Refers(w, r, c, op);
    }
    forall t | t in w'.blocked ensures Listed(w'.chans, w'.blocked[t]) {
      assert Listed(w.chans, w.blocked[t]);
    }
    forall t, i | t in w'.blocked && 0 <= i < |w'.blocked[t]| && w'.blocked[t][i].op != Nop
      ensures Queued(w'.chans[w'.blocked[t][i].c], w'.blocked[t][i].op, AltRef(t, i))
    {
      assert w.blocked[t][i] in w.blocked[t] && Listed(w.chans, w.blocked[t]);
    }
    forall c | 0 <= c < |w'.chans| ensures Fifo(w'.chans[c]) && NoMissed(w'.chans[c]) {
      assert c < |w.chans| ==> w'.chans[c] == w.chans[c];
    }
  }

  /** No missed rendezvous, first in first out, and exact queues, in every reachable state. */
  lemma {:induction false} AlwaysInv(ws: seq<World>, es: seq<Event>)
    requires IsRun(ws, es) && Inv(ws[0])
    ensures forall i :: 0 <= i < |ws| ==> Inv(ws[i])
  {
    if es != [] {
      var n := |es| - 1;
      assert IsRun(ws[..n + 1], es[..n]);
      AlwaysInv(ws[..n + 1], es[..n]);
      assert Inv(ws[n]) && Step(ws[n], es[n], ws[n + 1]);
      ApplyKeepsInv(ws[n], es[n]);
    }
  }

  lemma RunStep(ws: seq<World>, es: seq<Event>, n: nat)
    requires IsRun(ws, es) && Inv(ws[0]) && n < |es|
    ensures Inv(ws[n]) && Inv(ws[n + 1]) && Enabled(ws[n], es[n]) && ws[n + 1] == Apply(ws[n], es[n])
  {
    AlwaysInv(ws, es);
    assert Inv(ws[n]) && Step(ws[n], es[n], ws[n + 1]);
  }

  // ----- one step

  ghost predicate NowhereQueued(w: World, u: TaskId) {
    forall c, op: Op, r :: 0 <= c < |w.chans| && Queued(w.chans[c], op, r) ==> r.task != u
  }

  /** u's blocked call was settled: the alternative it will name was carried out,
      and none of its alternatives is queued any more. */
  ghost predicate Settled(w: World, w': World, u: TaskId) {
    && u in w.blocked && u !in w'.blocked && NowhereQueued(w', u)
    && u in w'.chosen && w'.chosen[u] < |w.blocked[u]|
    && CarriedOut(w, w', w.blocked[u][w'.chosen[u]])
  }

  lemma NotBlockedNotQueued(w: World, u: TaskId)
    requires Inv(w) && u !in w.blocked
    ensures NowhereQueued(w, u)
  {
    forall c, op: Op, r | 0 <= c < |w.chans| && Queued(w.chans[c], op, r) ensures r.task != u {
      assert Refers(w, r, c, op);
    }
  }

  lemma ExecSettles(w: World, a: Alt, k: nat)
    requires Inv(w) && Listed(w.chans, [a]) && CanExec(w.chans, a)
    ensures var (w', u) := Exec(w, a, k);
      && CarriedOut(w, w', a)
      && (u.Some? ==> Settled(w, w', u.value))
      && (forall v :: v in w.blocked && u != Some(v) ==> v in w'.blocked && w'.blocked[v] == w.blocked[v])
      && (forall v :: v !in w.blocked ==> v !in w'.blocked && (v in w.chosen <==> v in w'.chosen))
      && (forall v :: v !in w.blocked && v in w.chosen ==> w'.chosen[v] == w.chosen[v])
  {
    var o, s, r := ExecEffect(w, a, k);
    ExecMovesData(w, a, k);
    ExecKeepsInv(w, a, k);
    if o.Some? { NotBlockedNotQueued(Exec(w, a, k).0, o.value.task); }
  }

  /** A call that returns i has committed its alternative i, which was executable. */
  lemma CallCommits(w: World, t: TaskId, alts: seq<Alt>, canblock: bool, j: nat, k: nat)
    requires Inv(w) && Listed(w.chans, alts) && t !in w.blocked
    ensures var r := ChanAlt(w, t, alts, canblock, j, k);
      && (r.out.Done? ==> r.out.i < |alts| && CanExec(w.chans, alts[r.out.i]) && CarriedOut(w, r.w, alts[r.out.i])
                          && t !in r.w.blocked && NowhereQueued(r.w, t) && r.woken != Some(t))
      && (r.out == Refused ==> r.w == w && !canblock && forall i :: 0 <= i < |alts| ==> !CanExec(w.chans, alts[i]))
      && (r.out == Parked ==>
        canblock && t in r.w.blocked && r.w.blocked[t] == alts
        && forall i :: 0 <= i < |alts| ==> !CanExec(w.chans, alts[i]))
  {
    var r := ChanAlt(w, t, alts, canblock, j, k);
    var ready := Ready(w.chans, alts, 0);
    if ready != [] {
      var i := ready[j % |ready|];
      assert i in ready;
      ExecSettles(w, alts[i], k);
      ExecKeepsInv(w, alts[i], k);
      NotBlockedNotQueued(r.w, t);
    } else {
      forall i | 0 <= i < |alts| ensures !CanExec(w.chans, alts[i]) { assert i !in ready; }
    }
  }

  lemma CallOnBlocked(w: World, t: TaskId, alts: seq<Alt>, canblock: bool, j: nat, k: nat, u: TaskId)
    requires Inv(w) && Listed(w.chans, alts) && t !in w.blocked && u in w.blocked
    ensures var r := ChanAlt(w, t, alts, canblock, j, k);
      if r.woken == Some(u) then Settled(w, r.w, u) else u in r.w.blocked && r.w.blocked[u] == w.blocked[u]
  {
    var ready := Ready(w.chans, alts, 0);
    if ready != [] {
      assert ready[j % |ready|] in ready;
      ExecSettles(w, alts[ready[j % |ready|]], k);
    }
  }

  /** A blocked call is either settled by the event that wakes the task, or untouched. */
  lemma StepOnBlocked(w: World, e: Event, u: TaskId)
    requires Inv(w) && Enabled(w, e) && u in w.blocked
    ensures var w' := Apply(w, e);
      if Woken(w, e) == Some(u) then Settled(w, w', u) else u in w'.blocked && w'.blocked[u] == w.blocked[u]
  {
    if e.Call? { CallOnBlocked(w, e.t, e.alts, e.canblock, e.j, e.k, u); }
  }

  /** Nothing happens to the outcome of a settled call while its task makes no new one. */
  lemma StepOnUnblocked(w: World, e: Event, u: TaskId)
    requires Inv(w) && Enabled(w, e) && u !in w.blocked && !(e.Call? && e.t == u)
    ensures var w' := Apply(w, e);
      && u !in w'.blocked && Woken(w, e) != Some(u)
      && (u in w.chosen ==> u in w'.chosen && w'.chosen[u] == w.chosen[u])
  {
    if e.Call? {
      var ready := Ready(w.chans, e.alts, 0);
      if ready != [] {
        assert ready[e.j % |ready|] in ready;
        ExecSettles(w, e.alts[ready[e.j % |ready|]], e.k);
      }
    }
  }

  // ----- exactly once

  /** How often the first n events wake u. */
  ghost function Wakeups(ws: seq<World>, es: seq<Event>, u: TaskId, n: nat): nat
    requires n <= |es| < |ws|
  {
    if n == 0 then 0 else Wakeups(ws, es, u, n - 1) + (if Woken(ws[n - 1], es[n - 1]) == Some(u) then 1 else 0)
  }

  /** At event i of the first n u was woken, its call settled, and its outcome stands after them. */
  ghost predicate SettledAt(ws: seq<World>, es: seq<Event>, u: TaskId, i: nat, n: nat)
    requires n <= |es| < |ws|
  {
    && i < n
    && Settled(ws[i], ws[i + 1], u)
    && u in ws[0].blocked
    && Woken(ws[i], es[i]) == Some(u)
    && ws[i].blocked[u] == ws[0].blocked[u]
    && u in ws[n].chosen && ws[n].chosen[u] == ws[i + 1].chosen[u]
  }

  /** The call with which u was blocked is as it was, or one event has settled it. */
  ghost predicate SettledOnce(ws: seq<World>, es: seq<Event>, u: TaskId, n: nat)
    requires n <= |es| < |ws|
  {
    && u in ws[0].blocked
    && Wakeups(ws, es, u, n) == (if u in ws[n].blocked then 0 else 1)
    && if u in ws[n].blocked then ws[n].blocked[u] == ws[0].blocked[u]
       else NowhereQueued(ws[n], u) && exists i: nat :: SettledAt(ws, es, u, i, n)
  }

  lemma BlockedOneMore(ws: seq<World>, es: seq<Event>, u: TaskId, n: nat)
    requires n < |es| < |ws| && Inv(ws[n]) && Inv(ws[n + 1]) && Enabled(ws[n], es[n])
    requires ws[n + 1] == Apply(ws[n], es[n]) && SettledOnce(ws, es, u, n) && u in ws[n].blocked
    ensures SettledOnce(ws, es, u, n + 1)
  {
    StepOnBlocked(ws[n], es[n], u);
    if Woken(ws[n], es[n]) == Some(u) { assert SettledAt(ws, es, u, n, n + 1); }
  }

  lemma SettledOneMore(ws: seq<World>, es: seq<Event>, u: TaskId, n: nat)
    requires n < |es| < |ws| && Inv(ws[n]) && Inv(ws[n + 1]) && Enabled(ws[n], es[n])
    requires ws[n + 1] == Apply(ws[n], es[n]) && SettledOnce(ws, es, u, n) && u !in ws[n].blocked
    requires !(es[n].Call? && es[n].t == u)
    ensures SettledOnce(ws, es, u, n + 1)
  {
    StepOnUnblocked(ws[n], es[n], u);
    var i: nat :| SettledAt(ws, es, u, i, n);
    assert SettledAt(ws, es, u, i, n + 1);
    NotBlockedNotQueued(ws[n + 1], u);
  }

  /** What held of u's call after n - 1 events holds after n. */
  ghost predicate StaysSettledOnce(ws: seq<World>, es: seq<Event>, u: TaskId, n: nat)
    requires 0 < n <= |es| < |ws|
  {
    SettledOnce(ws, es, u, n - 1) ==> SettledOnce(ws, es, u, n)
  }

  lemma OneMore(ws: seq<World>, es: seq<Event>, u: TaskId, n: nat)
    requires IsRun(ws, es) && Inv(ws[0]) && n < |es| && !(es[n].Call? && es[n].t == u)
    ensures StaysSettledOnce(ws, es, u, n + 1)
  {
    RunStep(ws, es, n);
    if SettledOnce(ws, es, u, n) {
      if u in ws[n].blocked { BlockedOneMore(ws, es, u, n); } else { SettledOneMore(ws, es, u, n); }
    }
  }

  lemma {:induction false} AllSettledOnce(ws: seq<World>, es: seq<Event>, u: TaskId, n: nat)
    requires n <= |es| < |ws| && SettledOnce(ws, es, u, 0)
    requires forall m :: 0 < m <= n ==> StaysSettledOnce(ws, es, u, m)
    ensures SettledOnce(ws, es, u, n)
  {
    if n != 0 {
      AllSettledOnce(ws, es, u, n - 1);
      assert StaysSettledOnce(ws, es, u, n);
    }
  }

  /** A blocked call stays exactly as it was until one event, and one only, wakes
      its task; that event carried out the one alternative the call will return, and
      from then on none of its alternatives is queued anywhere. */
  lemma BlockedCallSettlesOnce(ws: seq<World>, es: seq<Event>, u: TaskId, n: nat)
    requires IsRun(ws, es) && Inv(ws[0]) && u in ws[0].blocked && n <= |es|
    requires forall i :: 0 <= i < n ==> !(es[i].Call? && es[i].t == u)
    ensures SettledOnce(ws, es, u, n)
  {
    forall m | 0 < m <= n ensures StaysSettledOnce(ws, es, u, m) { OneMore(ws, es, u, m - 1); }
    AllSettledOnce(ws, es, u, n);
  }

  // ----- conservation

  ghost function Commits(chans: seq<Chan>): nat {
    if chans == [] then 0
    else Commits(chans[..|chans| - 1]) + |chans[|chans| - 1].sent| + |chans[|chans| - 1].recvd|
  }

  lemma {:induction false} CommitsAt(x: seq<Chan>, y: seq<Chan>, c: nat)
    requires |x| == |y| && c < |x|
    requires forall d :: 0 <= d < |x| && d != c ==> x[d].sent == y[d].sent && x[d].recvd == y[d].recvd
    ensures Commits(y) - Commits(x) == |y[c].sent| - |x[c].sent| + |y[c].recvd| - |x[c].recvd|
  {
    var n := |x| - 1;
    if c == n {
      CommitsSame(x[..n], y[..n]);
    } else {
      CommitsAt(x[..n], y[..n], c);
    }
  }

  lemma {:induction false} CommitsSame(x: seq<Chan>, y: seq<Chan>)
    requires |x| == |y|
    requires forall d :: 0 <= d < |x| ==> x[d].sent == y[d].sent && x[d].recvd == y[d].recvd
    ensures Commits(y) == Commits(x)
  {
    if x != [] { CommitsSame(x[..|x| - 1], y[..|x| - 1]); }
  }

  /** Over all channels together a call commits one alternative for itself and one
      for the task it wakes: a returning call can not have executed two of its own. */
  lemma CallCommitsOne(w: World, t: TaskId, alts: seq<Alt>, canblock: bool, j: nat, k: nat)
    requires Inv(w) && Listed(w.chans, alts) && t !in w.blocked
    ensures var r := ChanAlt(w, t, alts, canblock, j, k);
      Commits(r.w.chans) == Commits(w.chans) + (if r.out.Done? then 1 else 0) + (if r.woken.Some? then 1 else 0)
  {
    var r := ChanAlt(w, t, alts, canblock, j, k);
    var ready := Ready(w.chans, alts, 0);
    if ready != [] {
      var i := ready[j % |ready|];
      assert i in ready;
      var o, s, v := ExecEffect(w, alts[i], k);
      CopyKeepsFifo(w.chans[alts[i].c], w.mem, s, v);
      CommitsAt(w.chans, r.w.chans, alts[i].c);
    } else if canblock {
      forall c, op: Op, q | 0 <= c < |w.chans| && Queued(w.chans[c], op, q) ensures q.task != t {
        assert Refers(w, q, c, op);
      }
      EnqueueAllEffect(w.chans, t, alts, 0);
      CommitsSame(w.chans, r.w.chans);
    }
  }

  /** What a receiver gets is the oldest element sent and not yet received. */
  lemma ReceiverGetsOldest(ch: Chan, mem: map<nat, Elem>, s: Option<Alt>, r: Alt)
    requires Fifo(ch) && CanCopy(ch, s, Some(r))
    ensures var (ch', mem') := Copy(ch, mem, s, Some(r));
      && |ch.recvd| < |ch'.sent| && ch'.recvd == ch.recvd + [ch'.sent[|ch.recvd|]]
      && (r.v.Some? ==> Load(mem', r.v) == ch'.sent[|ch.recvd|])
      && (forall l :: l in mem && Some(l) != r.v ==> l in mem' && mem'[l] == mem[l])
  {
    CopyKeepsFifo(ch, mem, s, Some(r));
    if !(s.Some? && ch.nbuf == 0) {
      TakeKeepsFifo(ch);
      assert ch.sent[|ch.recvd|] == Contents(ch)[0];
    }
  }

  lemma StepGrows(w: World, e: Event, c: nat)
    requires Inv(w) && Enabled(w, e) && c < |w.chans|
    ensures var w' := Apply(w, e);
      && c < |w'.chans| && w'.chans[c].bufsize == w.chans[c].bufsize
      && w.chans[c].sent <= w'.chans[c].sent && w.chans[c].recvd <= w'.chans[c].recvd
  {
    if e.Call? {
      var ready := Ready(w.chans, e.alts, 0);
      if ready != [] {
        var i := ready[e.j % |ready|];
        assert i in ready;
        var o, s, v := ExecEffect(w, e.alts[i], e.k);
        CopyKeepsFifo(w.chans[e.alts[i].c], w.mem, s, v);
      } else if e.canblock {
        ParkKeepsQueues(w, Apply(w, e), e.t, e.alts);
      }
    }
  }

  /** Over any run, what was received from a channel is a prefix of what was sent
      on it, the rest is in its buffer in order, and neither record is ever revised. */
  lemma {:induction false} RunFifo(ws: seq<World>, es: seq<Event>, c: nat)
    requires IsRun(ws, es) && Inv(ws[0]) && c < |ws[0].chans|
    ensures var last := ws[|es|];
      && Inv(last) && c < |last.chans|
      && last.chans[c].recvd <= last.chans[c].sent
      && last.chans[c].sent[|last.chans[c].recvd|..] == Contents(last.chans[c])
      && ws[0].chans[c].sent <= last.chans[c].sent && ws[0].chans[c].recvd <= last.chans[c].recvd
  {
    AlwaysInv(ws, es);
    if es != [] {
      var n := |es| - 1;
      assert IsRun(ws[..n + 1], es[..n]);
      RunFifo(ws[..n + 1], es[..n], c);
      assert Step(ws[n], es[n], ws[n + 1]);
      StepGrows(ws[n], es[n], c);
    }
    assert Fifo(ws[|es|].chans[c]);
  }

  /** A channel created with room for n elements never holds more, and a sender waits on it
      only when it holds n, a receiver only when it holds none. */
  lemma CapacityExact(ws: seq<World>, es: seq<Event>, i: nat, j: nat, n: nat)
    requires IsRun(ws, es) && Inv(ws[0]) && i < j <= |es| && es[i] == Create(n)
    ensures |ws[i].chans| < |ws[j].chans|
    ensures var ch := ws[j].chans[|ws[i].chans|];
      && 0 <= |ch.sent| - |ch.recvd| <= n
      && (0 < n && ch.asend != [] ==> |ch.sent| - |ch.recvd| == n)
      && (0 < n && ch.arecv != [] ==> |ch.sent| == |ch.recvd|)
  {
    RunStep(ws, es, i);
    AlwaysInv(ws, es);
    SizeStays(ws, es, i + 1, j, |ws[i].chans|);
    var ch := ws[j].chans[|ws[i].chans|];
    assert Fifo(ch) && NoMissed(ch);
    assert |Contents(ch)| == ch.nbuf;
  }

  lemma {:induction false} SizeStays(ws: seq<World>, es: seq<Event>, i: nat, j: nat, c: nat)
    requires IsRun(ws, es) && Inv(ws[0]) && i <= j <= |es| && c < |ws[i].chans|
    ensures c < |ws[j].chans| && ws[j].chans[c].bufsize == ws[i].chans[c].bufsize
    decreases j
  {
    if i < j {
      SizeStays(ws, es, i, j - 1, c);
      RunStep(ws, es, j - 1);
      StepGrows(ws[j - 1], es[j - 1], c);
    }
  }

  /** Between scheduler steps, in every reachable state: on a buffered channel a
      sender waits only when the buffer is full and a receiver only when it is
      empty; on an unbuffered one a waiting sender and a waiting receiver can only
      belong to one and the same call. */
  lemma NoMissedRendezvous(ws: seq<World>, es: seq<Event>, i: nat, c: nat)
    requires IsRun(ws, es) && ws[0] == START && i < |ws| && c < |ws[i].chans|
    ensures var ch := ws[i].chans[c];
      && (0 < ch.bufsize && ch.asend != [] ==> ch.nbuf == ch.bufsize)
      && (0 < ch.bufsize && ch.arecv != [] ==> ch.nbuf == 0)
      && (0 < ch.bufsize ==> ch.asend == [] || ch.arecv == [])
      && (ch.bufsize == 0 ==> forall s, r :: s in ch.asend && r in ch.arecv ==> s.task == r.task)
      && ch.nbuf <= ch.bufsize && (ch.off < ch.bufsize || ch.off == 0)
  {
    AlwaysInv(ws, es);
    assert Fifo(ws[i].chans[c]) && NoMissed(ws[i].chans[c]);
  }

  /** A channel on which alternative 0 of task 0 waits to send, and one on which
      alternative 1 waits to receive as well. */
  ghost function OneQueued(): Chan {
    NewChan(0).(asend := [AltRef(0, 0)])
  }

  ghost function BothQueued(): Chan {
    OneQueued().(arecv := [AltRef(0, 1)])
  }

  lemma BothEnqueued(alts: seq<Alt>)
    requires alts == [Alt(0, None, Snd), Alt(0, None, Rcv)]
    ensures Listed([NewChan(0)], alts) && EnqueueAll([NewChan(0)], 0, alts, 0) == [BothQueued()]
  {
    var nil, one, two := NewChan(0), OneQueued(), BothQueued();
    assert Enqueue(nil, Snd, AltRef(0, 0)) == one by { assert [] + [AltRef(0, 0)] == [AltRef(0, 0)]; }
    assert Enqueue(one, Rcv, AltRef(0, 1)) == two by { assert [] + [AltRef(0, 1)] == [AltRef(0, 1)]; }
    EnqueueAllStep([nil], 0, alts, 0);
    assert [nil][0 := one] == [one];
    EnqueueAllStep([one], 0, alts, 1);
    assert [one][0 := two] == [two];
  }

  lemma NothingReady(alts: seq<Alt>)
    requires alts == [Alt(0, None, Snd), Alt(0, None, Rcv)]
    ensures Listed([NewChan(0)], alts) && Ready([NewChan(0)], alts, 0) == []
  {
    assert !CanExec([NewChan(0)], alts[0]) && !CanExec([NewChan(0)], alts[1]);
    assert Ready([NewChan(0)], alts, 2) == [];
    ReadyStep([NewChan(0)], alts, 1);
    ReadyStep([NewChan(0)], alts, 0);
  }

  lemma BothQueue(w: World, alts: seq<Alt>)
    requires Inv(w) && w.chans == [NewChan(0)] && w.blocked == map[]
    requires alts == [Alt(0, None, Snd), Alt(0, None, Rcv)]
    ensures ChanAlt(w, 0, alts, true, 0, 0).w.chans == [BothQueued()]
  {
    NothingReady(alts);
    BothEnqueued(alts);
  }

  lemma AfterCreate() returns (w: World)
    ensures Inv(START) && w == Apply(START, Create(0)) && Inv(w) && w.chans == [NewChan(0)] && w.blocked == map[]
  {
    w := Apply(START, Create(0));
    ApplyKeepsInv(START, Create(0));
  }

  /** And one call it can be: a task that offers to send and to receive on one channel. */
  lemma OneCallQueuesBoth() returns (ws: seq<World>, es: seq<Event>)
    ensures IsRun(ws, es) && ws[0] == START
    ensures ws[|es|].chans == [BothQueued()]
    ensures BothQueued().bufsize == 0 && BothQueued().asend == [AltRef(0, 0)] && BothQueued().arecv == [AltRef(0, 1)]
  {
    var alts := [Alt(0, None, Snd), Alt(0, None, Rcv)];
    var create, call := Create(0), Call(0, alts, true, 0, 0);
    var w := AfterCreate();
    BothQueue(w, alts);
    es := [create, call];
    ws := [START, w, Apply(w, call)];
  }
}
