/** Channels and alternation as functions on values: what one call of chanalt
    does to the channels, to the callers already blocked on them, and to memory. */
module ChannelSpec {
  import opened Base

  type Elem = int

  /** End and NoBlk only terminate an alternative list. */
  datatype Op = End | Snd | Rcv | Nop | NoBlk

  /** One alternative: the channel, the data pointer (None is NULL) and the operation. */
  datatype Alt = Alt(c: nat, v: Option<nat>, op: Op)

  /** A pointer to alternative i of the list with which task is blocked. */
  datatype AltRef = AltRef(task: TaskId, i: nat)

  /** A channel. sent and recvd are histories: every element whose send, or whose
      receive, has been committed so far. */
  datatype Chan = Chan(
    bufsize: nat, buf: seq<Elem>, nbuf: nat, off: nat,
    asend: seq<AltRef>, arecv: seq<AltRef>,
    sent: seq<Elem>, recvd: seq<Elem>)

  /** All channels, the alternative list of each blocked caller, the index each
      woken caller will return, and memory. */
  datatype World = World(
    chans: seq<Chan>, blocked: map<TaskId, seq<Alt>>, chosen: map<TaskId, nat>, mem: map<nat, Elem>)

  // ----- memory

  function Load(mem: map<nat, Elem>, v: Option<nat>): Elem {
    if v.Some? && v.value in mem then mem[v.value] else 0
  }

  function Store(mem: map<nat, Elem>, v: Option<nat>, x: Elem): map<nat, Elem> {
    if v.Some? then mem[v.value := x] else mem
  }

  // ----- one channel

  ghost function Waiters(ch: Chan, op: Op): seq<AltRef> {
    match op
    case Snd => ch.asend
    case Rcv => ch.arecv
    case _ => []
  }

  /** Is alternative r queued on the channel, as a sender or as a receiver? */
  ghost predicate Queued(ch: Chan, op: Op, r: AltRef) {
    (op == Snd && r in ch.asend) || (op == Rcv && r in ch.arecv)
  }

  ghost function SetWaiters(ch: Chan, op: Op, q: seq<AltRef>): Chan {
    match op
    case Snd => ch.(asend := q)
    case Rcv => ch.(arecv := q)
    case _ => ch
  }

  function Other(op: Op): Op {
    match op
    case Snd => Rcv
    case Rcv => Snd
    case o => o
  }

  ghost predicate RingOK(ch: Chan) {
    && |ch.buf| == ch.bufsize
    && ch.nbuf <= ch.bufsize
    && (if ch.bufsize == 0 then ch.off == 0 else ch.off < ch.bufsize)
  }

  /** The buffered elements, oldest first. */
  ghost function Contents(ch: Chan): seq<Elem>
    requires RingOK(ch)
  {
    if ch.off + ch.nbuf <= ch.bufsize then ch.buf[ch.off..ch.off + ch.nbuf]
    else ch.buf[ch.off..] + ch.buf[..ch.off + ch.nbuf - ch.bufsize]
  }

  /** First in, first out, and nothing lost or invented. */
  ghost predicate Fifo(ch: Chan) {
    RingOK(ch) && ch.sent == ch.recvd + Contents(ch)
  }

  ghost function Put(ch: Chan, x: Elem): Chan
    requires RingOK(ch) && ch.nbuf < ch.bufsize
  {
    ch.(buf := ch.buf[(ch.off + ch.nbuf) % ch.bufsize := x], nbuf := ch.nbuf + 1, sent := ch.sent + [x])
  }

  ghost function Take(ch: Chan): Chan
    requires RingOK(ch) && 0 < ch.nbuf
  {
    ch.(nbuf := ch.nbuf - 1,
        off := if ch.off + 1 == ch.bufsize then 0 else ch.off + 1,
        recvd := ch.recvd + [ch.buf[ch.off]])
  }

  lemma Wraps(i: nat, n: nat)
    requires i < 2 * n
    ensures i % n == if i < n then i else i - n
  {}

  lemma PutKeepsFifo(ch: Chan, x: Elem)
    requires Fifo(ch) && ch.nbuf < ch.bufsize
    ensures Fifo(Put(ch, x)) && Contents(Put(ch, x)) == Contents(ch) + [x]
  {
    var pos := if ch.off + ch.nbuf < ch.bufsize then ch.off + ch.nbuf else ch.off + ch.nbuf - ch.bufsize;
    Wraps(ch.off + ch.nbuf, ch.bufsize);
    var ch1 := ch.(buf := ch.buf[pos := x], nbuf := ch.nbuf + 1);
    PutAt(ch, ch1.buf, x);
    assert Put(ch, x) == ch1.(sent := ch.sent + [x]);
    Regroup(ch.recvd, Contents(ch), [x]);
  }

  lemma PutAt(ch: Chan, buf: seq<Elem>, x: Elem)
    requires RingOK(ch) && ch.nbuf < ch.bufsize
    requires ch.off + ch.nbuf < ch.bufsize ==> buf == ch.buf[ch.off + ch.nbuf := x]
    requires ch.off + ch.nbuf >= ch.bufsize ==> buf == ch.buf[ch.off + ch.nbuf - ch.bufsize := x]
    ensures Contents(ch.(buf := buf, nbuf := ch.nbuf + 1)) == Contents(ch) + [x]
  {
    var pos := ch.off + ch.nbuf;
    if pos < ch.bufsize {
      assert buf[ch.off..pos + 1] == ch.buf[ch.off..pos] + [x];
      if pos + 1 == ch.bufsize { assert buf[ch.off..] + buf[..0] == buf[ch.off..pos + 1]; }
    } else {
      assert buf[ch.off..] == ch.buf[ch.off..];
      assert buf[..pos - ch.bufsize + 1] == ch.buf[..pos - ch.bufsize] + [x];
    }
  }

  lemma TakeContents(ch: Chan, ch': Chan)
    requires RingOK(ch) && 0 < ch.nbuf && ch'.nbuf == ch.nbuf - 1 && ch'.buf == ch.buf && ch'.bufsize == ch.bufsize
    requires ch'.off == if ch.off + 1 == ch.bufsize then 0 else ch.off + 1
    ensures RingOK(ch') && Contents(ch) == [ch.buf[ch.off]] + Contents(ch')
  {
    var end := ch.off + ch.nbuf;
    if end <= ch.bufsize {
      assert Contents(ch') == ch.buf[ch.off + 1..end];
    } else {
      assert ch.buf[ch.off..] == [ch.buf[ch.off]] + ch.buf[ch.off + 1..];
      assert Contents(ch') == ch.buf[ch.off + 1..] + ch.buf[..end - ch.bufsize];
    }
  }

  lemma TakeKeepsFifo(ch: Chan)
    requires Fifo(ch) && 0 < ch.nbuf
    ensures Fifo(Take(ch)) && Contents(ch) == [ch.buf[ch.off]] + Contents(Take(ch))
  {
    var ch', x := Take(ch), ch.buf[ch.off];
    TakeContents(ch, ch');
    Regroup(ch.recvd, [x], Contents(ch'));
  }

  /** When altcopy can move data between sender s, channel and receiver r. */
  ghost predicate CanCopy(ch: Chan, s: Option<Alt>, r: Option<Alt>) {
    || (s.Some? && r.Some? && ch.nbuf == 0)
    || ((r.Some? ==> 0 < ch.nbuf) && (s.Some? ==> r.Some? || ch.nbuf < ch.bufsize))
  }

  /** altcopy, roles already sorted out: hand over directly when the buffer is
      empty, otherwise receive and then send. */
  ghost function Copy(ch: Chan, mem: map<nat, Elem>, s: Option<Alt>, r: Option<Alt>): (Chan, map<nat, Elem>)
    requires RingOK(ch) && CanCopy(ch, s, r)
  {
    if s.Some? && r.Some? && ch.nbuf == 0 then
      var x := Load(mem, s.value.v);
      (ch.(sent := ch.sent + [x], recvd := ch.recvd + [x]), Store(mem, r.value.v, x))
    else
      var mem1 := if r.Some? then Store(mem, r.value.v, ch.buf[ch.off]) else mem;
      var ch1 := if r.Some? then Take(ch) else ch;
      (if s.Some? then Put(ch1, Load(mem1, s.value.v)) else ch1, mem1)
  }

  /** Everything altcopy promises of one channel. */
  lemma CopyKeepsFifo(ch: Chan, mem: map<nat, Elem>, s: Option<Alt>, r: Option<Alt>)
    requires Fifo(ch) && CanCopy(ch, s, r)
    ensures var ch' := Copy(ch, mem, s, r).0;
      && Fifo(ch') && ch'.bufsize == ch.bufsize && ch'.asend == ch.asend && ch'.arecv == ch.arecv
      && ch'.nbuf == ch.nbuf + (if s.Some? then 1 else 0) - (if r.Some? then 1 else 0)
      && |ch'.sent| == |ch.sent| + (if s.Some? then 1 else 0) && ch.sent <= ch'.sent
      && |ch'.recvd| == |ch.recvd| + (if r.Some? then 1 else 0) && ch.recvd <= ch'.recvd
  {
    if s.Some? && r.Some? && ch.nbuf == 0 {
    } else {
      var mem1 := if r.Some? then Store(mem, r.value.v, ch.buf[ch.off]) else mem;
      var ch1 := if r.Some? then Take(ch) else ch;
      if r.Some? { TakeKeepsFifo(ch); }
      if s.Some? { PutKeepsFifo(ch1, Load(mem1, s.value.v)); }
    }
  }

  // ----- queues of blocked alternatives

  /** altdequeue; without effect where the program would abort. */
  ghost function Dequeue(ch: Chan, op: Op, r: AltRef): Chan {
    var q := Waiters(ch, op);
    if r in q then SetWaiters(ch, op, SwapRemove(q, IndexOf(q, r))) else ch
  }

  ghost function Enqueue(ch: Chan, op: Op, r: AltRef): Chan {
    SetWaiters(ch, op, Waiters(ch, op) + [r])
  }

  ghost predicate Listed(chans: seq<Chan>, alts: seq<Alt>) {
    forall a :: a in alts ==> (a.op == Nop || ((a.op == Snd || a.op == Rcv) && a.c < |chans|))
  }

  /** altalldequeue from alternative i on. */
  ghost function DequeueAll(chans: seq<Chan>, t: TaskId, alts: seq<Alt>, i: nat): (chans': seq<Chan>)
    requires Listed(chans, alts) && i <= |alts|
    ensures |chans'| == |chans|
    decreases |alts| - i
  {
    if i == |alts| then chans
    else if alts[i].op == Nop then DequeueAll(chans, t, alts, i + 1)
    else
      var c := alts[i].c;
      DequeueAll(chans[c := Dequeue(chans[c], alts[i].op, AltRef(t, i))], t, alts, i + 1)
  }

  /** The queueing loop of chanalt from alternative i on. */
  ghost function EnqueueAll(chans: seq<Chan>, t: TaskId, alts: seq<Alt>, i: nat): (chans': seq<Chan>)
    requires Listed(chans, alts) && i <= |alts|
    ensures |chans'| == |chans|
    decreases |alts| - i
  {
    if i == |alts| then chans
    else if alts[i].op == Nop then EnqueueAll(chans, t, alts, i + 1)
    else
      var c := alts[i].c;
      EnqueueAll(chans[c := Enqueue(chans[c], alts[i].op, AltRef(t, i))], t, alts, i + 1)
  }

  lemma EnqueueAllStep(chans: seq<Chan>, t: TaskId, alts: seq<Alt>, i: nat)
    requires Listed(chans, alts) && i < |alts|
    ensures alts[i].op == Nop || ((alts[i].op == Snd || alts[i].op == Rcv) && alts[i].c < |chans|)
    ensures EnqueueAll(chans, t, alts, i) ==
      if alts[i].op == Nop then EnqueueAll(chans, t, alts, i + 1)
      else EnqueueAll(chans[alts[i].c := Enqueue(chans[alts[i].c], alts[i].op, AltRef(t, i))], t, alts, i + 1)
  {
    assert alts[i] in alts;
  }

  // ----- one call of chanalt

  ghost predicate CanExec(chans: seq<Chan>, a: Alt)
    requires Listed(chans, [a])
  {
    assert a in [a];
    a.op != Nop &&
    var ch := chans[a.c];
    if ch.bufsize == 0 then Waiters(ch, Other(a.op)) != []
    else if a.op == Snd then ch.nbuf < ch.bufsize
    else 0 < ch.nbuf
  }

  /** Does reference r stand for a blocked alternative with this operation on channel c? */
  ghost predicate Refers(w: World, r: AltRef, c: nat, op: Op) {
    && r.task in w.blocked
    && r.i < |w.blocked[r.task]|
    && w.blocked[r.task][r.i].op == op
    && w.blocked[r.task][r.i].c == c
  }

  /** Channel queues and blocked callers mirror each other exactly. */
  ghost predicate QueuesExact(w: World) {
    && (forall c :: 0 <= c < |w.chans| ==> NoDup(w.chans[c].asend) && NoDup(w.chans[c].arecv))
    && (forall c, op: Op, r :: 0 <= c < |w.chans| && Queued(w.chans[c], op, r) ==> Refers(w, r, c, op))
    && (forall t :: t in w.blocked ==> Listed(w.chans, w.blocked[t]))
    && (forall t, i :: t in w.blocked && 0 <= i < |w.blocked[t]| && w.blocked[t][i].op != Nop ==>
          Queued(w.chans[w.blocked[t][i].c], w.blocked[t][i].op, AltRef(t, i)))
  }

  /** Nobody waits on this channel for something that is already there. */
  ghost predicate NoMissed(ch: Chan) {
    if ch.bufsize == 0 then
      forall s, r :: s in ch.asend && r in ch.arecv ==> s.task == r.task
    else
      && (ch.asend != [] ==> ch.nbuf == ch.bufsize)
      && (ch.arecv != [] ==> ch.nbuf == 0)
  }

  ghost predicate Inv(w: World) {
    && QueuesExact(w)
    && (forall c :: 0 <= c < |w.chans| ==> Fifo(w.chans[c]) && NoMissed(w.chans[c]))
  }

  function SenderOf(a: Alt, o: Option<Alt>): Option<Alt> {
    if a.op == Rcv then o else Some(a)
  }

  function ReceiverOf(a: Alt, o: Option<Alt>): Option<Alt> {
    if a.op == Rcv then Some(a) else o
  }

  /** The waiter, if any, that altexec pairs with alternative a, given the result k of rand(). */
  ghost function Partner(chans: seq<Chan>, a: Alt, k: nat): (o: Option<AltRef>)
    requires Listed(chans, [a]) && CanExec(chans, a)
    ensures o.Some? ==> o.value in Waiters(chans[a.c], Other(a.op))
    ensures o.None? <==> Waiters(chans[a.c], Other(a.op)) == []
  {
    var q := Waiters(chans[a.c], Other(a.op));
    if q == [] then None else Some(q[k % |q|])
  }

  ghost function PartnerAlt(w: World, o: Option<AltRef>): Option<Alt>
    requires o.Some? ==> o.value.task in w.blocked && o.value.i < |w.blocked[o.value.task]|
  {
    if o.Some? then Some(w.blocked[o.value.task][o.value.i]) else None
  }

  lemma ExecCanCopy(w: World, a: Alt, k: nat)
    requires Inv(w) && Listed(w.chans, [a]) && CanExec(w.chans, a)
    ensures var o := Partner(w.chans, a, k);
      && (o.Some? ==> Refers(w, o.value, a.c, Other(a.op)))
      && CanCopy(w.chans[a.c], SenderOf(a, PartnerAlt(w, o)), ReceiverOf(a, PartnerAlt(w, o)))
  {
    assert a in [a];
    var o := Partner(w.chans, a, k);
    if o.Some? { assert Refers(w, o.value, a.c, Other(a.op)); }
    assert NoMissed(w.chans[a.c]) && Fifo(w.chans[a.c]);
  }

  /** altexec: move the data; if a waiter took part, take it off every queue,
      record which of its alternatives was executed, and wake it. */
  ghost function Exec(w: World, a: Alt, k: nat): (r: (World, Option<TaskId>))
    requires Inv(w) && Listed(w.chans, [a]) && CanExec(w.chans, a)
  {
    assert a in [a];
    ExecCanCopy(w, a, k);
    var o := Partner(w.chans, a, k);
    var (ch, mem) := Copy(w.chans[a.c], w.mem, SenderOf(a, PartnerAlt(w, o)), ReceiverOf(a, PartnerAlt(w, o)));
    var chans := w.chans[a.c := ch];
    if o.None? then (w.(chans := chans, mem := mem), None)
    else
      var u := o.value.task;
      assert Listed(chans, w.blocked[u]);
      (World(DequeueAll(chans, u, w.blocked[u], 0), w.blocked - {u}, w.chosen[u := o.value.i], mem), Some(u))
  }

  /** The positions, from i on, of the alternatives that can be executed now. */
  ghost function Ready(chans: seq<Chan>, alts: seq<Alt>, i: nat): (s: seq<nat>)
    requires Listed(chans, alts) && i <= |alts|
    ensures forall x :: x in s <==> i <= x < |alts| && CanExec(chans, alts[x])
    decreases |alts| - i
  {
    if i == |alts| then []
    else (if CanExec(chans, alts[i]) then [i] else []) + Ready(chans, alts, i + 1)
  }

  lemma ReadyStep(chans: seq<Chan>, alts: seq<Alt>, i: nat)
    requires Listed(chans, alts) && i < |alts|
    ensures Ready(chans, alts, i) == (if CanExec(chans, alts[i]) then [i] else []) + Ready(chans, alts, i + 1)
  {
  }

  datatype Outcome = Done(i: nat) | Refused | Parked

  datatype AltResult = AltResult(w: World, out: Outcome, woken: Option<TaskId>)

  /** chanalt up to its return or its task switch; j and k are the two results of rand(). */
  ghost function ChanAlt(w: World, t: TaskId, alts: seq<Alt>, canblock: bool, j: nat, k: nat): (r: AltResult)
    requires Inv(w) && Listed(w.chans, alts)
  {
    var ready := Ready(w.chans, alts, 0);
    if ready != [] then
      var i := ready[j % |ready|];
      assert i in ready;
      var (w', u) := Exec(w, alts[i], k);
      AltResult(w', Done(i), u)
    else if !canblock then AltResult(w, Refused, None)
    else AltResult(
      w.(chans := EnqueueAll(w.chans, t, alts, 0), blocked := w.blocked[t := alts], chosen := w.chosen - {t}),
      Parked, None)
  }

  // ----- what one call keeps

  /** r points to one of t's alternatives from i on, which has this operation on channel c. */
  ghost predicate Points(r: AltRef, t: TaskId, alts: seq<Alt>, i: nat, c: nat, op: Op) {
    op != Nop && r.task == t && i <= r.i < |alts| && alts[r.i].op == op && alts[r.i].c == c
  }

  /** The same channel but for its queues. */
  ghost predicate SameData(x: Chan, y: Chan) {
    x == y.(asend := x.asend, arecv := x.arecv)
  }

  ghost predicate QueuesNoDup(chans: seq<Chan>) {
    forall c :: 0 <= c < |chans| ==> NoDup(chans[c].asend) && NoDup(chans[c].arecv)
  }

  ghost predicate SameDataAll(chans': seq<Chan>, chans: seq<Chan>) {
    |chans'| == |chans| && forall c :: 0 <= c < |chans| ==> SameData(chans'[c], chans[c])
  }

  lemma DequeueEffect(ch: Chan, op0: Op, r0: AltRef)
    requires op0 == Snd || op0 == Rcv
    requires NoDup(ch.asend) && NoDup(ch.arecv)
    ensures var ch' := Dequeue(ch, op0, r0);
      && SameData(ch', ch)
      && NoDup(ch'.asend) && NoDup(ch'.arecv)
      && (forall op: Op, r :: Queued(ch', op, r) <==> Queued(ch, op, r) && !(op == op0 && r == r0))
  {
    var q := Waiters(ch, op0);
    if r0 in q { SwapRemoveMembers(q, IndexOf(q, r0)); }
  }

  lemma {:induction false} DequeueAllEffect(chans: seq<Chan>, t: TaskId, alts: seq<Alt>, i: nat)
    requires Listed(chans, alts) && i <= |alts| && QueuesNoDup(chans)
    ensures var chans' := DequeueAll(chans, t, alts, i);
      && SameDataAll(chans', chans) && QueuesNoDup(chans')
      && forall c, op: Op, r :: 0 <= c < |chans| ==>
           (Queued(chans'[c], op, r) <==> Queued(chans[c], op, r) && !Points(r, t, alts, i, c, op))
    decreases |alts| - i
  {
    if i == |alts| {
    } else if alts[i].op == Nop {
      DequeueAllEffect(chans, t, alts, i + 1);
    } else {
      assert alts[i] in alts;
      var c0, op0, r0 := alts[i].c, alts[i].op, AltRef(t, i);
      var mid := chans[c0 := Dequeue(chans[c0], op0, r0)];
      DequeueEffect(chans[c0], op0, r0);
      DequeueAllEffect(mid, t, alts, i + 1);
    }
  }

  lemma EnqueueEffect(ch: Chan, op0: Op, r0: AltRef)
    requires (op0 == Snd || op0 == Rcv) && !Queued(ch, op0, r0)
    requires NoDup(ch.asend) && NoDup(ch.arecv)
    ensures var ch' := Enqueue(ch, op0, r0);
      && SameData(ch', ch)
      && NoDup(ch'.asend) && NoDup(ch'.arecv)
      && (forall op: Op, r :: Queued(ch', op, r) <==> Queued(ch, op, r) || (op == op0 && r == r0))
  {
  }

  lemma EnqueueOneEffect(chans: seq<Chan>, c0: nat, op0: Op, r0: AltRef)
    requires c0 < |chans| && (op0 == Snd || op0 == Rcv) && QueuesNoDup(chans) && !Queued(chans[c0], op0, r0)
    ensures var mid := chans[c0 := Enqueue(chans[c0], op0, r0)];
      && SameDataAll(mid, chans) && QueuesNoDup(mid)
      && forall c, op: Op, r :: 0 <= c < |chans| ==>
           (Queued(mid[c], op, r) <==> Queued(chans[c], op, r) || (c == c0 && op == op0 && r == r0))
  {
    EnqueueEffect(chans[c0], op0, r0);
  }

  lemma {:induction false} EnqueueAllEffect(chans: seq<Chan>, t: TaskId, alts: seq<Alt>, i: nat)
    requires Listed(chans, alts) && i <= |alts| && QueuesNoDup(chans)
    requires forall c, op: Op, r :: 0 <= c < |chans| && Queued(chans[c], op, r) ==> r.task != t || r.i < i
    ensures var chans' := EnqueueAll(chans, t, alts, i);
      && SameDataAll(chans', chans) && QueuesNoDup(chans')
      && forall c, op: Op, r :: 0 <= c < |chans| ==>
           (Queued(chans'[c], op, r) <==> Queued(chans[c], op, r) || Points(r, t, alts, i, c, op))
    decreases |alts| - i
  {
    if i == |alts| {
    } else if alts[i].op == Nop {
      EnqueueAllEffect(chans, t, alts, i + 1);
    } else {
      assert alts[i] in alts;
      var c0, op0, r0 := alts[i].c, alts[i].op, AltRef(t, i);
      var mid := chans[c0 := Enqueue(chans[c0], op0, r0)];
      assert !Queued(chans[c0], op0, r0);
      EnqueueOneEffect(chans, c0, op0, r0);
      EnqueueAllEffect(mid, t, alts, i + 1);
      forall c, op: Op, r | 0 <= c < |chans|
        ensures Points(r, t, alts, i, c, op) <==> Points(r, t, alts, i + 1, c, op) || (c == c0 && op == op0 && r == r0)
      {}
    }
  }

  /** w' differs from w by an exchange on channel c, which became ch (queues aside),
      and by every alternative of the partner o having left its queue. */
  ghost predicate Exchanged(w: World, w': World, c: nat, ch: Chan, o: Option<AltRef>) {
    && c < |w.chans| == |w'.chans|
    && SameData(w'.chans[c], ch)
    && (forall d :: 0 <= d < |w.chans| && d != c ==> SameData(w'.chans[d], w.chans[d]))
    && QueuesNoDup(w'.chans)
    && w'.blocked == (if o.Some? then w.blocked - {o.value.task} else w.blocked)
    && (forall d, op: Op, r :: 0 <= d < |w.chans| && Queued(w'.chans[d], op, r) ==>
          Queued(w.chans[d], op, r) && !(o.Some? && r.task == o.value.task))
    && (forall d, op: Op, r :: 0 <= d < |w.chans| && Queued(w.chans[d], op, r) ==>
          Queued(w'.chans[d], op, r) || (o.Some? && r.task == o.value.task))
  }

  lemma ExecEffect(w: World, a: Alt, k: nat) returns (o: Option<AltRef>, s: Option<Alt>, r: Option<Alt>)
    requires Inv(w) && Listed(w.chans, [a]) && CanExec(w.chans, a)
    ensures a in [a] && o == Partner(w.chans, a, k)
    ensures o.Some? ==> Refers(w, o.value, a.c, Other(a.op))
    ensures s == SenderOf(a, PartnerAlt(w, o)) && r == ReceiverOf(a, PartnerAlt(w, o))
    ensures CanCopy(w.chans[a.c], s, r)
    ensures Exchanged(w, Exec(w, a, k).0, a.c, Copy(w.chans[a.c], w.mem, s, r).0, o)
    ensures Exec(w, a, k).1 == (if o.Some? then Some(o.value.task) else None)
    ensures Exec(w, a, k).0.chosen == (if o.Some? then w.chosen[o.value.task := o.value.i] else w.chosen)
    ensures Exec(w, a, k).0.mem == Copy(w.chans[a.c], w.mem, s, r).1
  {
    assert a in [a];
    ExecCanCopy(w, a, k);
    o := Partner(w.chans, a, k);
    s, r := SenderOf(a, PartnerAlt(w, o)), ReceiverOf(a, PartnerAlt(w, o));
    CopyKeepsFifo(w.chans[a.c], w.mem, s, r);
    if o.Some? {
      PartnerLeaves(w, w.chans[a.c := Copy(w.chans[a.c], w.mem, s, r).0], o.value.task);
    }
    ExchangeEffect(w, Exec(w, a, k).0, a.c, Copy(w.chans[a.c], w.mem, s, r).0, o);
  }

  lemma ExchangeEffect(w: World, w': World, c: nat, ch: Chan, o: Option<AltRef>)
    requires c < |w.chans| && QueuesNoDup(w.chans)
    requires ch.asend == w.chans[c].asend && ch.arecv == w.chans[c].arecv
    requires w'.blocked == (if o.Some? then w.blocked - {o.value.task} else w.blocked)
    requires if o.None? then w'.chans == w.chans[c := ch]
      else Departed(w.chans, w.chans[c := ch], w'.chans, o.value.task)
    ensures Exchanged(w, w', c, ch, o)
  {
    var chans := w.chans[c := ch];
    if o.None? {
      assert SameData(ch, ch);
    } else {
      assert SameData(w'.chans[c], chans[c]);
    }
  }

  /** chans' is chans with every alternative of u off its queue; before had the same queues as chans. */
  ghost predicate Departed(before: seq<Chan>, chans: seq<Chan>, chans': seq<Chan>, u: TaskId) {
    && |chans| == |before|
    && SameDataAll(chans', chans) && QueuesNoDup(chans')
    && (forall d, op: Op, r :: 0 <= d < |chans| && Queued(chans'[d], op, r) ==> Queued(before[d], op, r) && r.task != u)
    && (forall d, op: Op, r :: 0 <= d < |chans| && Queued(before[d], op, r) && r.task != u ==> Queued(chans'[d], op, r))
  }

  /** altalldequeue takes the woken task off every queue, and nobody else. */
  lemma PartnerLeaves(w: World, chans: seq<Chan>, u: TaskId)
    requires QueuesExact(w) && u in w.blocked && |chans| == |w.chans|
    requires forall c :: 0 <= c < |chans| ==> chans[c].asend == w.chans[c].asend && chans[c].arecv == w.chans[c].arecv
    ensures Listed(chans, w.blocked[u])
    ensures Departed(w.chans, chans, DequeueAll(chans, u, w.blocked[u], 0), u)
  {
    var alts := w.blocked[u];
    assert Listed(w.chans, alts);
    DequeueAllEffect(chans, u, alts, 0);
    AllPointersOf(w, u);
    forall d, op: Op, r | 0 <= d < |chans| ensures Queued(chans[d], op, r) == Queued(w.chans[d], op, r) {}
  }

  lemma AllPointersOf(w: World, u: TaskId)
    requires QueuesExact(w) && u in w.blocked
    ensures forall c, op: Op, r :: 0 <= c < |w.chans| && Queued(w.chans[c], op, r) ==>
      (r.task == u <==> Points(r, u, w.blocked[u], 0, c, op))
  {
    forall c, op: Op, r | 0 <= c < |w.chans| && Queued(w.chans[c], op, r) && r.task == u
      ensures Points(r, u, w.blocked[u], 0, c, op)
    {
      assert Refers(w, r, c, op);
    }
  }

  lemma ExchangeKeepsQueues(w: World, w': World, c: nat, ch: Chan, o: Option<AltRef>)
    requires QueuesExact(w) && Exchanged(w, w', c, ch, o)
    ensures QueuesExact(w')
  {
    forall d, op: Op, r | 0 <= d < |w'.chans| && Queued(w'.chans[d], op, r) ensures Refers(w', r, d, op) {
      assert Refers(w, r, d, op);
    }
    forall t | t in w'.blocked ensures Listed(w'.chans, w'.blocked[t]) {
      assert Listed(w.chans, w.blocked[t]);
    }
    forall t, i | t in w'.blocked && 0 <= i < |w'.blocked[t]| && w'.blocked[t][i].op != Nop
      ensures Queued(w'.chans[w'.blocked[t][i].c], w'.blocked[t][i].op, AltRef(t, i))
    {
      assert w.blocked[t][i] in w.blocked[t] && Listed(w.chans, w.blocked[t]);
      assert Queued(w.chans[w.blocked[t][i].c], w.blocked[t][i].op, AltRef(t, i));
    }
  }

  /** Fewer waiters and the same data leave nothing to be missed. */
  lemma FewerWaiters(ch: Chan, ch': Chan)
    requires Fifo(ch) && NoMissed(ch) && SameData(ch', ch)
    requires forall op: Op, r :: Queued(ch', op, r) ==> Queued(ch, op, r)
    ensures Fifo(ch') && NoMissed(ch')
  {
    assert forall r :: r in ch'.asend ==> Queued(ch', Snd, r) && Queued(ch, Snd, r);
    assert forall r :: r in ch'.arecv ==> Queued(ch', Rcv, r) && Queued(ch, Rcv, r);
    if ch'.asend != [] { assert ch'.asend[0] in ch'.asend; }
    if ch'.arecv != [] { assert ch'.arecv[0] in ch'.arecv; }
  }

  /** After the exchange on it, nobody waits on the channel for what is already there. */
  lemma CopyKeepsNoMissed(w: World, a: Alt, k: nat, o: Option<AltRef>, s: Option<Alt>, r: Option<Alt>)
    requires Inv(w) && Listed(w.chans, [a]) && CanExec(w.chans, a)
    requires a in [a] && o == Partner(w.chans, a, k)
    requires o.Some? ==> Refers(w, o.value, a.c, Other(a.op))
    requires s == SenderOf(a, PartnerAlt(w, o)) && r == ReceiverOf(a, PartnerAlt(w, o))
    requires CanCopy(w.chans[a.c], s, r)
    ensures Fifo(Copy(w.chans[a.c], w.mem, s, r).0) && NoMissed(Copy(w.chans[a.c], w.mem, s, r).0)
  {
    var ch := w.chans[a.c];
    assert Fifo(ch) && NoMissed(ch);
    CopyKeepsFifo(ch, w.mem, s, r);
  }

  lemma ExecKeepsInv(w: World, a: Alt, k: nat)
    requires Inv(w) && Listed(w.chans, [a]) && CanExec(w.chans, a)
    ensures Inv(Exec(w, a, k).0)
  {
    var w' := Exec(w, a, k).0;
    var o, s, r := ExecEffect(w, a, k);
    var ch := Copy(w.chans[a.c], w.mem, s, r).0;
    ExchangeKeepsQueues(w, w', a.c, ch, o);
    CopyKeepsNoMissed(w, a, k, o, s, r);
    forall c | 0 <= c < |w'.chans| ensures Fifo(w'.chans[c]) && NoMissed(w'.chans[c]) {
      CopyKeepsFifo(w.chans[a.c], w.mem, s, r);
      var before := if c == a.c then ch else w.chans[c];
      assert Fifo(before) && NoMissed(before);
      FewerWaiters(before, w'.chans[c]);
    }
  }

  lemma ParkKeepsInv(w: World, t: TaskId, alts: seq<Alt>)
    requires Inv(w) && Listed(w.chans, alts) && t !in w.blocked && Ready(w.chans, alts, 0) == []
    ensures Inv(ChanAlt(w, t, alts, true, 0, 0).w)
  {
    var w' := ChanAlt(w, t, alts, true, 0, 0).w;
    forall i | 0 <= i < |alts| ensures !CanExec(w.chans, alts[i]) {
      assert i !in Ready(w.chans, alts, 0);
    }
    ParkKeepsQueues(w, w', t, alts);
    forall c | 0 <= c < |w'.chans| ensures Fifo(w'.chans[c]) && NoMissed(w'.chans[c]) {
      ParkKeepsChannel(w, w', t, alts, c);
    }
  }

  lemma ParkKeepsQueues(w: World, w': World, t: TaskId, alts: seq<Alt>)
    requires QueuesExact(w) && Listed(w.chans, alts) && t !in w.blocked
    requires w'.chans == EnqueueAll(w.chans, t, alts, 0) && w'.blocked == w.blocked[t := alts]
    ensures QueuesExact(w') && SameDataAll(w'.chans, w.chans)
    ensures forall c, op: Op, r :: 0 <= c < |w.chans| ==>
      (Queued(w'.chans[c], op, r) <==> Queued(w.chans[c], op, r) || Points(r, t, alts, 0, c, op))
  {
    forall c, op: Op, r | 0 <= c < |w.chans| && Queued(w.chans[c], op, r)
      ensures r.task != t && Refers(w', r, c, op)
    {
      assert Refers(w, r, c, op);
    }
    EnqueueAllEffect(w.chans, t, alts, 0);
    forall u | u in w'.blocked ensures Listed(w'.chans, w'.blocked[u]) {
      assert u != t ==> Listed(w.chans, w.blocked[u]);
    }
    forall u, i | u in w'.blocked && 0 <= i < |w'.blocked[u]| && w'.blocked[u][i].op != Nop
      ensures Queued(w'.chans[w'.blocked[u][i].c], w'.blocked[u][i].op, AltRef(u, i))
    {
      var x := w'.blocked[u][i];
      assert x in w'.blocked[u] && Listed(w.chans, w'.blocked[u]);
      if u == t { assert Points(AltRef(u, i), t, alts, 0, x.c, x.op); }
    }
  }

  lemma ParkKeepsChannel(w: World, w': World, t: TaskId, alts: seq<Alt>, c: nat)
    requires Inv(w) && Listed(w.chans, alts) && c < |w.chans| == |w'.chans|
    requires forall i :: 0 <= i < |alts| ==> !CanExec(w.chans, alts[i])
    requires SameData(w'.chans[c], w.chans[c])
    requires forall op: Op, r ::
      Queued(w'.chans[c], op, r) <==> Queued(w.chans[c], op, r) || Points(r, t, alts, 0, c, op)
    ensures Fifo(w'.chans[c]) && NoMissed(w'.chans[c])
  {
    var ch, ch' := w.chans[c], w'.chans[c];
    assert Fifo(ch) && NoMissed(ch);
    assert forall r :: r in ch'.asend <==> Queued(ch', Snd, r);
    assert forall r :: r in ch'.arecv <==> Queued(ch', Rcv, r);
    if ch.bufsize == 0 {
      forall s, r | s in ch'.asend && r in ch'.arecv ensures s.task == r.task {
        if Points(s, t, alts, 0, c, Snd) { assert !CanExec(w.chans, alts[s.i]); assert ch.arecv == []; }
        if Points(r, t, alts, 0, c, Rcv) { assert !CanExec(w.chans, alts[r.i]); assert ch.asend == []; }
      }
    } else {
      if ch'.asend != [] {
        var s := ch'.asend[0];
        assert s in ch'.asend;
        if Points(s, t, alts, 0, c, Snd) { assert !CanExec(w.chans, alts[s.i]); }
      }
      if ch'.arecv != [] {
        var r := ch'.arecv[0];
        assert r in ch'.arecv;
        if Points(r, t, alts, 0, c, Rcv) { assert !CanExec(w.chans, alts[r.i]); }
      }
    }
  }

  lemma ChanAltKeepsInv(w: World, t: TaskId, alts: seq<Alt>, canblock: bool, j: nat, k: nat)
    requires Inv(w) && Listed(w.chans, alts) && t !in w.blocked
    ensures Inv(ChanAlt(w, t, alts, canblock, j, k).w)
  {
    var ready := Ready(w.chans, alts, 0);
    if ready != [] {
      var i := ready[j % |ready|];
      assert i in ready;
      ExecKeepsInv(w, alts[i], k);
    } else if canblock {
      ParkKeepsInv(w, t, alts);
    }
  }
}
