/** The queue of sleeping tasks and the fd task of libtask/fd.c (its Linux branch):
    what the insertion, an expiry pass and a poll do, as functions. */
module FdSpec {
  import opened Base
  import TaskLists

  /** A task in the queue of sleeping tasks. */
  datatype Sleeper = Sleeper(t: TaskId, alarm: int)

  /** What taskdelay and the fd task change: the queue of sleeping tasks, the run
      queue, the two counters, and the tasks' udata. */
  datatype Timers = Timers(
    sleeping: seq<Sleeper>, runq: seq<TaskId>, counted: int, taskcount: int, udata: map<TaskId, int>)

  /** What a woken task finds in its udata. */
  const EVENT := 0
  const TIMEOUT := 1989
  const EIO := 5

  ghost function Names(sl: seq<Sleeper>): (r: seq<TaskId>)
    ensures |r| == |sl| && forall i :: 0 <= i < |sl| ==> r[i] == sl[i].t
  {
    if sl == [] then [] else [sl[0].t] + Names(sl[1..])
  }

  ghost function Alarms(sl: seq<Sleeper>): (r: seq<int>)
    ensures |r| == |sl| && forall i :: 0 <= i < |sl| ==> r[i] == sl[i].alarm
  {
    seq(|sl|, i requires 0 <= i < |sl| => sl[i].alarm)
  }

  ghost predicate Sorted(sl: seq<Sleeper>) {
    forall i, j :: 0 <= i < j < |sl| ==> sl[i].alarm <= sl[j].alarm
  }

  // ----- operations

  /** taskcreate of task u. */
  ghost function Create(tm: Timers, u: TaskId): Timers {
    tm.(runq := tm.runq + [u], taskcount := tm.taskcount + 1)
  }

  /** _startfdtask, with u for the task it creates. */
  ghost function Began(tm: Timers, started: bool, u: TaskId): Timers {
    if started then tm else Create(tm, u)
  }

  /** When a task that calls taskdelay is to wake up. */
  function WakeTime(now: int, ms: nat): int {
    now + ms * 1000000
  }

  /** The queueing part of taskdelay. */
  ghost function Delay(tm: Timers, t: TaskId, when: int): Timers {
    tm.(sleeping := InsertedAt(tm.sleeping, TaskLists.InsertAt(Alarms(tm.sleeping), when), Sleeper(t, when)),
        counted := tm.counted + 1,
        taskcount := if tm.counted == 0 then tm.taskcount + 1 else tm.taskcount)
  }

  /** The timeout of the poll, in milliseconds; head is the alarm of the first sleeper. */
  function PollTimeout(head: Option<int>, now: int): int {
    if head.None? || now >= head.value then 0
    else if head.value - now > 20 * 1000 * 1000 then 20
    else (head.value - now) / 1000000
  }

  /** sl without the tasks in gone. */
  ghost function Without(sl: seq<Sleeper>, gone: set<TaskId>): seq<Sleeper> {
    if sl == [] then []
    else if sl[0].t in gone then Without(sl[1..], gone)
    else [sl[0]] + Without(sl[1..], gone)
  }

  ghost function Mark(udata: map<TaskId, int>, ts: seq<TaskId>, v: int): map<TaskId, int> {
    udata + map t | t in ts :: v
  }

  /** The tasks with events leave the queue of sleeping tasks and are made ready; no
      counter changes. */
  ghost function TakeEvents(tm: Timers, es: seq<TaskId>): Timers {
    tm.(sleeping := Without(tm.sleeping, Elems(es)), runq := tm.runq + es, udata := Mark(tm.udata, es, EVENT))
  }

  /** The first n sleepers are told v and made ready, each with a decrement of the
      counter; when it gets to zero, the task that stood for all sleepers is gone. */
  ghost function WakeFirst(tm: Timers, n: nat, v: int): Timers
    requires n <= |tm.sleeping|
  {
    Timers(tm.sleeping[n..], tm.runq + Names(tm.sleeping[..n]), tm.counted - n,
           if 0 < tm.counted <= n then tm.taskcount - 1 else tm.taskcount,
           Mark(tm.udata, Names(tm.sleeping[..n]), v))
  }

  /** The number of sleepers an expiry pass pops: it stops at the first that is not due. */
  ghost function Due(sl: seq<Sleeper>, now: int): (n: nat)
    ensures n <= |sl|
  {
    if sl != [] && now >= sl[0].alarm then 1 + Due(sl[1..], now) else 0
  }

  ghost function Expire(tm: Timers, now: int): Timers {
    WakeFirst(tm, Due(tm.sleeping, now), TIMEOUT)
  }

  /** What the fd task does between a poll and its callback. */
  ghost function Round(tm: Timers, es: seq<TaskId>, now: int): Timers {
    Expire(TakeEvents(tm, es), now)
  }

  /** What it does when the callback has returned -1. */
  ghost function Shutdown(tm: Timers): Timers {
    WakeFirst(tm, |tm.sleeping|, EIO)
  }

  // ----- the queue stays sorted

  /** i is the place for an alarm at when. */
  ghost predicate PlaceFor(sl: seq<Sleeper>, i: nat, when: int) {
    && i <= |sl| && (0 < i ==> sl[i - 1].alarm < when)
    && forall j :: i <= j < |sl| ==> when <= sl[j].alarm
  }

  lemma InsertPlace(sl: seq<Sleeper>, when: int)
    ensures PlaceFor(sl, TaskLists.InsertAt(Alarms(sl), when), when)
  {
    var alarms := Alarms(sl);
    var i := TaskLists.InsertAt(alarms, when);
    assert 0 < i ==> alarms[i - 1] == sl[i - 1].alarm;
    forall j | i <= j < |sl| ensures when <= sl[j].alarm { assert when <= alarms[j]; }
  }

  lemma PlacedSorted(sl: seq<Sleeper>, i: nat, x: Sleeper, r: seq<Sleeper>)
    requires Sorted(sl) && PlaceFor(sl, i, x.alarm) && |r| == |sl| + 1
    requires forall k {:trigger r[k]} :: 0 <= k < |r| ==>
      r[k] == if k < i then sl[k] else if k == i then x else sl[k - 1]
    ensures Sorted(r)
  {
    forall a, b | 0 <= a < b < |r| ensures r[a].alarm <= r[b].alarm {
      if b == i { assert sl[a].alarm <= sl[i - 1].alarm; }
    }
  }

  lemma InsertKeepsSorted(sl: seq<Sleeper>, t: TaskId, when: int)
    requires Sorted(sl)
    ensures Sorted(InsertedAt(sl, TaskLists.InsertAt(Alarms(sl), when), Sleeper(t, when)))
  {
    InsertPlace(sl, when);
    var i := TaskLists.InsertAt(Alarms(sl), when);
    PlacedSorted(sl, i, Sleeper(t, when), InsertedAt(sl, i, Sleeper(t, when)));
  }

  /** Removing tasks keeps exactly the others, in their order. */
  lemma {:induction false} WithoutMembers(sl: seq<Sleeper>, gone: set<TaskId>)
    ensures forall x :: x in Without(sl, gone) <==> x in sl && x.t !in gone
  {
    if sl != [] {
      WithoutMembers(sl[1..], gone);
      assert sl == [sl[0]] + sl[1..];
    }
  }

  lemma {:induction false} WithoutSorted(sl: seq<Sleeper>, gone: set<TaskId>)
    requires Sorted(sl)
    ensures Sorted(Without(sl, gone))
  {
    if sl != [] {
      WithoutSorted(sl[1..], gone);
      var r := Without(sl[1..], gone);
      WithoutMembers(sl[1..], gone);
      forall i | 0 <= i < |r| ensures sl[0].alarm <= r[i].alarm { assert r[i] in sl[1..]; }
    }
  }

  lemma TailNames(sl: seq<Sleeper>)
    requires sl != [] && NoDup(Names(sl))
    ensures Names(sl)[1..] == Names(sl[1..]) && NoDup(Names(sl[1..]))
    ensures sl[0].t !in Names(sl[1..])
  {
    assert Names(sl)[1..] == Names(sl[1..]);
    forall i, j | 0 <= i < j < |sl[1..]| ensures Names(sl[1..])[i] != Names(sl[1..])[j] {
      assert Names(sl)[i + 1] != Names(sl)[j + 1];
    }
    assert Names(sl)[0] == sl[0].t;
  }

  lemma InNames(sl: seq<Sleeper>, t: TaskId)
    ensures t in Names(sl) <==> exists x :: x in sl && x.t == t
  {
    if t in Names(sl) {
      var i :| 0 <= i < |sl| && Names(sl)[i] == t;
      assert sl[i] in sl;
    }
    if x :| x in sl && x.t == t {
      var i :| 0 <= i < |sl| && sl[i] == x;
      assert Names(sl)[i] == t;
    }
  }

  lemma {:induction false} WithoutNoDup(sl: seq<Sleeper>, gone: set<TaskId>)
    requires NoDup(Names(sl))
    ensures NoDup(Names(Without(sl, gone)))
    ensures forall t :: t in Names(Without(sl, gone)) <==> t in Names(sl) && t !in gone
  {
    WithoutNames(sl, gone);
    if sl != [] {
      TailNames(sl);
      WithoutNoDup(sl[1..], gone);
      var r := Without(sl[1..], gone);
      if sl[0].t !in gone {
        assert Names([sl[0]] + r) == [sl[0].t] + Names(r);
      }
    }
  }

  lemma WithoutNames(sl: seq<Sleeper>, gone: set<TaskId>)
    ensures forall t :: t in Names(Without(sl, gone)) <==> t in Names(sl) && t !in gone
  {
    WithoutMembers(sl, gone);
    forall t ensures t in Names(Without(sl, gone)) <==> t in Names(sl) && t !in gone {
      InNames(sl, t);
      InNames(Without(sl, gone), t);
    }
  }

  lemma {:induction false} WithoutNone(sl: seq<Sleeper>, gone: set<TaskId>)
    requires forall i :: 0 <= i < |sl| ==> sl[i].t !in gone
    ensures Without(sl, gone) == sl
  {
    if sl != [] { WithoutNone(sl[1..], gone); }
  }

  /** The position of the sleeper of task t. */
  ghost function Find(sl: seq<Sleeper>, t: TaskId): (i: nat)
    ensures i <= |sl| && (i < |sl| ==> sl[i].t == t)
    ensures i < |sl| <==> t in Names(sl)
  {
    if sl == [] then 0
    else if sl[0].t == t then assert Names(sl)[0] == t; 0
    else assert Names(sl) == [sl[0].t] + Names(sl[1..]); 1 + Find(sl[1..], t)
  }

  lemma RemoveLater(x: Sleeper, r: seq<Sleeper>, k: nat)
    requires k < |r|
    ensures RemoveAt([x] + r, 1 + k) == [x] + RemoveAt(r, k)
  {
  }

  lemma FindLater(x: Sleeper, r: seq<Sleeper>, t: TaskId)
    requires x.t != t && t in Names(r)
    ensures t in Names([x] + r) && Find([x] + r, t) == 1 + Find(r, t)
  {
    assert ([x] + r)[1..] == r;
    assert Names([x] + r) == [x.t] + Names(r);
  }

  lemma FindFirst(x: Sleeper, r: seq<Sleeper>)
    ensures x.t in Names([x] + r) && Find([x] + r, x.t) == 0 && RemoveAt([x] + r, 0) == r
  {
    assert Names([x] + r)[0] == x.t;
  }

  /** Removing one task more is deltask of that task. */
  lemma {:induction false} WithoutOneMore(sl: seq<Sleeper>, gone: set<TaskId>, t: TaskId)
    requires NoDup(Names(sl)) && t !in gone && t in Names(sl)
    ensures t in Names(Without(sl, gone))
    ensures Without(sl, gone + {t}) == RemoveAt(Without(sl, gone), Find(Without(sl, gone), t))
  {
    TailNames(sl);
    var x, r1 := sl[0], Without(sl[1..], gone);
    if x.t == t {
      WithoutGrow(sl[1..], gone, t);
      FindFirst(x, r1);
    } else {
      InTail(sl, t);
      WithoutOneMore(sl[1..], gone, t);
      if x.t !in gone {
        RemoveLater(x, r1, Find(r1, t));
        FindLater(x, r1, t);
        assert Without(sl, gone) == [x] + r1 && Without(sl, gone + {t}) == [x] + Without(sl[1..], gone + {t});
      }
    }
  }

  lemma InTail(sl: seq<Sleeper>, t: TaskId)
    requires t in Names(sl) && sl[0].t != t
    ensures t in Names(sl[1..])
  {
    assert Names(sl) == [sl[0].t] + Names(sl[1..]);
  }

  lemma {:induction false} WithoutGrow(sl: seq<Sleeper>, gone: set<TaskId>, t: TaskId)
    requires t !in Names(sl)
    ensures Without(sl, gone + {t}) == Without(sl, gone)
  {
    if sl != [] {
      assert Names(sl) == [sl[0].t] + Names(sl[1..]);
      WithoutGrow(sl[1..], gone, t);
    }
  }

  /** taskdelay puts a task in front of a sleeper exactly if that one's alarm is not
      earlier; all sleepers keep their order. */
  lemma DelayInFront(tm: Timers, t: TaskId, when: int, j: nat)
    requires Sorted(tm.sleeping) && j < |tm.sleeping|
    ensures var i := TaskLists.InsertAt(Alarms(tm.sleeping), when);
      var sl := Delay(tm, t, when).sleeping;
      && |sl| == |tm.sleeping| + 1 && sl[i] == Sleeper(t, when)
      && sl[if j < i then j else j + 1] == tm.sleeping[j]
      && (i <= j <==> when <= tm.sleeping[j].alarm)
  {
    InsertPlace(tm.sleeping, when);
    InFront(tm.sleeping, TaskLists.InsertAt(Alarms(tm.sleeping), when), when, j);
  }

  lemma InFront(sl: seq<Sleeper>, i: nat, when: int, j: nat)
    requires Sorted(sl) && PlaceFor(sl, i, when) && j < |sl|
    ensures i <= j <==> when <= sl[j].alarm
  {
  }

  // ----- an expiry pass is exact

  /** In a sorted queue, the pass pops exactly the sleepers that are due. */
  lemma {:induction false} DueExact(sl: seq<Sleeper>, now: int)
    requires Sorted(sl)
    ensures forall i :: 0 <= i < |sl| ==> (i < Due(sl, now) <==> sl[i].alarm <= now)
  {
    if sl != [] && now >= sl[0].alarm {
      DueExact(sl[1..], now);
      forall i | 0 <= i < |sl| ensures i < Due(sl, now) <==> sl[i].alarm <= now {
        if i > 0 { assert sl[1..][i - 1] == sl[i]; }
      }
    }
  }

  /** Sleepers that are due in the same pass are made ready in the order of the queue. */
  lemma DueInOrder(tm: Timers, now: int, i: nat)
    requires Sorted(tm.sleeping) && i < |tm.sleeping| && tm.sleeping[i].alarm <= now
    ensures var q := Expire(tm, now).runq;
      |tm.runq| + i < |q| && q[|tm.runq| + i] == tm.sleeping[i].t
  {
    DueExact(tm.sleeping, now);
    var n := Due(tm.sleeping, now);
    assert Names(tm.sleeping[..n])[i] == tm.sleeping[i].t;
  }

  /** So of two sleepers with the same alarm the one that came later is ready first. */
  lemma LastComeFirst(tm: Timers, t: TaskId, j: nat, now: int)
    requires Sorted(tm.sleeping) && j < |tm.sleeping| && tm.sleeping[j].alarm <= now
    ensures var q := Expire(Delay(tm, t, tm.sleeping[j].alarm), now).runq;
      exists a, b :: |tm.runq| <= a < b < |q| && q[a] == t && q[b] == tm.sleeping[j].t
  {
    var when := tm.sleeping[j].alarm;
    var tm1, i := Delay(tm, t, when), TaskLists.InsertAt(Alarms(tm.sleeping), when);
    DelayInFront(tm, t, when, j);
    InsertKeepsSorted(tm.sleeping, t, when);
    DueInOrder(tm1, now, i);
    DueInOrder(tm1, now, j + 1);
    var q := Expire(tm1, now).runq;
    assert q[|tm1.runq| + i] == t && q[|tm1.runq| + j + 1] == tm.sleeping[j].t;
  }

  /** The poll never waits past the first alarm, nor longer than 20 ms, and it does
      not wait at all when a sleeper is due or none is left. */
  lemma PollTimeoutBound(head: Option<int>, now: int)
    ensures var ms := PollTimeout(head, now);
      && 0 <= ms <= 20
      && (ms > 0 ==> head.Some? && ms * 1000000 <= head.value - now)
      && (head.Some? && head.value > now ==> ms == 20 || head.value - now - ms * 1000000 < 1000000)
  {
  }

  lemma PrefixMember(sl: seq<Sleeper>, n: nat, now: int, x: Sleeper)
    requires n <= |sl| && forall i :: 0 <= i < |sl| ==> (i < n <==> sl[i].alarm <= now)
    ensures x in sl[..n] <==> x in sl && x.alarm <= now
  {
    if x in sl[..n] { var i :| 0 <= i < n && sl[..n][i] == x; assert sl[i] == x; }
    if x in sl && x.alarm <= now { var i :| 0 <= i < |sl| && sl[i] == x; assert sl[..n][i] == x; }
  }

  lemma SuffixMember(sl: seq<Sleeper>, n: nat, now: int, x: Sleeper)
    requires n <= |sl| && forall i :: 0 <= i < |sl| ==> (i < n <==> sl[i].alarm <= now)
    ensures x in sl[n..] <==> x in sl && x.alarm > now
  {
    if x in sl[n..] { var i :| 0 <= i < |sl| - n && sl[n..][i] == x; assert sl[n + i] == x; }
    if x in sl && x.alarm > now { var i :| 0 <= i < |sl| && sl[i] == x; assert sl[n..][i - n] == x; }
  }

  lemma DuePart(sl: seq<Sleeper>, now: int)
    requires Sorted(sl)
    ensures var n := Due(sl, now);
      && (forall x :: x in sl[..n] <==> x in sl && x.alarm <= now)
      && (forall x :: x in sl[n..] <==> x in sl && x.alarm > now)
  {
    var n := Due(sl, now);
    DueExact(sl, now);
    forall x
      ensures x in sl[..n] <==> x in sl && x.alarm <= now
      ensures x in sl[n..] <==> x in sl && x.alarm > now
    {
      PrefixMember(sl, n, now, x);
      SuffixMember(sl, n, now, x);
    }
  }

  lemma WokenOnce(tm: Timers, es: seq<TaskId>)
    requires NoDup(Names(tm.sleeping)) && NoDup(es)
    ensures NoDup(es + Names(Without(tm.sleeping, Elems(es))))
  {
    var left := Names(Without(tm.sleeping, Elems(es)));
    WithoutNoDup(tm.sleeping, Elems(es));
    forall i, j | 0 <= i < |es| && 0 <= j < |left| ensures es[i] != left[j] {
      assert left[j] in left;
    }
  }

  lemma RoundLists(tm: Timers, es: seq<TaskId>, now: int)
    ensures var left := Without(tm.sleeping, Elems(es));
      Round(tm, es, now).runq == tm.runq + (es + Names(left[..Due(left, now)]))
    ensures var left := Without(tm.sleeping, Elems(es));
      Round(tm, es, now).sleeping == left[Due(left, now)..]
  {
    var left := Without(tm.sleeping, Elems(es));
    Regroup(tm.runq, es, Names(left[..Due(left, now)]));
  }

  /** A shutdown wakes everybody, in queue order, and counts them down. */
  lemma ShutdownLists(tm: Timers)
    ensures Shutdown(tm).sleeping == [] && Shutdown(tm).runq == tm.runq + Names(tm.sleeping)
    ensures Shutdown(tm).udata == Mark(tm.udata, Names(tm.sleeping), EIO)
    ensures Shutdown(tm).counted == tm.counted - |tm.sleeping|
    ensures Shutdown(tm).taskcount == if 0 < tm.counted <= |tm.sleeping| then tm.taskcount - 1 else tm.taskcount
  {
    assert tm.sleeping[..|tm.sleeping|] == tm.sleeping;
  }

  lemma NamesConcat(a: seq<Sleeper>, b: seq<Sleeper>)
    ensures Names(a + b) == Names(a) + Names(b)
  {
    var l, r := Names(a + b), Names(a) + Names(b);
    forall i | 0 <= i < |a + b| ensures l[i] == r[i] { assert l[i] == (a + b)[i].t; }
    assert |l| == |r|;
  }

  lemma NamesSplit(sl: seq<Sleeper>, n: nat)
    requires n <= |sl|
    ensures Names(sl) == Names(sl[..n]) + Names(sl[n..])
  {
    NamesConcat(sl[..n], sl[n..]);
    assert sl == sl[..n] + sl[n..];
  }

  /** A poll round in a sorted queue wakes the tasks with events, then the due ones
      in queue order; nobody else and nobody twice. */
  lemma RoundExact(tm: Timers, es: seq<TaskId>, now: int)
    requires Sorted(tm.sleeping) && NoDup(Names(tm.sleeping)) && NoDup(es)
    ensures var left := Without(tm.sleeping, Elems(es));
      var n, tm' := Due(left, now), Round(tm, es, now);
      && tm'.runq == tm.runq + (es + Names(left[..n])) && tm'.sleeping == left[n..]
      && NoDup(es + Names(left)) && Sorted(left)
      && (forall x :: x in left <==> x in tm.sleeping && x.t !in es)
      && (forall x :: x in left[..n] <==> x in left && x.alarm <= now)
  {
    var gone := Elems(es);
    RoundLists(tm, es, now);
    WithoutMembers(tm.sleeping, gone);
    WithoutSorted(tm.sleeping, gone);
    DuePart(Without(tm.sleeping, gone), now);
    WokenOnce(tm, es);
  }
}
