/** taskdelay and the loop body of the fd task, on the linked queues themselves. */
module FdTask {
  import opened Base
  import opened TaskLists
  import opened Scheduler
  import opened FdSpec

  ghost function Sleepers(s: seq<Task>): (r: seq<Sleeper>)
    reads s
    ensures |r| == |s| && forall i :: 0 <= i < |s| ==> r[i] == Sleeper(s[i].id, s[i].alarmtime)
  {
    seq(|s|, i requires 0 <= i < |s| reads s => Sleeper(s[i].id, s[i].alarmtime))
  }

  lemma SleepersParts(s: seq<Task>)
    ensures Names(Sleepers(s)) == Ids(s) && Alarms(Sleepers(s)) == AlarmsOf(s)
  {
  }

  twostate lemma SleepersSame(s: seq<Task>)
    requires forall x :: x in s ==> old(allocated(x)) && x.alarmtime == old(x.alarmtime)
    ensures Sleepers(s) == old(Sleepers(s))
  {
    assert |Sleepers(s)| == |old(Sleepers(s))|;
    forall i | 0 <= i < |s| ensures Sleepers(s)[i] == old(Sleepers(s)[i]) { assert s[i] in s; }
  }

  twostate lemma TailWas(s: seq<Task>)
    requires s != [] && forall x :: x in s ==> old(allocated(x))
    ensures old(Sleepers(s))[1..] == old(Sleepers(s[1..])) && Names(old(Sleepers(s))[..1]) == [s[0].id]
  {
  }

  lemma IdsPush(s: seq<Task>, t: Task)
    ensures Ids(s + [t]) == Ids(s) + [t.id]
  {
  }

  lemma FindTask(s: seq<Task>, t: Task)
    requires t in s && Distinct(Elems(s))
    ensures t.id in Names(Sleepers(s)) && Find(Sleepers(s), t.id) == IndexOf(s, t)
  {
    if s[0] == t {
      assert Names(Sleepers(s))[0] == t.id;
    } else {
      assert s[0] in Elems(s) && t in Elems(s) && s[0].id != t.id;
      assert Elems(s[1..]) <= Elems(s);
      FindTask(s[1..], t);
      assert Sleepers(s)[1..] == Sleepers(s[1..]);
      assert Names(Sleepers(s)) == [s[0].id] + Names(Sleepers(s[1..]));
    }
  }

  lemma MarkMore(udata: map<TaskId, int>, a: seq<TaskId>, b: seq<TaskId>, v: int)
    ensures Mark(Mark(udata, a, v), b, v) == Mark(udata, a + b, v)
  {
  }

  lemma WakeOneMore(tm: Timers, n: nat, v: int)
    requires n < |tm.sleeping|
    ensures WakeFirst(WakeFirst(tm, n, v), 1, v) == WakeFirst(tm, n + 1, v)
  {
    var sl := tm.sleeping;
    var a, b := Names(sl[..n]), Names([sl[n]]);
    assert sl[n..][..1] == [sl[n]] && sl[n..][1..] == sl[n + 1..] && sl[..n + 1] == sl[..n] + [sl[n]];
    NamesConcat(sl[..n], [sl[n]]);
    MarkMore(tm.udata, a, b, v);
    assert tm.runq + (a + b) == tm.runq + a + b;
  }

  lemma WakeNone(tm: Timers, v: int)
    ensures WakeFirst(tm, 0, v) == tm
  {
    assert Mark(tm.udata, [], v) == tm.udata;
  }

  ghost function TakeOne(tm: Timers, t: TaskId): Timers
    requires t in Names(tm.sleeping)
  {
    tm.(sleeping := RemoveAt(tm.sleeping, Find(tm.sleeping, t)), runq := tm.runq + [t],
      udata := Mark(tm.udata, [t], EVENT))
  }

  lemma TakeNone(tm: Timers)
    ensures TakeEvents(tm, []) == tm
  {
    WithoutNone(tm.sleeping, {});
    assert Elems<TaskId>([]) == {};
    assert Mark(tm.udata, [], EVENT) == tm.udata;
  }

  lemma TakeOneMore(tm: Timers, ids: seq<TaskId>, i: nat)
    requires i < |ids| && NoDup(Names(tm.sleeping)) && NoDup(ids) && ids[i] in Names(tm.sleeping)
    ensures var tm1 := TakeEvents(tm, ids[..i]);
      ids[i] in Names(tm1.sleeping) && TakeEvents(tm, ids[..i + 1]) == TakeOne(tm1, ids[i])
  {
    var gone := Elems(ids[..i]);
    assert ids[..i + 1] == ids[..i] + [ids[i]];
    assert Elems(ids[..i + 1]) == gone + {ids[i]};
    WithoutOneMore(tm.sleeping, gone, ids[i]);
    MarkMore(tm.udata, ids[..i], [ids[i]], EVENT);
    Regroup(tm.runq, ids[..i], [ids[i]]);
  }

  lemma SleepersInserted(s: seq<Task>, i: nat, t: Task)
    requires i <= |s|
    ensures Sleepers(InsertedAt(s, i, t)) == InsertedAt(Sleepers(s), i, Sleeper(t.id, t.alarmtime))
  {
    assert |Sleepers(InsertedAt(s, i, t))| == |InsertedAt(Sleepers(s), i, Sleeper(t.id, t.alarmtime))|;
  }

  /** Tasks are told apart by their ids. */
  ghost predicate Distinct(ts: set<Task>) {
    forall x, y :: x in ts && y in ts && x.id == y.id ==> x == y
  }

  ghost function Udata(ts: set<Task>): map<TaskId, int>
    reads ts
    requires Distinct(ts)
  {
    map x | x in ts :: x.id := x.udata
  }

  /** The queue of sleeping tasks, next to the scheduler's own, and the two counters. */
  class FdTask {
    const sched: Sched
    const sleeping: Tasklist
    var sleepingcounted: int
    var taskcount: int
    var startedfdtask: bool
    /** What all this amounts to. */
    ghost var timers: Timers

    ghost predicate Shape()
      reads sched, sched.queues, sched.tasks
    {
      && sched.Valid() && sleeping in sched.queues && sleeping != sched.runq
      && Distinct(sched.tasks)
    }

    ghost function View(counted: int, taskcount: int): Timers
      reads sleeping, sleeping.elems, sched, sched.runq, sched.tasks
      requires Distinct(sched.tasks)
    {
      Timers(Sleepers(sleeping.elems), Ids(sched.runq.elems), counted, taskcount, Udata(sched.tasks))
    }

    ghost predicate Valid()
      reads this, sched, sched.queues, sched.tasks
    {
      Shape() && timers == View(sleepingcounted, taskcount)
    }

    constructor (sched: Sched, sleeping: Tasklist, taskcount: int)
      requires sched.Valid() && sleeping in sched.queues && sleeping != sched.runq && Distinct(sched.tasks)
      requires sleeping.elems == []
      ensures Valid() && this.sched == sched && this.sleeping == sleeping
      ensures sleepingcounted == 0 && this.taskcount == taskcount && !startedfdtask
    {
      this.sched, this.sleeping := sched, sleeping;
      this.taskcount := taskcount;
      sleepingcounted, startedfdtask := 0, false;
      timers := Timers(Sleepers(sleeping.elems), Ids(sched.runq.elems), 0, taskcount, Udata(sched.tasks));
    }

    /** The timeout of the next poll. */
    method NextTimeout(now: int) returns (ms: int)
      requires Valid()
      ensures ms == PollTimeout(if timers.sleeping == [] then None else Some(timers.sleeping[0].alarm), now)
    {
      var t := sleeping.head;
      if t == null {
        ms := 0;
      } else if now >= t.alarmtime {
        ms := 0;
      } else {
        var towait := t.alarmtime - now;
        if towait > 20 * 1000 * 1000 {
          ms := 20;
        } else {
          ms := towait / 1000000;
        }
      }
    }

    /** taskcreate of task fd, which has been allocated; t stays out of all queues. */
    method TaskCreate(fd: Task, ghost t: Task)
      requires Valid() && sched.Free(fd) && sched.Free(t) && t != fd
      modifies this`taskcount, this`timers, sched.queues, sched.tasks
      ensures Valid() && timers == Create(old(timers), fd.id) && sched.Free(t)
    {
      sched.TaskReady(fd);
      WhenReady(fd);
      CountTask(Create(timers, fd.id));
    }

    method CountTask(ghost tm: Timers)
      requires Shape() && tm == View(sleepingcounted, taskcount + 1)
      modifies this`taskcount, this`timers
      ensures Valid() && timers == tm
    {
      taskcount := taskcount + 1;
      timers := tm;
    }

    twostate lemma WhenReady(t: Task)
      requires sched.tasks == old(sched.tasks) && Distinct(sched.tasks)
      requires forall x :: x in sched.tasks ==> old(allocated(x)) && SameData(x)
      requires sleeping.elems == old(sleeping.elems) && sched.runq.elems == old(sched.runq.elems) + [t]
      requires forall x :: x in sleeping.elems ==> x in sched.tasks
      requires sleepingcounted == old(sleepingcounted) && taskcount == old(taskcount)
      requires old(timers == View(sleepingcounted, taskcount))
      ensures Create(old(timers), t.id) == View(sleepingcounted, taskcount + 1)
    {
      SleepersSame(sleeping.elems);
      IdsPush(old(sched.runq.elems), t);
      DataSame();
    }

    twostate lemma DataSame()
      requires sched.tasks == old(sched.tasks) && Distinct(sched.tasks)
      requires forall x :: x in sched.tasks ==> old(allocated(x)) && x.udata == old(x.udata)
      ensures Udata(sched.tasks) == old(Udata(sched.tasks))
    {
    }

    /** _startfdtask, where fd is the task that taskcreate makes. */
    method StartFdTask(fd: Task, ghost t: Task)
      requires Valid() && sched.Free(t) && (!startedfdtask ==> sched.Free(fd) && fd != t)
      modifies this`startedfdtask, this`taskcount, this`timers, sched.queues, sched.tasks
      ensures Valid() && startedfdtask && sched.Free(t)
      ensures timers == Began(old(timers), old(startedfdtask), fd.id)
    {
      if !startedfdtask {
        startedfdtask := true;
        TaskCreate(fd, t);
      }
    }

    /** Puts task t to sleep until when: taskdelay between the start of the fd task and the switch. */
    method Sleep(t: Task, when: int)
      requires Valid() && sched.Free(t)
      modifies this`sleepingcounted, this`taskcount, this`timers, sched.queues, sched.tasks
      ensures Valid() && timers == Delay(old(timers), t.id, when)
    {
      InsertSleeper(t, when);
      WhenSleeping(t);
      CountSleeper(Delay(timers, t.id, when));
    }

    /** One sleeper more; the first brings along the task that stands for all of them. */
    method CountSleeper(ghost tm: Timers)
      requires Shape() && tm == View(sleepingcounted + 1, if sleepingcounted == 0 then taskcount + 1 else taskcount)
      modifies this`sleepingcounted, this`taskcount, this`timers
      ensures Valid() && timers == tm
    {
      if sleepingcounted == 0 {
        taskcount := taskcount + 1;
      }
      sleepingcounted := sleepingcounted + 1;
      timers := tm;
    }

    /** t was put to sleep; nothing else about tasks has changed. */
    twostate predicate JustAsleep(t: Task)
      reads this, sleeping, sched, sched.runq, sched.tasks
    {
      && sched.tasks == old(sched.tasks) && t in sched.tasks
      && sched.runq.elems == old(sched.runq.elems)
      && (forall x :: x in old(sleeping.elems) ==> x in sched.tasks && x != t)
      && (forall x :: x in sched.tasks ==> old(allocated(x)) && x.udata == old(x.udata))
      && (forall x :: x in sched.tasks && x != t ==> x.alarmtime == old(x.alarmtime))
      && sleeping.elems == InsertedAt(old(sleeping.elems), InsertAt(old(sleeping.Alarms()), t.alarmtime), t)
    }

    /** The queue operation of taskdelay. */
    method InsertSleeper(t: Task, when: int)
      requires Shape() && sched.Free(t)
      modifies sched.queues, sched.tasks
      ensures Shape() && JustAsleep(t) && t.alarmtime == when
    {
      sched.Insert(sleeping, t, when);
    }

    twostate lemma AlarmsWere()
      requires forall x :: x in old(sleeping.elems) ==> old(allocated(x))
      ensures Alarms(old(Sleepers(sleeping.elems))) == old(sleeping.Alarms())
    {
    }

    /** Seen as a function: t was put to sleep. */
    twostate lemma WhenSleeping(t: Task)
      requires JustAsleep(t) && Distinct(sched.tasks)
      requires sleepingcounted == old(sleepingcounted) && taskcount == old(taskcount)
      requires old(timers == View(sleepingcounted, taskcount))
      ensures Delay(old(timers), t.id, t.alarmtime)
        == View(sleepingcounted + 1, if sleepingcounted == 0 then taskcount + 1 else taskcount)
    {
      var s := old(sleeping.elems);
      AlarmsWere();
      DataSame();
      SleepersSame(s);
      SleepersInserted(s, InsertAt(old(sleeping.Alarms()), t.alarmtime), t);
    }

    /** taskdelay by task t, up to its task switch; when is its local variable. */
    method TaskDelay(t: Task, now: int, ms: nat, fd: Task) returns (when: int)
      requires Valid() && sched.running == t && sched.Free(t) && (!startedfdtask ==> sched.Free(fd) && fd != t)
      modifies this, sched.queues, sched.tasks
      ensures Valid() && startedfdtask && sched.running == t
      ensures when == WakeTime(now, ms) == now + ms * 1_000_000
      ensures timers == Delay(Began(old(timers), old(startedfdtask), fd.id), t.id, when)
    {
      when := WakeTime(now, ms);
      StartFdTask(fd, t);
      Sleep(t, when);
    }

    /** t was woken and told its udata; nothing else about tasks has changed. */
    twostate predicate JustWoken(t: Task)
      reads this, sleeping, sched, sched.runq, sched.tasks
    {
      && sched.tasks == old(sched.tasks) && t in sched.tasks && t in old(sleeping.elems)
      && sleeping.elems == RemoveAt(old(sleeping.elems), IndexOf(old(sleeping.elems), t))
      && sched.runq.elems == old(sched.runq.elems) + [t]
      && (forall x :: x in sleeping.elems ==> x in sched.tasks)
      && (forall x :: x in sched.tasks ==> old(allocated(x)) && x.alarmtime == old(x.alarmtime))
      && (forall x :: x in sched.tasks && x != t ==> x.udata == old(x.udata))
    }

    /** What all wakeups of the fd task have in common. */
    method Wake(t: Task, v: int)
      requires Shape() && t in sleeping.elems
      modifies sched.queues, sched.tasks
      ensures Shape() && JustWoken(t) && t.udata == v
    {
      sched.DelTask(sleeping, t);
      t.udata := v;
      sched.TaskReady(t);
    }

    /** One sleeper less; the last takes the task that stood for all of them along. */
    method CountDown(ghost tm: Timers)
      requires Shape() && tm == View(sleepingcounted - 1, if sleepingcounted == 1 then taskcount - 1 else taskcount)
      modifies this`sleepingcounted, this`taskcount, this`timers
      ensures Valid() && timers == tm
    {
      sleepingcounted := sleepingcounted - 1;
      if sleepingcounted == 0 {
        taskcount := taskcount - 1;
      }
      timers := tm;
    }

    /** The body of the wakeup loops: the first sleeper is told v and made ready. */
    method WakeHead(v: int)
      requires Valid() && sleeping.elems != []
      modifies this`sleepingcounted, this`taskcount, this`timers, sched.queues, sched.tasks
      ensures Valid() && timers == WakeFirst(old(timers), 1, v)
    {
      var t := sleeping.head;
      assert IndexOf(sleeping.elems, t) == 0;
      Wake(t, v);
      HeadWoken(v);
      CountDown(WakeFirst(timers, 1, v));
    }

    /** Seen as a function: the first sleeper has been woken. */
    twostate lemma HeadWoken(v: int)
      requires old(sleeping.elems) != [] && JustWoken(old(sleeping.elems)[0]) && Distinct(sched.tasks)
      requires old(sleeping.elems)[0].udata == v
      requires sleepingcounted == old(sleepingcounted) && taskcount == old(taskcount)
      requires old(timers == View(sleepingcounted, taskcount))
      ensures WakeFirst(old(timers), 1, v)
        == View(sleepingcounted - 1, if sleepingcounted == 1 then taskcount - 1 else taskcount)
    {
      ghost var s := old(sleeping.elems);
      assert sleeping.elems == s[1..];
      SleepersSame(s[1..]);
      TailWas(s);
      IdsPush(old(sched.runq.elems), s[0]);
      UdataTold(s[0]);
    }

    /** Only t's udata has changed. */
    twostate lemma UdataTold(t: Task)
      requires sched.tasks == old(sched.tasks) && Distinct(sched.tasks) && t in sched.tasks
      requires forall x :: x in sched.tasks ==> old(allocated(x)) && (x != t ==> x.udata == old(x.udata))
      ensures Udata(sched.tasks) == Mark(old(Udata(sched.tasks)), [t.id], t.udata)
    {
    }

    /** Wakes the task of one event. */
    method TakeEvent(t: Task)
      requires Valid() && t in sleeping.elems
      modifies this`timers, sched.queues, sched.tasks
      ensures Valid() && t.id in Names(old(timers).sleeping) && timers == TakeOne(old(timers), t.id)
    {
      CanTake(t);
      Wake(t, EVENT);
      EventTaken(t);
      Renew(TakeOne(timers, t.id));
    }

    /** What the queues now amount to. */
    ghost method Renew(tm: Timers)
      requires Shape() && tm == View(sleepingcounted, taskcount)
      modifies this`timers
      ensures Valid() && timers == tm
    {
      timers := tm;
    }

    /** Where t sleeps, seen in both ways. */
    ghost predicate TakenAt(t: Task)
      reads sleeping, sleeping.elems
    {
      && t in sleeping.elems && t.id in Names(Sleepers(sleeping.elems))
      && Find(Sleepers(sleeping.elems), t.id) == IndexOf(sleeping.elems, t)
    }

    lemma CanTake(t: Task)
      requires Shape() && t in sleeping.elems
      ensures TakenAt(t)
    {
      FindTask(sleeping.elems, t);
    }

    twostate lemma RemovalWas(t: Task)
      requires old(t in sleeping.elems) && forall x :: x in old(sleeping.elems) ==> old(allocated(x))
      ensures var i := IndexOf(old(sleeping.elems), t);
        old(Sleepers(RemoveAt(sleeping.elems, IndexOf(sleeping.elems, t))))
          == RemoveAt(old(Sleepers(sleeping.elems)), i)
    {
      var i := IndexOf(old(sleeping.elems), t);
      var all := old(Sleepers(sleeping.elems));
      var left := old(Sleepers(RemoveAt(sleeping.elems, IndexOf(sleeping.elems, t))));
      forall k {:trigger left[k]} | 0 <= k < |left| ensures left[k] == if k < i then all[k] else all[k + 1] {
        assert old(RemoveAt(sleeping.elems, i)[k]) == old(sleeping.elems)[if k < i then k else k + 1];
      }
      IsRemoved(all, i, left);
    }

    /** Seen as a function: the sleeper t was taken for an event. */
    twostate lemma EventTaken(t: Task)
      requires JustWoken(t) && t.udata == EVENT && Distinct(sched.tasks)
      requires old(TakenAt(t))
      requires sleepingcounted == old(sleepingcounted) && taskcount == old(taskcount)
      requires old(timers == View(sleepingcounted, taskcount))
      ensures TakeOne(old(timers), t.id) == View(sleepingcounted, taskcount)
    {
      RemovalWas(t);
      SleepersSame(sleeping.elems);
      IdsPush(old(sched.runq.elems), t);
      UdataTold(t);
    }

    lemma NamesSleep(t: Task)
      requires Valid() && t in sched.tasks
      ensures t.id in Names(timers.sleeping) <==> t in sleeping.elems
    {
      SleepersParts(sleeping.elems);
      if t.id in Ids(sleeping.elems) {
        var i :| 0 <= i < |sleeping.elems| && Ids(sleeping.elems)[i] == t.id;
        assert sleeping.elems[i] in sleeping.elems;
      }
    }

    /** Since the timers were tm, the first i of the tasks ids were taken for events. */
    ghost predicate Took(tm: Timers, ids: seq<TaskId>, i: nat)
      reads this, sched, sched.queues, sched.tasks
    {
      Valid() && i <= |ids| && timers == TakeEvents(tm, ids[..i])
    }

    /** One round of the loop over the events of a poll: the task of event i. */
    method TakeNext(ghost tm: Timers, ghost ids: seq<TaskId>, ghost i: nat, t: Task)
      requires Took(tm, ids, i) && i < |ids| && NoDup(Names(tm.sleeping)) && NoDup(ids)
      requires t in sched.tasks && ids[i] == t.id && t.id in Names(tm.sleeping)
      modifies this`timers, sched.queues, sched.tasks
      ensures Took(tm, ids, i + 1)
    {
      TakeOneMore(tm, ids, i);
      NamesSleep(t);
      TakeEvent(t);
    }

    lemma TookNone(ids: seq<TaskId>)
      requires Valid()
      ensures Took(timers, ids, 0)
    {
      TakeNone(timers);
      assert ids[..0] == [];
    }

    /** Events are for different tasks, all of them asleep. */
    ghost predicate Events(es: seq<Task>)
      reads this, sched
    {
      && NoDup(Names(timers.sleeping)) && NoDup(Ids(es))
      && (forall t :: t in es ==> t in sched.tasks) && forall x :: x in Ids(es) ==> x in Names(timers.sleeping)
    }

    /** The loop over the events of a poll. */
    method WakeEvents(es: seq<Task>)
      requires Valid() && Events(es)
      modifies this`timers, sched.queues, sched.tasks
      ensures Valid() && timers == TakeEvents(old(timers), Ids(es))
    {
      ghost var tm, ids := timers, Ids(es);
      TookNone(ids);
      for i := 0 to |es|
        invariant Took(tm, ids, i)
      {
        assert ids[i] in ids && es[i] in es;
        TakeNext(tm, ids, i, es[i]);
      }
      assert ids[..|es|] == ids;
    }

    /** Since the timers were tm, the first n sleepers have been woken and told v. */
    ghost predicate Woke(tm: Timers, n: nat, v: int)
      reads this, sched, sched.queues, sched.tasks
    {
      Valid() && n <= |tm.sleeping| && timers == WakeFirst(tm, n, v)
    }

    lemma WokeNone(v: int)
      requires Valid()
      ensures Woke(timers, 0, v)
    {
      WakeNone(timers, v);
    }

    lemma WokeHead(tm: Timers, n: nat, v: int)
      requires Woke(tm, n, v)
      ensures |sleeping.elems| == |tm.sleeping| - n
      ensures sleeping.head == null <==> n == |tm.sleeping|
      ensures n < |tm.sleeping| ==> sleeping.head.alarmtime == tm.sleeping[n].alarm
    {
    }

    /** One more is woken. */
    method WakeNext(ghost tm: Timers, ghost n: nat, v: int)
      requires Woke(tm, n, v) && n < |tm.sleeping|
      modifies this`sleepingcounted, this`taskcount, this`timers, sched.queues, sched.tasks
      ensures Woke(tm, n + 1, v)
    {
      WokeHead(tm, n, v);
      WakeOneMore(tm, n, v);
      WakeHead(v);
    }

    /** The loop that wakes the sleepers that are due. */
    method ExpirePass(now: int)
      requires Valid()
      modifies this`sleepingcounted, this`taskcount, this`timers, sched.queues, sched.tasks
      ensures Valid() && timers == Expire(old(timers), now)
    {
      ghost var tm, n := timers, 0;
      WokeNone(TIMEOUT);
      WokeHead(tm, n, TIMEOUT);
      while sleeping.head != null && now >= sleeping.head.alarmtime
        invariant Woke(tm, n, TIMEOUT)
        invariant Due(tm.sleeping, now) == n + Due(tm.sleeping[n..], now)
        decreases |tm.sleeping| - n
      {
        WokeHead(tm, n, TIMEOUT);
        DueOneMore(tm.sleeping, n, now);
        WakeNext(tm, n, TIMEOUT);
        n := n + 1;
      }
      WokeHead(tm, n, TIMEOUT);
      assert Due(tm.sleeping, now) == n;
    }

    /** The loop that wakes all sleepers when the callback has asked to stop. */
    method Cleanup()
      requires Valid()
      modifies this`sleepingcounted, this`taskcount, this`timers, sched.queues, sched.tasks
      ensures Valid() && timers == Shutdown(old(timers))
    {
      ghost var tm, n := timers, 0;
      WokeNone(EIO);
      while sleeping.head != null
        invariant Woke(tm, n, EIO)
        decreases |tm.sleeping| - n
      {
        WokeHead(tm, n, EIO);
        WakeNext(tm, n, EIO);
        n := n + 1;
      }
      WokeHead(tm, n, EIO);
    }

    /** What the fd task does after a poll that found events for the tasks es: the loops
        over the events and over the sleepers that are due. */
    method AfterPoll(es: seq<Task>, now: int)
      requires Valid() && Events(es)
      modifies this`sleepingcounted, this`taskcount, this`timers, sched.queues, sched.tasks
      ensures Valid() && timers == Round(old(timers), Ids(es), now)
    {
      WakeEvents(es);
      ExpirePass(now);
    }

    /** What it does after its callback; stop says that this returned -1. */
    method AfterCallback(stop: bool)
      requires Valid()
      modifies this, sched.queues, sched.tasks
      ensures Valid() && timers == (if stop then Shutdown(old(timers)) else old(timers))
      ensures startedfdtask == (old(startedfdtask) && !stop)
    {
      if stop {
        Cleanup();
        SetStopped();
      }
    }

    method SetStopped()
      requires Valid()
      modifies this`startedfdtask
      ensures Valid() && timers == old(timers) && !startedfdtask
    {
      startedfdtask := false;
    }
  }

  lemma DueOneMore(sl: seq<Sleeper>, n: nat, now: int)
    requires n < |sl| && sl[n].alarm <= now
    ensures Due(sl[n..], now) == 1 + Due(sl[n + 1..], now)
  {
    assert sl[n..][1..] == sl[n + 1..];
  }
}
