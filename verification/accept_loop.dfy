/** One iteration of the accept loop (`boxmode`) as a pure step over the
    counters and the admission queue, driven by what the non-blocking accept
    returned, and runs of such steps. A dispatch is an emitted record: the
    number of tasks handed to the worker pool and the quota each task pops. */
module AcceptLoop {
  import opened Tick
  import opened BoxQueue
  import opened Admission

  /** What one non-blocking accept produced, with the clock reading the
      loop takes for it. A ready connection whose handle cannot be cloned
      still has its stamp read, because the bookkeeping precedes the
      enqueue attempt. */
  datatype Event<T> =
    | Accepted(now: int, conn: T)
    | CloneFailed(now: int, conn: T)
    | WouldBlock(now: int)
    | OtherError

  /** A request to the worker pool: `tasks` tasks, each calling
      `handle_connection_s` exactly `quota` times. The quota is fixed when
      the dispatch is made. */
  datatype Dispatch = Dispatch(tasks: nat, quota: nat)

  /** The loop's own state. `queue` is the admission queue as the acceptor
      sees it: it holds the acceptor's appends only, since the pops of
      dispatched tasks run concurrently and are modelled in `BoxQueue.Apply`. */
  datatype Loop<T> = Loop(counters: Counters, queue: seq<T>)

  datatype Stepped<T> = Stepped(next: Loop<T>, dispatch: Option<Dispatch>)

  /** The dispatch made with the current batch size. */
  function Emit(env: Env, c: Counters): Dispatch {
    Dispatch(env.threads, Quota(env, c.boxNum))
  }

  /** A ready connection: bookkeeping, then the enqueue; if that fails the
      iteration ends. Otherwise, when the fine stamps are more than 50 ms
      apart, run the coarse tick, dispatch with the resulting batch size,
      and let the old fine stamp catch up. */
  function OnReady<T>(env: Env, s: Loop<T>, now: int, conn: T, cloneOk: bool): Stepped<T> {
    var c := NoteAccept(s.counters, now);
    var added := Enqueue(s.queue, conn, cloneOk);
    if !added.ok then
      Stepped(Loop(c, s.queue), None)
    else if FineElapsed(c.oldStampTimeout, c.newStampTimeout) then
      var t := NewTick(env, c);
      Stepped(Loop(t.(oldStampTimeout := t.newStampTimeout), added.queue), Some(Emit(env, t)))
    else
      Stepped(Loop(c, added.queue), None)
  }

  /** No connection ready: refresh the stamps, run the coarse tick, and
      dispatch when the batch size is fresh or the coarse stamps are more
      than 50 ms apart; after a dispatch the batch size cools down to the
      idle value. The old fine stamp is left alone. */
  function OnIdle<T>(env: Env, s: Loop<T>, now: int): Stepped<T> {
    var t := NewTick(env, NoteIdle(s.counters, now));
    if t.newBoxFlag || FineElapsed(t.oldStamp, t.newStamp) then
      Stepped(Loop(t.(boxNum := IdleBox(env)), s.queue), Some(Emit(env, t)))
    else
      Stepped(Loop(t, s.queue), None)
  }

  /** One iteration of the loop body. Whatever the accept produced, a ready
      connection is counted exactly once, the rate counter's history only
      grows, the queue only gains the enqueued connection, and the stamps
      stay clock readings when the reading is one. */
  function Step<T>(env: Env, s: Loop<T>, e: Event<T>): (o: Stepped<T>)
    ensures Counted(o.next.counters) ==
              Counted(s.counters) + (if e.Accepted? || e.CloneFailed? then 1 else 0)
    ensures s.counters.fed <= o.next.counters.fed
    ensures o.next.queue == s.queue + Arrival(e)
    ensures StampsValid(s.counters) && EventStampValid(e) ==> StampsValid(o.next.counters)
  {
    match e
    case Accepted(now, conn) => OnReady(env, s, now, conn, true)
    case CloneFailed(now, conn) => OnReady(env, s, now, conn, false)
    case WouldBlock(now) => OnIdle(env, s, now)
    case OtherError => Stepped(s, None)
  }

  datatype Trace<T> = Trace(last: Loop<T>, dispatches: seq<Dispatch>)

  function Emitted(d: Option<Dispatch>): seq<Dispatch> {
    match d
    case None => []
    case Some(x) => [x]
  }

  /** Steps `step` through the events, collecting the dispatches. */
  function Fold<T>(step: (Loop<T>, Event<T>) -> Stepped<T>, s: Loop<T>, events: seq<Event<T>>): Trace<T>
    decreases |events|
  {
    if |events| == 0 then Trace(s, [])
    else
      var o := step(s, events[0]);
      var rest := Fold(step, o.next, events[1..]);
      Trace(rest.last, Emitted(o.dispatch) + rest.dispatches)
  }

  /** The loop run over a sequence of accept outcomes. */
  function Run<T>(env: Env, s: Loop<T>, events: seq<Event<T>>): Trace<T> {
    Fold((x, e) => Step(env, x, e), s, events)
  }

  // ---------------------------------------------------------------------
  // Single steps

  /** An accepted connection is appended to the queue and dispatches exactly
      when the fine stamps, which only an idle poll refreshes, are more than
      50 ms apart. The quota is that of the re-estimated batch size if the
      coarse stamps are more than 500 ms apart, and of the previous batch
      size otherwise. Apart from the append, a step without a dispatch is
      exactly the bookkeeping of `ok_vars_init`; a dispatch adds the fine
      stamp catching up and, on a coarse tick, the tick's fields. */
  lemma AcceptedStep<T>(env: Env, s: Loop<T>, now: int, conn: T)
    ensures var o := Step(env, s, Accepted(now, conn));
      var c := s.counters;
      && o.next.queue == s.queue + [conn]
      && (o.dispatch.Some? <==> FineElapsed(c.oldStampTimeout, c.newStampTimeout))
      && (o.dispatch.Some? ==>
            && o.dispatch.value.tasks == env.threads
            && o.dispatch.value.quota ==
                 Quota(env, if CoarseElapsed(c.oldStamp, now)
                            then ActiveBox(env, c.fed + [c.tmpCounter + 1])
                            else c.boxNum)
            && o.next.counters.oldStampTimeout == o.next.counters.newStampTimeout == c.newStampTimeout)
      && o.next.counters.newStampTimeout == c.newStampTimeout
      && o.next.counters.tmpCounter ==
           (if o.dispatch.Some? && CoarseElapsed(c.oldStamp, now) then 0 else c.tmpCounter + 1)
      // what else the step changes, case by case
      && (o.dispatch.None? ==> o.next.counters == NoteAccept(c, now))
      && (o.dispatch.Some? && !CoarseElapsed(c.oldStamp, now) ==>
            o.next.counters == NoteAccept(c, now).(oldStampTimeout := c.newStampTimeout))
      && (o.dispatch.Some? && CoarseElapsed(c.oldStamp, now) ==>
            o.next.counters == NoteAccept(c, now).(
              oldStamp := now,
              fed := c.fed + [c.tmpCounter + 1],
              tmpCounter := 0,
              boxNum := ActiveBox(env, c.fed + [c.tmpCounter + 1]),
              newBoxFlag := true,
              oldStampTimeout := c.newStampTimeout))
  {
  }

  /** A connection whose handle cannot be cloned is dropped: only the
      bookkeeping of `ok_vars_init` survives, and nothing is dispatched. */
  lemma CloneFailedStep<T>(env: Env, s: Loop<T>, now: int, conn: T)
    ensures var o := Step(env, s, CloneFailed(now, conn));
      && o.next.queue == s.queue
      && o.dispatch == None
      && o.next.counters == NoteAccept(s.counters, now)
      && o.next.counters.tmpCounter == s.counters.tmpCounter + 1
  {
  }

  /** An idle poll dispatches exactly when the batch size was fresh or more
      than 50 ms separate the old coarse stamp and now (a coarse tick implies
      both). The dispatch carries the quota of the batch size before the
      cooldown, after which the batch size is the idle value. The old fine
      stamp and the queue never change, and the fresh flag is never
      cleared. A poll without a dispatch is exactly the bookkeeping of
      `err_vars_init`; a dispatch adds the cooldown and, on a coarse tick,
      the tick's fields. */
  lemma WouldBlockStep<T>(env: Env, s: Loop<T>, now: int)
    requires StampsValid(s.counters) && IsStamp(now)
    ensures var o := Step(env, s, WouldBlock(now));
      var c := s.counters;
      && o.next.queue == s.queue
      && (o.dispatch.Some? <==> c.newBoxFlag || FineElapsed(c.oldStamp, now))
      && (o.dispatch.Some? ==>
            && o.dispatch.value.tasks == env.threads
            && o.dispatch.value.quota ==
                 Quota(env, if CoarseElapsed(c.oldStamp, now)
                            then ActiveBox(env, c.fed + [c.tmpCounter])
                            else c.boxNum)
            && o.next.counters.boxNum == IdleBox(env))
      && o.next.counters.oldStampTimeout == c.oldStampTimeout
      && o.next.counters.newStampTimeout == o.next.counters.newStamp == now
      && (c.newBoxFlag ==> o.next.counters.newBoxFlag)
      // what else the step changes, case by case
      && (o.dispatch.None? ==> o.next.counters == NoteIdle(c, now))
      && (o.dispatch.Some? && !CoarseElapsed(c.oldStamp, now) ==>
            o.next.counters == NoteIdle(c, now).(boxNum := IdleBox(env)))
      && (CoarseElapsed(c.oldStamp, now) ==>
            && o.dispatch.Some?
            && o.next.counters == NoteIdle(c, now).(
                 oldStamp := now,
                 fed := c.fed + [c.tmpCounter],
                 tmpCounter := 0,
                 boxNum := IdleBox(env),
                 newBoxFlag := true))
  {
    CoarseImpliesFine(s.counters.oldStamp, now);
  }

  /** Any other accept error is absorbed: nothing changes. */
  lemma OtherErrorStep<T>(env: Env, s: Loop<T>)
    ensures Step(env, s, OtherError) == Stepped(s, None)
  {
  }

  /** The connection (if any) an event appends to the queue. */
  function Arrival<T>(e: Event<T>): seq<T> {
    if e.Accepted? then [e.conn] else []
  }

  /** The connections a sequence of events appends to the queue, in order. */
  function Arrivals<T>(events: seq<Event<T>>): seq<T>
    decreases |events|
  {
    if |events| == 0 then [] else Arrival(events[0]) + Arrivals(events[1..])
  }

  /** The number of ready connections among the events, whether or not their
      enqueue succeeded. */
  function ReadyCount<T>(events: seq<Event<T>>): nat
    decreases |events|
  {
    if |events| == 0 then 0
    else (if events[0].Accepted? || events[0].CloneFailed? then 1 else 0) + ReadyCount(events[1..])
  }

  predicate EventStampValid<T>(e: Event<T>) {
    (e.Accepted? || e.CloneFailed? || e.WouldBlock?) ==> IsStamp(e.now)
  }

  // ---------------------------------------------------------------------
  // Runs

  /** Over any run the stamps stay clock readings. */
  lemma {:induction false} RunKeepsStamps<T>(env: Env, s: Loop<T>, events: seq<Event<T>>)
    requires StampsValid(s.counters)
    requires forall i :: 0 <= i < |events| ==> EventStampValid(events[i])
    ensures StampsValid(Run(env, s, events).last.counters)
    decreases |events|
  {
    if |events| > 0 {
      RunKeepsStamps(env, Step(env, s, events[0]).next, events[1..]);
      RunCons(env, s, events);
    }
  }

  /** Over any run every ready connection is counted exactly once, either in
      a count handed to the rate counter or as still pending, and the rate
      counter's history only grows. */
  lemma {:induction false} RunCountsReady<T>(env: Env, s: Loop<T>, events: seq<Event<T>>)
    ensures Counted(Run(env, s, events).last.counters) == Counted(s.counters) + ReadyCount(events)
    ensures s.counters.fed <= Run(env, s, events).last.counters.fed
    decreases |events|
  {
    if |events| > 0 {
      RunCountsReady(env, Step(env, s, events[0]).next, events[1..]);
      RunCons(env, s, events);
    }
  }

  /** Over any run the acceptor's own effect on the queue is to append
      exactly the successfully enqueued connections, in arrival order; the
      pops of dispatched tasks interleave with these appends as in
      `BoxQueue.Apply`. */
  lemma {:induction false} RunAppendsArrivals<T>(env: Env, s: Loop<T>, events: seq<Event<T>>)
    ensures Run(env, s, events).last.queue == s.queue + Arrivals(events)
    decreases |events|
  {
    if |events| > 0 {
      var o := Step(env, s, events[0]);
      RunAppendsArrivals(env, o.next, events[1..]);
      RunCons(env, s, events);
      assert Arrivals(events) == Arrival(events[0]) + Arrivals(events[1..]);
      AppendAssoc(s.queue, Arrival(events[0]), Arrivals(events[1..]));
    }
  }

  /** A run is its first step followed by the run of the rest. */
  lemma RunCons<T>(env: Env, s: Loop<T>, events: seq<Event<T>>)
    requires |events| > 0
    ensures Run(env, s, events).last == Run(env, Step(env, s, events[0]).next, events[1..]).last
    ensures Run(env, s, events).dispatches ==
              Emitted(Step(env, s, events[0]).dispatch) + Run(env, Step(env, s, events[0]).next, events[1..]).dispatches
  {
  }

  /** Folding over two pieces one after the other is folding over their
      concatenation. */
  lemma {:induction false} FoldSplit<T>(step: (Loop<T>, Event<T>) -> Stepped<T>, s: Loop<T>,
                                        a: seq<Event<T>>, b: seq<Event<T>>)
    ensures Fold(step, s, a + b).last == Fold(step, Fold(step, s, a).last, b).last
    ensures Fold(step, s, a + b).dispatches ==
              Fold(step, s, a).dispatches + Fold(step, Fold(step, s, a).last, b).dispatches
    decreases |a|
  {
    if |a| == 0 {
      assert a + b == b;
    } else {
      var o := step(s, a[0]);
      assert (a + b)[0] == a[0] && (a + b)[1..] == a[1..] + b;
      FoldSplit(step, o.next, a[1..], b);
    }
  }

  /** Running two pieces one after the other is running their concatenation. */
  lemma RunSplit<T>(env: Env, s: Loop<T>, a: seq<Event<T>>, b: seq<Event<T>>)
    ensures Run(env, s, a + b).last == Run(env, Run(env, s, a).last, b).last
    ensures Run(env, s, a + b).dispatches ==
              Run(env, s, a).dispatches + Run(env, Run(env, s, a).last, b).dispatches
  {
    FoldSplit((x, e) => Step(env, x, e), s, a, b);
  }

  lemma SumPrefix(a: seq<nat>, b: seq<nat>)
    requires a <= b
    ensures Sum(a) <= Sum(b)
    ensures |a| == |b| ==> Sum(a) == Sum(b)
    decreases |b|
  {
    if |a| < |b| {
      SumPrefix(a, b[..|b| - 1]);
    } else {
      assert a == b;
    }
  }

  /** The pending count is the number of ready connections since the last
      coarse tick: if no tick fires during the second part of a run, the
      pending count grows by exactly its ready connections. */
  lemma PendingCountsSinceLastTick<T>(env: Env, s: Loop<T>, a: seq<Event<T>>, b: seq<Event<T>>)
    requires |Run(env, s, a + b).last.counters.fed| == |Run(env, s, a).last.counters.fed|
    ensures Run(env, s, a + b).last.counters.tmpCounter ==
              Run(env, s, a).last.counters.tmpCounter + ReadyCount(b)
  {
    var mid := Run(env, s, a).last;
    RunSplit(env, s, a, b);
    RunCountsReady(env, s, a);
    RunCountsReady(env, mid, b);
    var fin := Run(env, mid, b).last;
    SumPrefix(mid.counters.fed, fin.counters.fed);
  }

  /** Once the batch size is fresh, every idle poll until the next ready
      connection dispatches, and the flag stays set. */
  lemma {:induction false} FreshFlagKeepsDispatching<T>(env: Env, s: Loop<T>, events: seq<Event<T>>)
    requires StampsValid(s.counters) && s.counters.newBoxFlag
    requires forall i :: 0 <= i < |events| ==> events[i].WouldBlock? && IsStamp(events[i].now)
    ensures |Run(env, s, events).dispatches| == |events|
    ensures Run(env, s, events).last.counters.newBoxFlag
    decreases |events|
  {
    if |events| > 0 {
      WouldBlockStep(env, s, events[0].now);
      var o := Step(env, s, events[0]);
      FreshFlagKeepsDispatching(env, o.next, events[1..]);
    }
  }

  /** Ready connections never refresh the fine stamps, and right after a
      dispatch for one the two fine stamps agree: so a run without idle polls
      dispatches at most once, however many connections arrive. */
  lemma {:induction false} ReadyOnlyDispatchesAtMostOnce<T>(env: Env, s: Loop<T>, events: seq<Event<T>>)
    requires forall i :: 0 <= i < |events| ==> !events[i].WouldBlock?
    ensures |Run(env, s, events).dispatches| <= 1
    ensures s.counters.oldStampTimeout == s.counters.newStampTimeout ==>
              |Run(env, s, events).dispatches| == 0
    decreases |events|
  {
    if |events| > 0 {
      var o := Step(env, s, events[0]);
      ReadyOnlyDispatchesAtMostOnce(env, o.next, events[1..]);
      if o.dispatch.Some? {
        assert o.next.counters.oldStampTimeout == o.next.counters.newStampTimeout;
      } else {
        assert o.next.counters.oldStampTimeout == s.counters.oldStampTimeout;
        assert o.next.counters.newStampTimeout == s.counters.newStampTimeout;
      }
    }
  }

  /** At start-up the two fine stamps are read one after the other; when the
      two readings agree, ready connections alone never dispatch: the loop
      needs an idle poll to open the first fine-cadence window. */
  lemma StartupNeedsIdlePoll<T>(env: Env, s0: int, s1: int, t: int, q: seq<T>, events: seq<Event<T>>)
    requires forall i :: 0 <= i < |events| ==> !events[i].WouldBlock?
    ensures |Run(env, Loop(Init(env, s0, s1, t, t), q), events).dispatches| == 0
  {
    ReadyOnlyDispatchesAtMostOnce(env, Loop(Init(env, s0, s1, t, t), q), events);
  }

  /** After an idle dispatch the batch size has cooled down: the next idle
      poll, unless a coarse tick re-estimates first, dispatches (if at all)
      with the idle quota, whatever quota the first dispatch carried. */
  lemma IdleCooldown<T>(env: Env, s: Loop<T>, now1: int, now2: int)
    requires StampsValid(s.counters) && IsStamp(now1) && IsStamp(now2)
    requires Step(env, s, WouldBlock(now1)).dispatch.Some?
    ensures var s1 := Step(env, s, WouldBlock(now1)).next;
      var o := Step(env, s1, WouldBlock(now2));
      !CoarseElapsed(s1.counters.oldStamp, now2) ==>
        (o.dispatch.Some? ==> o.dispatch.value == Dispatch(env.threads, Quota(env, IdleBox(env))))
  {
    WouldBlockStep(env, s, now1);
    var s1 := Step(env, s, WouldBlock(now1)).next;
    WouldBlockStep(env, s1, now2);
  }
}
