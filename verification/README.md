# Box-mode connection admission, modelled in Dafny

This project models the decision logic of the box-mode accept loop of Tiny
Tiny Web (`src/boxmode.rs`). The loop polls a non-blocking listener. Each
ready connection goes into a shared queue (the "threads box"). Now and then
the loop asks the worker pool for a batch of tasks, and each task pops a
fixed number of connections from the front of the queue. That number, the
per-task quota, is derived from a batch size. The batch size is re-estimated
from the request rate on a 500 ms "coarse" tick and cooled down to an idle
value after dispatches made while the listener is idle.

Time, the network and the thread pool are taken out:

- Each clock reading is an input stamp in [0,1000).
- Each accept outcome is an input event: `Accepted`, `CloneFailed`,
  `WouldBlock` or `OtherError`.
- A dispatch is an emitted record `Dispatch(tasks, quota)`.

The modules follow the structure of the source:

- `Tick` (`tick.dfy`): the two wraparound predicates `is_nst_gt_ost_timeout`
  and `is_nst_gt_ost_helfsec`, proved against the reference distance
  `(new - old) mod 1000`.
- `BoxQueue` (`box_queue.dfy`): the queue as a sequence.
  - `thread_box_add` is `Enqueue`; `handle_connection_s` is `HandleNext`.
  - A dispatched task's loop is `RunTask`.
  - The lock-protected pushes and pops of the acceptor and of concurrent
    tasks are modelled as an arbitrary interleaving of atomic operations
    (`Apply`).
- `Admission` (`admission.dfy`): `StreamResultCounters` as the immutable
  record `Counters`, and the helpers `ok_vars_init` (`NoteAccept`),
  `err_vars_init` (`NoteIdle`) and `if_new_tick_start` (`NewTick`).
  - The rate counter's state is the history `fed` of the counts handed to
    `change`.
  - `Env.xrps` is an uninterpreted function of that history.
  - `Env.scale(x, m)` stands for every `(x as f32 * (m / 1000.0)) as u32`
    product in the source, also uninterpreted.
- `AcceptLoop` (`accept_loop.dfy`): one iteration of the `for` loop as the
  pure function `Step`, with its two branches `OnReady` and `OnIdle`, and
  `Run` over a sequence of events. The loop's `queue` holds the acceptor's
  appends only; the tasks' pops are those of `BoxQueue.Apply`.

Three details of the code that the model keeps as written:

- `ok_vars_init` runs before `thread_box_add`. So a connection whose handle
  cannot be cloned is still counted as pending, still refreshes the coarse
  stamp and still clears the fresh-batch flag.
- A dispatched task calls `handle_connection_s` exactly `quota` times, with
  no early exit. Pops from an empty queue do nothing.
- The batch formulas truncate with `as u32`. The model does not fix a
  rounding rule for them.

Three consequences of the code are proved as lemmas:

- A ready connection never refreshes `new_stamp_timeout`. Only idle polls do
  that. So a run of ready connections with no idle poll dispatches at most
  once (`ReadyOnlyDispatchesAtMostOnce`).
- An idle poll never clears `flag_new_box_num`. So after a coarse tick
  during idleness, every idle poll dispatches until the next ready
  connection (`FreshFlagKeepsDispatching`).
- The two fine stamps are read back to back at start-up. When the readings
  agree, ready connections alone never dispatch before the first idle poll
  (`StartupNeedsIdlePoll`).

## Model

| member | source | states |
|---|---|---|
| Tick.FineElapsed | src/boxmode.rs:156-165 | For stamps in [0,1000), true exactly when the wrapped distance from old to new, (new - old) mod 1000, exceeds 50 |
| Tick.CoarseElapsed | src/boxmode.rs:167-176 | For stamps in [0,1000), true exactly when the wrapped distance from old to new exceeds 500 |
| Tick.Exceeds | src/boxmode.rs:156-176 | The shared shape of both predicates (signed difference, then once around the clock when negative) equals "wrapped distance > limit" for any limit |
| Tick.BoundaryCases | src/boxmode.rs:156-176 | Equal stamps are never elapsed; a distance of exactly 50 (500) is not elapsed and 51 (501) is, across the wrap too |
| Tick.WrappedExamples | src/boxmode.rs:156-176 | (990, 45) is past the fine cadence, (990, 10) is not; (400, 901) is past the coarse cadence, (400, 900) is not |
| Tick.CoarseImpliesFine | src/boxmode.rs:156-176 | Whenever more than 500 ms have passed, more than 50 ms have passed |
| BoxQueue.Enqueue | src/boxmode.rs:138-154 | Succeeds exactly when the handle clones; on success the queue gains exactly the connection at the back, on failure it is unchanged |
| BoxQueue.HandleNext | src/boxmode.rs:108-114 | On an empty queue nothing is handled and the queue is unchanged; otherwise the handled connection followed by the new queue is the old queue |
| BoxQueue.RunTask | src/boxmode.rs:62-73 | A task that calls the pop exactly `quota` times handles min(quota, length) connections, taken from the front in order, and leaves the rest |
| BoxQueue.Apply | src/boxmode.rs:108-154 | Under any interleaving of appends and pops, handled connections followed by the remaining queue equal the old queue followed by the appends; exactly one connection is handled per pop that finds the queue non-empty, counted by the length-only reference `Served`, and so at most the pops attempted and at least min(pops attempted, initial length) |
| BoxQueue.ApplySplit | src/boxmode.rs:108-154 | Two interleavings run back to back act as their concatenation: the second starts from the queue the first leaves, and the handled connections are those of the first then those of the second |
| BoxQueue.EveryConnectionServed | src/boxmode.rs:48-154 | From any queue, including the empty one the loop starts with, and after any interleaving, at least as many further pops as connections ever queued or appended hand every one of them to the handler exactly once, in FIFO order, and leave the queue empty |
| BoxQueue.HandledAtMostOnce | src/boxmode.rs:108-154 | If all queued handles are distinct, no handle is handed to the handler twice, and the handled ones are a prefix of queue-then-appends (FIFO) |
| BoxQueue.DrainPrefix | src/boxmode.rs:62-72 | `n` pop attempts with no appends in between hand out exactly the first min(n, length) connections |
| BoxQueue.DrainAll | src/boxmode.rs:62-73 | At least as many pop attempts as queued connections hand out the whole queue in order and leave it empty |
| BoxQueue.DispatchDrains | src/boxmode.rs:62-74 | With no appends interleaved, a dispatch of `tasks` tasks with quota `quota` drains exactly the first min(tasks*quota, length) connections and leaves the rest; zero tasks or zero quota dequeue nothing |
| Admission.Init | src/boxmode.rs:38-47 | The initial counters have valid stamps when the clock readings are valid, nothing counted, no fresh flag, and three batches per worker thread |
| Admission.NoteAccept | src/boxmode.rs:121-125 | Pending count grows by exactly one, the coarse new stamp becomes the reading, the fresh flag is cleared, and no other field changes |
| Admission.NoteIdle | src/boxmode.rs:116-119 | Both new stamps become the reading and no other field changes |
| Admission.NewTick | src/boxmode.rs:127-136 | When the coarse cadence has elapsed: old stamp catches up, the pending count is handed to the rate counter and reset, the batch size is re-estimated from the new history, the fresh flag is set, nothing else changes; otherwise nothing changes; the number of counted connections is preserved |
| Admission.NewTickIdempotent | src/boxmode.rs:127-136 | Two coarse-tick checks in a row act like one |
| Admission.HelpersKeepStamps | src/boxmode.rs:116-136 | The three helpers keep every stamp in [0,1000) when the reading is |
| Admission.ActiveBox | src/boxmode.rs:132-133 | No contract of its own: the uninterpreted stand-in for the active batch size, `get_xrps()` scaled by the prediction magnitude; its values are characterised by Admission.NewTick, AcceptLoop.AcceptedStep and AcceptLoop.WouldBlockStep |
| Admission.IdleBox | src/boxmode.rs:97-98 | No contract of its own: the uninterpreted stand-in for the idle batch size, the thread count scaled by the initial magnitude; characterised by AcceptLoop.WouldBlockStep and AcceptLoop.IdleCooldown |
| Admission.Quota | src/boxmode.rs:65 | No contract of its own: the uninterpreted stand-in for a task's pop count, the batch size scaled by the per-thread magnitude (the same formula is repeated at line 87); characterised by AcceptLoop.AcceptedStep and AcceptLoop.WouldBlockStep |
| AcceptLoop.Emit | src/boxmode.rs:62-74 | No contract of its own: the dispatch `threadpool.add(threads_num, func)` with the quota the task closure computes from the batch size; its tasks and quota are characterised by AcceptLoop.AcceptedStep and AcceptLoop.WouldBlockStep |
| AcceptLoop.Step | src/boxmode.rs:50-104 | One iteration of the loop body, whatever the accept produced: it counts a ready connection exactly once (pending or handed to the rate counter), only appends to the rate history, only appends the enqueued connection to the queue, and keeps every stamp in [0,1000) when the reading is |
| AcceptLoop.OnReady | src/boxmode.rs:52-76 | No contract of its own: the `Ok(stream)` branch; characterised by AcceptLoop.AcceptedStep and AcceptLoop.CloneFailedStep |
| AcceptLoop.OnIdle | src/boxmode.rs:78-100 | No contract of its own: the `WouldBlock` branch; characterised by AcceptLoop.WouldBlockStep |
| AcceptLoop.AcceptedStep | src/boxmode.rs:52-76 | An enqueued connection is appended; a dispatch happens exactly when the fine stamps are more than 50 ms apart; it carries the quota of the re-estimated batch size when the coarse cadence elapsed, of the previous one otherwise; afterwards the old fine stamp equals the new one; without a dispatch the counters are exactly those of `ok_vars_init`, and a dispatch changes only the old fine stamp and, on a coarse tick, the tick's fields |
| AcceptLoop.CloneFailedStep | src/boxmode.rs:52-57 | A failed clone leaves the queue alone, dispatches nothing and keeps only the bookkeeping of a ready connection |
| AcceptLoop.WouldBlockStep | src/boxmode.rs:78-100 | An idle poll dispatches exactly when the fresh flag was set or more than 50 ms passed since the old coarse stamp; the quota is that of the batch size before the cooldown, afterwards the batch size is the idle value; old fine stamp and queue unchanged; the flag is never cleared; without a dispatch the counters are exactly those of `err_vars_init`, and a dispatch changes only the batch size and, on a coarse tick (which always dispatches), the tick's fields |
| AcceptLoop.OtherErrorStep | src/boxmode.rs:102 | Any other accept error changes nothing and dispatches nothing |
| AcceptLoop.Run | src/boxmode.rs:50-104 | No contract of its own: the `for stream in listener.incoming()` loop over accept outcomes; characterised by AcceptLoop.RunKeepsStamps, AcceptLoop.RunCountsReady, AcceptLoop.RunAppendsArrivals and AcceptLoop.RunSplit |
| AcceptLoop.RunKeepsStamps | src/boxmode.rs:50-104 | Any run keeps every stamp in [0,1000) |
| AcceptLoop.RunCountsReady | src/boxmode.rs:50-104 | Over any run, counts handed to the rate counter plus the pending count grow by exactly the number of ready connections, and the rate history only grows |
| AcceptLoop.RunAppendsArrivals | src/boxmode.rs:50-57 | Over any run the acceptor appends exactly the successfully enqueued connections, in arrival order, and removes nothing (task pops are covered by BoxQueue.Apply) |
| AcceptLoop.PendingCountsSinceLastTick | src/boxmode.rs:121-136 | If no coarse tick fires during a stretch of the run, the pending count grows by exactly the ready connections of that stretch |
| AcceptLoop.FreshFlagKeepsDispatching | src/boxmode.rs:78-99 | From a state with the fresh flag set, every idle poll dispatches and the flag stays set |
| AcceptLoop.ReadyOnlyDispatchesAtMostOnce | src/boxmode.rs:52-76 | A run with no idle poll dispatches at most once, and not at all if the fine stamps already agree |
| AcceptLoop.StartupNeedsIdlePoll | src/boxmode.rs:38-76 | From the initial counters with equal fine-stamp readings, any run without an idle poll dispatches nothing |
| AcceptLoop.IdleCooldown | src/boxmode.rs:81-99 | After an idle dispatch, the next idle poll dispatches, if at all, with the idle quota unless a coarse tick re-estimates first |

## Left out

- Socket work (`set_nonblocking` and its warning, `incoming()`, `try_clone`, `handle_connection`): operating-system and network I/O. Clone success is the choice between the `Accepted` and `CloneFailed` events. The handler is not modelled beyond receiving the popped connection.
- Concurrency machinery (`ThreadPool::add`, `Arc`, `Mutex`, the `THREADS_BOX` and `GLOBAL_CONFIG` globals): a dispatch is an emitted record. The queue is a single sequence. The concurrency of tasks is the arbitrary interleaving of atomic pushes and pops in `BoxQueue.Apply`.
- The clock (`Time::msec().result_timeerr_default()`): external code. Each reading is an input stamp.
- `ReqCounter` internals (`change`, `get_xrps`): not part of this model. They are the uninterpreted `Env.xrps` over the history of counts.
- Float arithmetic and the `as u32` truncation (lines 33-36, 65, 87, 97-98, 132-133): the uninterpreted `Env.scale`. Rounding and saturation are not verified.
- Logging (`log!`, `LOG`) and `exit(0)`: diagnostics and process exit.
- Admission.NoteAccept: `tmp_counter` is a `u32` but is modelled as unbounded. Wrap-around or a panic would need 2^32 ready connections without a coarse tick.
- Admission.Init: `threads_num * 3` is a `u32` product but is modelled exactly, without overflow.
- AcceptLoop.WouldBlockStep: the dispatch condition is stated in terms of the previous state only for stamps in [0,1000). Outside that range the predicates have no modular meaning.
