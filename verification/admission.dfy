/** The admission counters of the accept loop (`StreamResultCounters`) and the
    three helpers that update them. The clock is an input stamp; the rate
    estimator and the float-to-u32 batch formulas are uninterpreted functions
    carried in `Env`. */
module Admission {
  import opened Tick

  /** The loop's fixed configuration. The three magnitudes are the
      configuration's thousandths-scaled integers. `scale(x, m)` stands for
      the float product `(x as f32 * (m as f32 / 1000.0)) as u32`, and
      `xrps(h)` for what the rate counter reports after being fed the counts
      `h`, oldest first; neither is interpreted here. */
  datatype Env = Env(
    threads: nat,
    boxMag: nat,
    initMag: nat,
    xrpsMag: nat,
    scale: (nat, nat) -> nat,
    xrps: seq<nat> -> nat)

  /** Batch size in the active regime, from the rate estimate. */
  function ActiveBox(env: Env, fed: seq<nat>): nat {
    env.scale(env.xrps(fed), env.xrpsMag)
  }

  /** Batch size in the idle regime (the cooldown value). */
  function IdleBox(env: Env): nat {
    env.scale(env.threads, env.initMag)
  }

  /** The per-task quota a dispatch carries for a given batch size. */
  function Quota(env: Env, box: nat): nat {
    env.scale(box, env.boxMag)
  }

  /** The loop's counters. `fed` is the rate counter's state: every count
      handed to it so far, oldest first. */
  datatype Counters = Counters(
    fed: seq<nat>,
    oldStamp: int,
    newStamp: int,
    tmpCounter: nat,
    boxNum: nat,
    newBoxFlag: bool,
    oldStampTimeout: int,
    newStampTimeout: int)

  /** All four stamps are readings of the wrapping clock. */
  predicate StampsValid(c: Counters) {
    IsStamp(c.oldStamp) && IsStamp(c.newStamp)
    && IsStamp(c.oldStampTimeout) && IsStamp(c.newStampTimeout)
  }

  function Sum(s: seq<nat>): nat
    decreases |s|
  {
    if |s| == 0 then 0 else Sum(s[..|s| - 1]) + s[|s| - 1]
  }

  /** Every connection counted so far: those already handed to the rate
      counter plus those still pending. */
  function Counted(c: Counters): nat {
    Sum(c.fed) + c.tmpCounter
  }

  /** The counters at loop start, from four separate clock readings. The
      batch size starts at three per worker thread. */
  function Init(env: Env, s0: int, s1: int, s2: int, s3: int): (c: Counters)
    ensures IsStamp(s0) && IsStamp(s1) && IsStamp(s2) && IsStamp(s3) ==> StampsValid(c)
    ensures Counted(c) == 0 && c.fed == [] && !c.newBoxFlag
    ensures c.boxNum == 3 * env.threads
  {
    Counters([], s0, s1, 0, env.threads * 3, false, s2, s3)
  }

  /** Bookkeeping for a ready connection (`ok_vars_init`): one more pending
      connection, a fresh coarse stamp, and the fresh-batch flag cleared. */
  function NoteAccept(c: Counters, now: int): (r: Counters)
    ensures r.tmpCounter == c.tmpCounter + 1 && Counted(r) == Counted(c) + 1
    ensures r.newStamp == now && !r.newBoxFlag
    ensures r.(tmpCounter := c.tmpCounter, newStamp := c.newStamp, newBoxFlag := c.newBoxFlag) == c
  {
    c.(tmpCounter := c.tmpCounter + 1, newStamp := now, newBoxFlag := false)
  }

  /** Bookkeeping for an idle poll (`err_vars_init`): a fresh fine stamp,
      mirrored into the coarse stamp. */
  function NoteIdle(c: Counters, now: int): (r: Counters)
    ensures r.newStampTimeout == now && r.newStamp == r.newStampTimeout
    ensures r.(newStamp := c.newStamp, newStampTimeout := c.newStampTimeout) == c
  {
    c.(newStampTimeout := now, newStamp := now)
  }

  /** The coarse tick (`if_new_tick_start`). When more than 500 ms separate
      the coarse stamps, the pending count moves into the rate counter, the
      old stamp catches up, the batch size is re-estimated and flagged as
      fresh; otherwise nothing changes. Either way no connection is lost
      from the count. */
  function NewTick(env: Env, c: Counters): (r: Counters)
    ensures CoarseElapsed(c.oldStamp, c.newStamp) ==>
              && r.oldStamp == r.newStamp == c.newStamp
              && r.fed == c.fed + [c.tmpCounter]
              && r.tmpCounter == 0
              && r.boxNum == ActiveBox(env, r.fed)
              && r.newBoxFlag
              && r.(oldStamp := c.oldStamp, fed := c.fed, tmpCounter := c.tmpCounter,
                    boxNum := c.boxNum, newBoxFlag := c.newBoxFlag) == c
    ensures !CoarseElapsed(c.oldStamp, c.newStamp) ==> r == c
    ensures Counted(r) == Counted(c)
  {
    if CoarseElapsed(c.oldStamp, c.newStamp) then
      var fed := c.fed + [c.tmpCounter];
      assert fed[..|fed| - 1] == c.fed;
      c.(oldStamp := c.newStamp, fed := fed, tmpCounter := 0,
         boxNum := ActiveBox(env, fed), newBoxFlag := true)
    else
      c
  }

  /** Right after a tick the two coarse stamps agree, so an immediate second
      call changes nothing. */
  lemma NewTickIdempotent(env: Env, c: Counters)
    ensures NewTick(env, NewTick(env, c)) == NewTick(env, c)
  {
  }

  /** The three helpers keep every stamp a clock reading when the supplied
      time is one. */
  lemma HelpersKeepStamps(env: Env, c: Counters, now: int)
    requires StampsValid(c) && IsStamp(now)
    ensures StampsValid(NoteAccept(c, now))
    ensures StampsValid(NoteIdle(c, now))
    ensures StampsValid(NewTick(env, c))
  {
  }
}
