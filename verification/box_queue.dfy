/** The shared admission queue (the `THREADS_BOX` deque) as a sequence, front
    first: the acceptor appends at the back, worker tasks pop from the front. */
module BoxQueue {

  datatype Option<T> = None | Some(value: T)

  /** Result of `thread_box_add`: the queue afterwards and whether the
      handle could be duplicated. */
  datatype Added<T> = Added(queue: seq<T>, ok: bool)

  /** Result of one `handle_connection_s`: the queue afterwards and the
      connection passed to the handler, if any. */
  datatype Popped<T> = Popped(queue: seq<T>, handled: Option<T>)

  /** Appends the connection when its handle could be cloned; otherwise the
      connection is dropped, the call fails and the queue is untouched. */
  function Enqueue<T>(q: seq<T>, conn: T, cloneOk: bool): (r: Added<T>)
    ensures r.ok <==> cloneOk
    ensures !r.ok ==> r.queue == q
    ensures r.ok ==> |r.queue| == |q| + 1 && r.queue[..|q|] == q && r.queue[|q|] == conn
  {
    if cloneOk then Added(q + [conn], true) else Added(q, false)
  }

  /** Pops the front connection and hands it to the handler, or does nothing
      on an empty queue. */
  function HandleNext<T>(q: seq<T>): (r: Popped<T>)
    ensures |q| == 0 ==> r.queue == q && r.handled == None
    ensures |q| > 0 ==> r.handled.Some? && [r.handled.value] + r.queue == q
  {
    if |q| == 0 then Popped(q, None) else Popped(q[1..], Some(q[0]))
  }

  function Min(a: int, b: int): int {
    if a <= b then a else b
  }

  /** One dispatched task run alone: it calls `HandleNext` exactly `quota`
      times, whether or not the queue has run dry. The handled connections
      are the front of the queue, in order. */
  method RunTask<T>(q: seq<T>, quota: nat) returns (rest: seq<T>, handled: seq<T>)
    ensures handled + rest == q
    ensures |handled| == Min(quota, |q|)
  {
    rest := q;
    handled := [];
    var i := 0;
    while i != quota
      invariant 0 <= i <= quota
      invariant handled + rest == q
      invariant |handled| == Min(i, |q|)
    {
      var p := HandleNext(rest);
      if p.handled.Some? {
        handled := handled + [p.handled.value];
      }
      rest := p.queue;
      i := i + 1;
    }
  }

  /** One atomic, lock-protected operation on the queue: an append by the
      acceptor or a pop by any worker task. Concurrent tasks and the acceptor
      interleave these operations in some order. */
  datatype Op<T> = Push(conn: T) | Pop

  /** The connections appended by a sequence of operations, in order. */
  function Pushed<T>(ops: seq<Op<T>>): seq<T>
    decreases |ops|
  {
    if |ops| == 0 then []
    else
      match ops[0]
      case Push(conn) => [conn] + Pushed(ops[1..])
      case Pop => Pushed(ops[1..])
  }

  /** The number of pop attempts in a sequence of operations. */
  function PopCount<T>(ops: seq<Op<T>>): nat
    decreases |ops|
  {
    if |ops| == 0 then 0
    else
      match ops[0]
      case Push(_) => PopCount(ops[1..])
      case Pop => 1 + PopCount(ops[1..])
  }

  /** How many pop attempts in `ops` find the queue non-empty, when it
      holds `len` connections at the start. Only the queue's length is
      tracked: this is the reference for how many connections an
      interleaving hands out. */
  function Served<T>(len: nat, ops: seq<Op<T>>): nat
    decreases |ops|
  {
    if |ops| == 0 then 0
    else
      match ops[0]
      case Push(_) => Served(len + 1, ops[1..])
      case Pop => if len == 0 then Served(0, ops[1..]) else 1 + Served(len - 1, ops[1..])
  }

  datatype Applied<T> = Applied(queue: seq<T>, handled: seq<T>)

  /** Applies an interleaving of operations to the queue, collecting the
      connections handed to the handler. Everything handled followed by what
      is left is exactly the old queue followed by everything appended: no
      connection is lost, none is handled twice, and they leave in FIFO
      order. Every pop attempt hands out a connection unless the queue is
      empty at that moment, so at least as many connections are handled as
      there were pops or connections queued at the start, whichever is
      fewer; exactly, one connection per pop that finds the queue
      non-empty, including connections appended during the interleaving. */
  function Apply<T>(q: seq<T>, ops: seq<Op<T>>): (r: Applied<T>)
    ensures r.handled + r.queue == q + Pushed(ops)
    ensures |r.handled| <= PopCount(ops)
    ensures |r.handled| >= Min(PopCount(ops), |q|)
    ensures |r.handled| == Served(|q|, ops)
    decreases |ops|
  {
    if |ops| == 0 then Applied(q, [])
    else
      match ops[0]
      case Push(conn) =>
        var rest := Apply(Enqueue(q, conn, true).queue, ops[1..]);
        PushFirst(q, conn, ops);
        ServedFirst(|q|, ops);
        rest
      case Pop =>
        var p := HandleNext(q);
        var rest := Apply(p.queue, ops[1..]);
        PopFirst(q, ops);
        ServedFirst(|q|, ops);
        match p.handled
        case None => rest
        case Some(conn) =>
          AppendAssoc([conn], rest.handled, rest.queue);
          Applied(rest.queue, [conn] + rest.handled)
  }

  /** What a leading append contributes to `Pushed` and `PopCount`. */
  lemma PushFirst<T>(q: seq<T>, conn: T, ops: seq<Op<T>>)
    requires |ops| > 0 && ops[0] == Push(conn)
    ensures q + Pushed(ops) == (q + [conn]) + Pushed(ops[1..])
    ensures PopCount(ops) == PopCount(ops[1..])
  {
  }

  /** What a leading operation contributes to `Served`. */
  lemma ServedFirst<T>(len: nat, ops: seq<Op<T>>)
    requires |ops| > 0
    ensures ops[0].Push? ==> Served(len, ops) == Served(len + 1, ops[1..])
    ensures ops[0].Pop? ==>
              Served(len, ops) == if len == 0 then Served(0, ops[1..]) else 1 + Served(len - 1, ops[1..])
  {
  }

  /** What a leading pop attempt contributes to `Pushed` and `PopCount`. */
  lemma PopFirst<T>(q: seq<T>, ops: seq<Op<T>>)
    requires |ops| > 0 && ops[0] == Pop
    ensures Pushed(ops) == Pushed(ops[1..])
    ensures PopCount(ops) == 1 + PopCount(ops[1..])
    ensures |q| > 0 ==> q + Pushed(ops) == [q[0]] + (q[1..] + Pushed(ops[1..]))
  {
    if |q| > 0 {
      ConsAppend(q, Pushed(ops));
    }
  }

  lemma AppendAssoc<T>(a: seq<T>, b: seq<T>, c: seq<T>)
    ensures (a + b) + c == a + (b + c)
  {
  }

  lemma ConsAppend<T>(q: seq<T>, t: seq<T>)
    requires |q| > 0
    ensures q + t == [q[0]] + (q[1..] + t)
  {
    assert q == [q[0]] + q[1..];
  }

  /** No two positions of `s` hold the same connection. */
  ghost predicate Distinct<T>(s: seq<T>) {
    forall i, j :: 0 <= i < j < |s| ==> s[i] != s[j]
  }

  /** When every connection ever queued is a distinct handle, no handle is
      handed to the handler twice, and the handled ones are a prefix of the
      queue-then-appends order. */
  lemma HandledAtMostOnce<T>(q: seq<T>, ops: seq<Op<T>>)
    requires Distinct(q + Pushed(ops))
    ensures Distinct(Apply(q, ops).handled)
    ensures Apply(q, ops).handled == (q + Pushed(ops))[..|Apply(q, ops).handled|]
  {
    var r := Apply(q, ops);
    var all := q + Pushed(ops);
    assert all == r.handled + r.queue;
    forall i, j | 0 <= i < j < |r.handled|
      ensures r.handled[i] != r.handled[j]
    {
      assert r.handled[i] == all[i] && r.handled[j] == all[j];
    }
  }

  /** `n` pop attempts in a row, as issued by the tasks of one dispatch. */
  function Pops<T>(n: nat): (ops: seq<Op<T>>)
    ensures |ops| == n && Pushed(ops) == [] && PopCount(ops) == n
    decreases n
  {
    if n == 0 then [] else [Pop] + Pops(n - 1)
  }

  /** A run of `n` pop attempts with no appends interleaved hands out
      exactly the first `n` connections, or the whole queue if it is
      shorter. */
  lemma {:induction false} DrainPrefix<T>(q: seq<T>, n: nat)
    ensures Apply(q, Pops(n)).handled == q[..Min(n, |q|)]
    decreases n
  {
    if n > 0 {
      ApplyPop(q, Pops(n - 1));
      if |q| == 0 {
        DrainPrefix(q, n - 1);
      } else {
        DrainPrefix(q[1..], n - 1);
        ConsPrefix(q, Min(n, |q|));
      }
    }
  }

  lemma ConsPrefix<T>(q: seq<T>, k: nat)
    requires 0 < k <= |q|
    ensures [q[0]] + q[1..][..k - 1] == q[..k]
  {
    var lhs := [q[0]] + q[1..][..k - 1];
    assert |lhs| == k;
    forall i | 0 <= i < k
      ensures lhs[i] == q[i]
    {
      if i > 0 {
        assert lhs[i] == q[1..][..k - 1][i - 1];
      }
    }
  }

  /** A pop attempt followed by more operations. */
  lemma ApplyPop<T>(q: seq<T>, ops: seq<Op<T>>)
    ensures |q| == 0 ==> Apply(q, [Pop] + ops) == Apply(q, ops)
    ensures |q| > 0 ==> Apply(q, [Pop] + ops).handled == [q[0]] + Apply(q[1..], ops).handled
  {
    assert ([Pop] + ops)[0] == Pop && ([Pop] + ops)[1..] == ops;
  }

  /** One leading operation of an interleaving, unfolded: an append, a pop
      on an empty queue, or a pop that hands out the front. */
  lemma ApplyHead<T>(q: seq<T>, ops: seq<Op<T>>)
    requires |ops| > 0
    ensures ops[0].Push? ==> Apply(q, ops) == Apply(q + [ops[0].conn], ops[1..])
    ensures ops[0].Pop? && |q| == 0 ==> Apply(q, ops) == Apply(q, ops[1..])
    ensures ops[0].Pop? && |q| > 0 ==>
              Apply(q, ops) == Applied(Apply(q[1..], ops[1..]).queue, [q[0]] + Apply(q[1..], ops[1..]).handled)
  {
  }

  /** Running two interleavings one after the other is running their
      concatenation: the second starts from the queue the first leaves, and
      the handled connections are those of the first followed by those of
      the second. */
  lemma {:induction false} ApplySplit<T>(q: seq<T>, a: seq<Op<T>>, b: seq<Op<T>>)
    ensures Apply(q, a + b).handled == Apply(q, a).handled + Apply(Apply(q, a).queue, b).handled
    ensures Apply(q, a + b).queue == Apply(Apply(q, a).queue, b).queue
    decreases |a|
  {
    if |a| == 0 {
      assert a + b == b;
    } else {
      var ab := a + b;
      assert ab[0] == a[0] && ab[1..] == a[1..] + b;
      ApplyHead(q, ab);
      ApplyHead(q, a);
      match a[0]
      case Push(conn) =>
        ApplySplit(q + [conn], a[1..], b);
      case Pop =>
        if |q| == 0 {
          ApplySplit(q, a[1..], b);
        } else {
          ApplySplit(q[1..], a[1..], b);
          var r := Apply(q[1..], a[1..]);
          AppendAssoc([q[0]], r.handled, Apply(r.queue, b).handled);
        }
    }
  }

  /** At least as many pop attempts as queued connections empty the queue,
      handing out every connection in order. */
  lemma DrainAll<T>(q: seq<T>, n: nat)
    requires n >= |q|
    ensures Apply(q, Pops(n)).handled == q
    ensures Apply(q, Pops(n)).queue == []
  {
    DrainPrefix(q, n);
    assert q[..Min(n, |q|)] == q;
    var d := Apply(q, Pops(n));
    assert d.handled + d.queue == q + [];
  }

  /** Whatever interleaving came first, enough pop attempts afterwards hand
      every connection ever queued or appended to the handler, each exactly
      once and in FIFO order, and leave the queue empty. */
  lemma EveryConnectionServed<T>(q: seq<T>, ops: seq<Op<T>>, n: nat)
    requires n >= |q| + |Pushed(ops)|
    ensures Apply(q, ops + Pops(n)).handled == q + Pushed(ops)
    ensures Apply(q, ops + Pops(n)).queue == []
  {
    var r := Apply(q, ops);
    assert |r.handled| + |r.queue| == |q| + |Pushed(ops)|;
    DrainAll(r.queue, n);
    ApplySplit(q, ops, Pops(n));
  }

  /** One dispatch of `tasks` tasks with quota `quota` each, with no appends
      interleaved, hands out exactly the first `tasks * quota` connections
      (or the whole queue if it is shorter) and leaves the rest in place;
      with zero tasks or a zero quota nothing is dequeued. */
  lemma DispatchDrains<T>(q: seq<T>, tasks: nat, quota: nat)
    ensures Apply(q, Pops(tasks * quota)).handled == q[..Min(tasks * quota, |q|)]
    ensures Apply(q, Pops(tasks * quota)).queue == q[Min(tasks * quota, |q|)..]
    ensures tasks == 0 || quota == 0 ==> Apply(q, Pops(tasks * quota)).queue == q
  {
    var n := tasks * quota;
    DrainPrefix(q, n);
    var r := Apply(q, Pops(n));
    assert q + Pushed(Pops<T>(n)) == q;
    assert q == q[..Min(n, |q|)] + q[Min(n, |q|)..];
    if tasks == 0 {
      assert n == 0 * quota == 0;
    } else if quota == 0 {
      assert n == tasks * 0 == 0;
    }
  }
}
