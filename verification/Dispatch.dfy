/** How requests reach the workers (src/Server.cpp): one-shot epoll, a queue of tasks, a pool.

  A connection that has something to read is handed out once and disarmed; it is armed again
  only after the answer has been sent. Readiness, arrival and scheduling are left open. */
module Dispatch {
  import opened Protocol

  type Conn = int

  datatype Job =
    | Idle
    | Holding(conn: Conn)                // about to receive
    | Serving(conn: Conn, request: Body) // received, not yet answered
    | Answered(conn: Conn)               // sent, not yet re-armed

  datatype Pool = Pool(
    open: set<Conn>,
    armed: set<Conn>,
    batch: seq<Conn>,              // returned by epoll_wait, not yet looked at
    queue: seq<Conn>,
    jobs: map<nat, Job>,
    arrived: map<Conn, seq<Body>>, // all requests a client has sent on this connection
    received: map<Conn, seq<Body>>,
    answered: map<Conn, seq<Body>>)

  datatype Event =
    | Accept(conn: Conn)
    | Arrive(conn: Conn, request: Body)
    | Wait(ready: seq<Conn>)
    | Enqueue
    | Dequeue(worker: nat)
    | Receive(worker: nat)
    | Answer(worker: nat)
    | Rearm(worker: nat)
    | Close(worker: nat)  // an exception while serving

  function At(m: map<Conn, seq<Body>>, c: Conn): seq<Body> { if c in m then m[c] else [] }

  predicate Distinct(s: seq<Conn>) { forall i, j :: 0 <= i < j < |s| ==> s[i] != s[j] }

  ghost predicate Next(a: Pool, e: Event, b: Pool) {
    match e
    case Accept(c) =>
      c !in a.open &&
      b == a.(open := a.open + {c}, armed := a.armed + {c},
        arrived := a.arrived[c := []], received := a.received[c := []], answered := a.answered[c := []])
    case Arrive(c, m) => c in a.open && b == a.(arrived := a.arrived[c := At(a.arrived, c) + [m]])
    case Wait(ready) =>
      a.batch == [] && Distinct(ready) && (forall c :: c in ready ==> c in a.armed) &&
      b == a.(batch := ready, armed := a.armed - set c | c in ready)
    case Enqueue => a.batch != [] && b == a.(batch := a.batch[1..], queue := a.queue + [a.batch[0]])
    case Dequeue(w) =>
      w in a.jobs && a.jobs[w].Idle? && a.queue != [] &&
      b == a.(queue := a.queue[1..], jobs := a.jobs[w := Holding(a.queue[0])])
    case Receive(w) =>
      w in a.jobs && a.jobs[w].Holding? &&
      var c := a.jobs[w].conn;
      var k := |At(a.received, c)|;
      k < |At(a.arrived, c)| &&
      var m := At(a.arrived, c)[k];
      b == a.(jobs := a.jobs[w := Serving(c, m)], received := a.received[c := At(a.received, c) + [m]])
    case Answer(w) =>
      w in a.jobs && a.jobs[w].Serving? &&
      var c := a.jobs[w].conn;
      b == a.(jobs := a.jobs[w := Answered(c)], answered := a.answered[c := At(a.answered, c) + [a.jobs[w].request]])
    case Rearm(w) =>
      w in a.jobs && a.jobs[w].Answered? &&
      b == a.(jobs := a.jobs[w := Idle], armed := a.armed + {a.jobs[w].conn})
    case Close(w) =>
      w in a.jobs && !a.jobs[w].Idle? &&
      b == a.(jobs := a.jobs[w := Idle], open := a.open - {a.jobs[w].conn})
  }

  ghost predicate Initially(a: Pool) {
    && a.open == {} && a.armed == {} && a.batch == [] && a.queue == []
    && forall w :: w in a.jobs ==> a.jobs[w].Idle?
  }

  // ---- Where a connection is ----

  ghost predicate RunsAt(jobs: map<nat, Job>, w: nat, c: Conn) {
    w in jobs && !jobs[w].Idle? && jobs[w].conn == c
  }

  datatype Place = Armed | Batched | Queued | Run(worker: nat)

  ghost predicate IsAt(a: Pool, c: Conn, p: Place) {
    match p
    case Armed => c in a.armed
    case Batched => c in a.batch
    case Queued => c in a.queue
    case Run(w) => RunsAt(a.jobs, w, c)
  }

  /** Every open connection is in exactly one place, and a closed one is nowhere. */
  ghost predicate Placed(a: Pool) {
    && Distinct(a.batch) && Distinct(a.queue)
    && (forall c, p :: IsAt(a, c, p) ==> c in a.open)
    && (forall c, p, q :: IsAt(a, c, p) && IsAt(a, c, q) ==> p == q)
    && (forall c :: c in a.open ==> exists p :: IsAt(a, c, p))
  }

  ghost predicate ServedBy(a: Pool, w: nat, c: Conn) {
    RunsAt(a.jobs, w, c) && a.jobs[w].Serving?
  }

  /** Requests are received in the order of arrival and answered in the order of receipt, and
    at most the one being served is received and not answered. */
  ghost predicate InOrder(a: Pool) {
    forall c :: c in a.open ==> OrderKept(a, c)
  }

  ghost predicate OrderKept(a: Pool, c: Conn) {
    && At(a.received, c) <= At(a.arrived, c)
    && (forall w :: ServedBy(a, w, c) ==> At(a.received, c) == At(a.answered, c) + [a.jobs[w].request])
    && ((forall w :: !ServedBy(a, w, c)) ==> At(a.received, c) == At(a.answered, c))
  }

  lemma {:induction false} PlacedStart(a: Pool)
    requires Initially(a)
    ensures Placed(a) && InOrder(a)
  {
  }

  lemma {:induction false} TakeFirst(s: seq<Conn>)
    requires Distinct(s) && s != []
    ensures s[0] !in s[1..] && Distinct(s[1..]) && forall d :: d in s <==> d == s[0] || d in s[1..]
  {
  }

  lemma {:induction false} AddLast(s: seq<Conn>, c: Conn)
    requires Distinct(s) && c !in s
    ensures Distinct(s + [c]) && forall d :: d in s + [c] <==> d == c || d in s
  {
  }

  lemma {:induction false} AcceptStep(a: Pool, c: Conn, b: Pool)
    requires Placed(a) && Next(a, Accept(c), b)
    ensures Placed(b)
  {
    forall d, p ensures IsAt(b, d, p) <==> IsAt(a, d, p) || (d == c && p == Armed) {}
    forall d | d in b.open ensures exists p :: IsAt(b, d, p) {
      if d == c { assert IsAt(b, d, Armed); } else {
        var p :| IsAt(a, d, p);
        assert IsAt(b, d, p);
      }
    }
  }

  lemma {:induction false} ArriveStep(a: Pool, c: Conn, m: Body, b: Pool)
    requires Placed(a) && Next(a, Arrive(c, m), b)
    ensures Placed(b)
  {
    forall d, p ensures IsAt(b, d, p) <==> IsAt(a, d, p) {}
  }

  lemma {:induction false} WaitStep(a: Pool, ready: seq<Conn>, b: Pool)
    requires Placed(a) && Next(a, Wait(ready), b)
    ensures Placed(b)
  {
    forall d, p ensures IsAt(b, d, p) <==> if d in ready then p == Batched else IsAt(a, d, p) {
      if d in ready {
        assert IsAt(a, d, Armed);
        assert IsAt(a, d, p) ==> p == Armed;
      }
    }
    forall d | d in ready ensures d in a.open { assert IsAt(a, d, Armed); }
    forall d | d in b.open ensures exists p :: IsAt(b, d, p) {
      if d in ready { assert IsAt(b, d, Batched); } else {
        var p :| IsAt(a, d, p);
        assert IsAt(b, d, p);
      }
    }
  }

  /** Moving one connection from its place to another. */
  ghost predicate Moves(a: Pool, b: Pool, c: Conn, to: Place) {
    && c in a.open && b.open == a.open
    && forall d, p :: IsAt(b, d, p) <==> if d == c then p == to else IsAt(a, d, p)
  }

  lemma {:induction false} MovePlaced(a: Pool, b: Pool, c: Conn, to: Place)
    requires Placed(a) && Moves(a, b, c, to) && Distinct(b.batch) && Distinct(b.queue)
    ensures Placed(b)
  {
    forall d | d in b.open ensures exists p :: IsAt(b, d, p) {
      if d == c { assert IsAt(b, d, to); } else {
        var p :| IsAt(a, d, p);
        assert IsAt(b, d, p);
      }
    }
  }

  lemma {:induction false} EnqueueStep(a: Pool, b: Pool)
    requires Placed(a) && Next(a, Enqueue, b)
    ensures Placed(b)
  {
    var c := a.batch[0];
    assert IsAt(a, c, Batched);
    assert !IsAt(a, c, Queued);
    TakeFirst(a.batch);
    AddLast(a.queue, c);
    forall d, p ensures IsAt(b, d, p) <==> if d == c then p == Queued else IsAt(a, d, p) {
      if d == c { assert IsAt(a, c, p) ==> p == Batched; }
    }
    MovePlaced(a, b, c, Queued);
  }

  lemma {:induction false} DequeueStep(a: Pool, w: nat, b: Pool)
    requires Placed(a) && Next(a, Dequeue(w), b)
    ensures Placed(b)
  {
    var c := a.queue[0];
    assert IsAt(a, c, Queued);
    TakeFirst(a.queue);
    forall d, p ensures IsAt(b, d, p) <==> if d == c then p == Run(w) else IsAt(a, d, p) {
      if d == c { assert IsAt(a, c, p) ==> p == Queued; }
    }
    MovePlaced(a, b, c, Run(w));
  }

  /** The steps of a task that keep its connection where it is. */
  lemma {:induction false} WorkStep(a: Pool, e: Event, b: Pool)
    requires Placed(a) && Next(a, e, b) && (e.Receive? || e.Answer?)
    ensures Placed(b)
  {
    forall d, p ensures IsAt(b, d, p) <==> IsAt(a, d, p) {}
  }

  lemma {:induction false} RearmStep(a: Pool, w: nat, b: Pool)
    requires Placed(a) && Next(a, Rearm(w), b)
    ensures Placed(b)
  {
    var c := a.jobs[w].conn;
    assert IsAt(a, c, Run(w));
    forall d, p ensures IsAt(b, d, p) <==> if d == c then p == Armed else IsAt(a, d, p) {
      if d == c { assert IsAt(a, c, p) ==> p == Run(w); }
    }
    MovePlaced(a, b, c, Armed);
  }

  lemma {:induction false} CloseStep(a: Pool, w: nat, b: Pool)
    requires Placed(a) && Next(a, Close(w), b)
    ensures Placed(b)
  {
    var c := a.jobs[w].conn;
    assert IsAt(a, c, Run(w));
    forall d, p ensures IsAt(b, d, p) <==> d != c && IsAt(a, d, p) {
      if d == c { assert IsAt(a, c, p) ==> p == Run(w); }
    }
    forall d | d in b.open ensures exists p :: IsAt(b, d, p) {
      var p :| IsAt(a, d, p);
      assert IsAt(b, d, p);
    }
  }

  lemma {:induction false} PlacedStep(a: Pool, e: Event, b: Pool)
    requires Placed(a) && Next(a, e, b)
    ensures Placed(b)
  {
    match e
    case Accept(c) => AcceptStep(a, c, b);
    case Arrive(c, m) => ArriveStep(a, c, m, b);
    case Wait(ready) => WaitStep(a, ready, b);
    case Enqueue => EnqueueStep(a, b);
    case Dequeue(w) => DequeueStep(a, w, b);
    case Receive(_) => WorkStep(a, e, b);
    case Answer(_) => WorkStep(a, e, b);
    case Rearm(w) => RearmStep(a, w, b);
    case Close(w) => CloseStep(a, w, b);
  }

  // ---- Order of answers ----

  /** A step that leaves a connection's messages and whoever serves it alone. */
  lemma {:induction false} OrderUntouched(a: Pool, b: Pool, c: Conn)
    requires OrderKept(a, c)
    requires At(b.received, c) == At(a.received, c) && At(b.answered, c) == At(a.answered, c)
    requires At(a.arrived, c) <= At(b.arrived, c)
    requires forall w :: (ServedBy(b, w, c) <==> ServedBy(a, w, c)) && (ServedBy(b, w, c) ==> b.jobs[w] == a.jobs[w])
    ensures OrderKept(b, c)
  {
  }

  lemma {:induction false} AcceptOrder(a: Pool, c: Conn, b: Pool)
    requires Placed(a) && InOrder(a) && Next(a, Accept(c), b)
    ensures InOrder(b)
  {
    forall d | d in b.open ensures OrderKept(b, d) {
      if d == c {
        forall w ensures !ServedBy(b, w, c) { assert !IsAt(a, c, Run(w)); }
      } else {
        OrderUntouched(a, b, d);
      }
    }
  }

  lemma {:induction false} ReceiveOrder(a: Pool, w: nat, b: Pool)
    requires Placed(a) && InOrder(a) && Next(a, Receive(w), b)
    ensures InOrder(b)
  {
    var c := a.jobs[w].conn;
    assert IsAt(a, c, Run(w));
    forall v | ServedBy(a, v, c) ensures false { assert IsAt(a, c, Run(v)); }
    forall d | d in b.open ensures OrderKept(b, d) {
      assert OrderKept(a, d);
      if d == c {
        forall v | ServedBy(b, v, c) ensures v == w { assert IsAt(b, c, Run(v)); assert IsAt(a, c, Run(v)); }
        assert ServedBy(b, w, c);
      } else {
        OrderUntouched(a, b, d);
      }
    }
  }

  lemma {:induction false} AnswerOrder(a: Pool, w: nat, b: Pool)
    requires Placed(a) && InOrder(a) && Next(a, Answer(w), b)
    ensures InOrder(b)
  {
    var c := a.jobs[w].conn;
    assert IsAt(a, c, Run(w)) && ServedBy(a, w, c);
    forall d | d in b.open ensures OrderKept(b, d) {
      assert OrderKept(a, d);
      if d == c {
        forall v ensures !ServedBy(b, v, c) { if RunsAt(b.jobs, v, c) { assert IsAt(a, c, Run(v)); } }
      } else {
        OrderUntouched(a, b, d);
      }
    }
  }

  lemma {:induction false} OrderStep(a: Pool, e: Event, b: Pool)
    requires Placed(a) && InOrder(a) && Next(a, e, b)
    ensures InOrder(b)
  {
    match e
    case Accept(c) => AcceptOrder(a, c, b);
    case Receive(w) => ReceiveOrder(a, w, b);
    case Answer(w) => AnswerOrder(a, w, b);
    case Close(w) =>
      forall d | d in b.open ensures OrderKept(b, d) { OrderUntouched(a, b, d); }
    case _ =>
      forall d | d in b.open ensures OrderKept(b, d) { OrderUntouched(a, b, d); }
  }

  // ---- Whole runs ----

  ghost predicate Running(ps: seq<Pool>, es: seq<Event>) {
    && |ps| == |es| + 1 && Initially(ps[0])
    && forall k :: 0 <= k < |es| ==> Next(ps[k], es[k], ps[k + 1])
  }

  lemma {:induction false} AlwaysPlaced(ps: seq<Pool>, es: seq<Event>, k: nat)
    requires Running(ps, es) && k <= |es|
    ensures Placed(ps[k]) && InOrder(ps[k])
  {
    if k == 0 {
      PlacedStart(ps[0]);
    } else {
      AlwaysPlaced(ps, es, k - 1);
      PlacedStep(ps[k - 1], es[k - 1], ps[k]);
      OrderStep(ps[k - 1], es[k - 1], ps[k]);
    }
  }

  /** In every run an open connection is armed, in the current batch, queued or with one
    worker, and never in two of these places; a closed one, whose number may be handed out
    again, is in none. So no two tasks ever touch the same socket. */
  lemma {:induction false} OnePlaceEach(ps: seq<Pool>, es: seq<Event>, k: nat, c: Conn)
    requires Running(ps, es) && k <= |es|
    ensures c in ps[k].open <==> exists p :: IsAt(ps[k], c, p)
    ensures forall p, q :: IsAt(ps[k], c, p) && IsAt(ps[k], c, q) ==> p == q
    ensures forall v, w :: RunsAt(ps[k].jobs, v, c) && RunsAt(ps[k].jobs, w, c) ==> v == w
  {
    AlwaysPlaced(ps, es, k);
    forall v, w | RunsAt(ps[k].jobs, v, c) && RunsAt(ps[k].jobs, w, c) ensures v == w {
      assert IsAt(ps[k], c, Run(v)) && IsAt(ps[k], c, Run(w));
    }
  }

  /** On every open connection the answers given so far answer the first requests that
    arrived, in the order in which they arrived; and a connection that waits to be read has
    no request received and left unanswered. */
  lemma {:induction false} AnswersInOrder(ps: seq<Pool>, es: seq<Event>, k: nat, c: Conn)
    requires Running(ps, es) && k <= |es| && c in ps[k].open
    ensures At(ps[k].answered, c) <= At(ps[k].arrived, c)
    ensures |At(ps[k].received, c)| <= |At(ps[k].answered, c)| + 1
    ensures c in ps[k].armed ==> At(ps[k].received, c) == At(ps[k].answered, c)
  {
    AlwaysPlaced(ps, es, k);
    var a := ps[k];
    assert OrderKept(a, c);
    if w :| ServedBy(a, w, c) {
      assert IsAt(a, c, Run(w));
      assert c in a.armed ==> IsAt(a, c, Armed);
    }
  }
}
