/** Whole runs of the scheduler: refinement of one stable priority queue when ids are not reused
    while still known, what cancellation guarantees, conservation, and the two ways reused ids
    break the refinement. */
module SchedulerRuns {
  import opened Scheduler
  import opened SchedulerQueue

  // ---- the specification: one queue ------------------------------------------------------------

  datatype Spec = Spec(queue: seq<Request>, closed: bool, capacity: nat)

  function SpecStep(a: Spec, call: Call): Spec {
    match call
    case Submit(r) => if a.closed || |a.queue| >= a.capacity then a else a.(queue := Insert(a.queue, r))
    case Next => if a.queue == [] then a else a.(queue := a.queue[1..])
    case Cancel(id) => if a.closed then a else a.(queue := Remove(a.queue, id))
    case Shutdown => a.(closed := true)
  }

  /** The replies the specification allows. Cancelling an id that is not in the queue may still
      succeed: its tombstone can be in place. */
  ghost predicate Allows(a: Spec, call: Call, reply: Reply) {
    match call
    case Submit(r) =>
      reply == Returned(if a.closed then Err(ShuttingDown)
                        else if |a.queue| >= a.capacity then Err(QueueFull(a.capacity))
                        else Ok)
    case Next =>
      reply == Polled(if a.queue != [] then Item(a.queue[0]) else if a.closed then Drained else Wait)
    case Cancel(id) =>
      if a.closed then reply == Returned(Err(ShuttingDown))
      else reply == Returned(Ok) || (reply == Returned(Err(NotFound(id))) && id !in Ids(a.queue))
    case Shutdown => reply == Returned(Ok)
  }

  function SpecRun(a: Spec, calls: seq<Call>): Spec
    decreases |calls|
  {
    if calls == [] then a else SpecRun(SpecStep(a, calls[0]), calls[1..])
  }

  ghost predicate AllowsAll(a: Spec, calls: seq<Call>, replies: seq<Reply>)
    requires |calls| == |replies|
    decreases |calls|
  {
    calls == [] || (Allows(a, calls[0], replies[0]) && AllowsAll(SpecStep(a, calls[0]), calls[1..], replies[1..]))
  }

  function Abstract(s: State): Spec {
    Spec(Pending(s.buckets), s.shuttingDown, s.capacity)
  }

  // ---- the specification is a stable priority queue --------------------------------------------

  ghost predicate Ordered(q: seq<Request>) {
    forall i, j :: 0 <= i < j < |q| ==> Rank(q[i].priority) >= Rank(q[j].priority)
  }

  function OfPriority(q: seq<Request>, p: Priority): seq<Request> {
    if q == [] then [] else (if q[0].priority == p then [q[0]] else []) + OfPriority(q[1..], p)
  }

  lemma {:induction false} InsertAdds(q: seq<Request>, r: Request)
    ensures multiset(Insert(q, r)) == multiset(q) + multiset{r}
    ensures forall x :: x in Insert(q, r) <==> x == r || x in q
  {
    if q != [] {
      assert q == [q[0]] + q[1..];
      InsertAdds(q[1..], r);
    }
  }

  lemma {:induction false} InsertKeepsOrder(q: seq<Request>, r: Request)
    requires Ordered(q)
    ensures Ordered(Insert(q, r))
  {
    if q == [] {
    } else if Rank(q[0].priority) < Rank(r.priority) {
      assert forall x :: x in q ==> exists i :: 0 <= i < |q| && x == q[i];
      OrderedCons(r, q);
    } else {
      InsertKeepsOrder(q[1..], r);
      InsertAdds(q[1..], r);
      OrderedCons(q[0], Insert(q[1..], r));
    }
  }

  lemma {:induction false} OrderedTail(q: seq<Request>)
    requires Ordered(q) && q != []
    ensures Ordered(q[1..]) && forall x :: x in q ==> Rank(x.priority) <= Rank(q[0].priority)
  {
  }

  /** Insertion into an ordered queue keeps it ordered and appends to the requests of its own
      priority, leaving the other priorities alone. */
  lemma {:induction false} InsertIsStable(q: seq<Request>, r: Request, p: Priority)
    requires Ordered(q)
    ensures Ordered(Insert(q, r))
    ensures OfPriority(Insert(q, r), p) == OfPriority(q, p) + if r.priority == p then [r] else []
  {
    InsertKeepsOrder(q, r);
    InsertAppends(q, r, p);
  }

  lemma {:induction false} InsertAppends(q: seq<Request>, r: Request, p: Priority)
    requires Ordered(q)
    ensures OfPriority(Insert(q, r), p) == OfPriority(q, p) + OfPriority([r], p)
  {
    if q == [] {
    } else {
      OrderedTail(q);
      InsertCons(q, r);
      hide Ordered, Insert, OfPriority;
      if Rank(q[0].priority) < Rank(r.priority) {
        OfPriorityConcat([r], q, p);
        NothingAbove(q, r.priority);
      } else {
        InsertAppends(q[1..], r, p);
        AppendsBehind(q[0], q[1..], Insert(q[1..], r), r, p);
        assert [q[0]] + q[1..] == q;
      }
    }
  }

  lemma {:induction false} AppendsBehind(x: Request, q: seq<Request>, q': seq<Request>, r: Request, p: Priority)
    requires OfPriority(q', p) == OfPriority(q, p) + OfPriority([r], p)
    ensures OfPriority([x] + q', p) == OfPriority([x] + q, p) + OfPriority([r], p)
  {
    OfPriorityConcat([x], q', p);
    OfPriorityConcat([x], q, p);
    hide OfPriority;
  }

  lemma {:induction false} OfPriorityConcat(q: seq<Request>, q': seq<Request>, p: Priority)
    ensures OfPriority(q + q', p) == OfPriority(q, p) + OfPriority(q', p)
  {
    if q == [] {
      assert q + q' == q';
    } else {
      assert (q + q')[0] == q[0] && (q + q')[1..] == q[1..] + q';
      OfPriorityConcat(q[1..], q', p);
    }
  }

  lemma {:induction false} InsertCons(q: seq<Request>, r: Request)
    requires q != []
    ensures Insert(q, r) == if Rank(q[0].priority) < Rank(r.priority) then [r] + q else [q[0]] + Insert(q[1..], r)
  {
  }

  lemma {:induction false} OrderedCons(x: Request, q: seq<Request>)
    requires Ordered(q) && forall y :: y in q ==> Rank(x.priority) >= Rank(y.priority)
    ensures Ordered([x] + q)
  {
  }

  lemma {:induction false} NothingAbove(q: seq<Request>, p: Priority)
    requires forall x :: x in q ==> Rank(x.priority) < Rank(p)
    ensures OfPriority(q, p) == []
  {
    if q != [] {
      NothingAbove(q[1..], p);
    }
  }

  // ---- reuse of ids ------------------------------------------------------------------------------

  /** No id is queued twice, and every queued id is known. */
  ghost predicate Tidy(b: Buckets) {
    b.known == Ids(All(b)) && Unique(All(b))
  }

  ghost predicate Unique(q: seq<Request>) {
    forall id :: Copies(q, id) <= 1
  }

  /** The caller's rule: an accepted id was not known. */
  ghost predicate Fresh(s: State, calls: seq<Call>)
    decreases |calls|
  {
    calls == []
    || ((calls[0].Submit? && SubmitOutcome(s) == Ok ==> calls[0].request.id !in s.buckets.known)
        && Fresh(Step(s, calls[0]).after, calls[1..]))
  }

  lemma {:induction false} PopFromTidy(q: seq<Request>, c: set<RequestId>)
    requires Unique(q)
    ensures var p := PopFrom(q, c, Ids(q)); p.known == Ids(p.rest) && Unique(p.rest)
  {
    if q == [] {
    } else {
      assert q == [q[0]] + q[1..];
      IdsOfConcat([q[0]], q[1..]);
      CopiesPositive(q[1..], q[0].id);
      assert Copies(q, q[0].id) <= 1;
      assert Ids(q) - {q[0].id} == Ids(q[1..]);
      assert Unique(q[1..]) by {
        forall id
          ensures Copies(q[1..], id) <= 1
        {
          assert Copies(q, id) <= 1;
        }
      }
      if q[0].id in c {
        PopFromTidy(q[1..], c - {q[0].id});
      }
    }
  }

  lemma {:induction false} EnqueueTidy(b: Buckets, r: Request, capacity: nat)
    requires Inv(b, capacity) && |Pending(b)| < capacity && Tidy(b) && r.id !in b.known
    ensures Tidy(Enqueue(b, r))
  {
    EnqueuePlace(b, r);
    var p, q := AtLeast(b, r.priority), Below(b, r.priority);
    IdsOfConcat(p, q);
    IdsOfConcat(p, [r]);
    IdsOfConcat(p + [r], q);
    hide AtLeast, Below, All;
    CopiesPositive(p + q, r.id);
    forall id
      ensures Copies(p + [r] + q, id) <= 1
    {
      CopiesConcat(p, q, id);
      CopiesConcat(p, [r], id);
      CopiesConcat(p + [r], q, id);
      assert Copies(p + q, id) <= 1;
    }
  }

  lemma {:induction false} StepKeepsTidy(s: State, call: Call)
    requires Valid(s) && Tidy(s.buckets) && Fresh(s, [call])
    ensures Tidy(Step(s, call).after.buckets)
  {
    match call
    case Submit(r) =>
      if SubmitOutcome(s) == Ok {
        LengthIsPending(s.buckets, s.capacity);
        EnqueueTidy(s.buckets, r, s.capacity);
      }
    case Next =>
      PopNextIsPopFrom(s.buckets);
      PopFromTidy(All(s.buckets), s.buckets.cancelled);
    case Cancel(id) =>
    case Shutdown =>
  }

  // ---- refinement ----------------------------------------------------------------------------------

  lemma {:induction false} RemoveAbsent(q: seq<Request>, id: RequestId)
    requires id !in Ids(q)
    ensures Remove(q, id) == q
  {
    if q != [] {
      assert q == [q[0]] + q[1..];
      IdsOfConcat([q[0]], q[1..]);
      RemoveAbsent(q[1..], id);
    }
  }

  lemma {:induction false} CancelRefines(s: State, id: RequestId)
    requires Valid(s) && Tidy(s.buckets)
    ensures Abstract(Step(s, Cancel(id)).after) == SpecStep(Abstract(s), Cancel(id))
    ensures Allows(Abstract(s), Cancel(id), Step(s, Cancel(id)).reply)
  {
    var b := s.buckets;
    PendingCopies(All(b), b.cancelled, id);
    CopiesPositive(Pending(b), id);
    CopiesPositive(All(b), id);
    assert Copies(All(b), id) <= 1;
    if id in Ids(All(b)) {
      CancelRemoves(All(b), b.cancelled, id);
    }
    if id !in Ids(Pending(b)) {
      RemoveAbsent(Pending(b), id);
    }
  }

  lemma {:induction false} StepRefines(s: State, call: Call)
    requires Valid(s) && Tidy(s.buckets) && Fresh(s, [call])
    ensures Abstract(Step(s, call).after) == SpecStep(Abstract(s), call)
    ensures Allows(Abstract(s), call, Step(s, call).reply)
  {
    LengthIsPending(s.buckets, s.capacity);
    match call
    case Submit(r) =>
      if SubmitOutcome(s) == Ok {
        SubmitInserts(s.buckets, r, s.capacity);
      }
    case Next =>
      NextTakesHead(s);
      if Pending(s.buckets) == [] {
        EmptyQueue(EMPTY);
      }
    case Cancel(id) => CancelRefines(s, id);
    case Shutdown =>
  }

  /** Under the caller's rule, every run replies and ends as the one stable priority queue does. */
  lemma {:induction false} RunRefines(s: State, calls: seq<Call>)
    requires Valid(s) && Tidy(s.buckets) && Fresh(s, calls)
    ensures Abstract(Run(s, calls)) == SpecRun(Abstract(s), calls)
    ensures |Replies(s, calls)| == |calls| && AllowsAll(Abstract(s), calls, Replies(s, calls))
    decreases |calls|
  {
    if calls != [] {
      assert Fresh(s, [calls[0]]);
      StepRefines(s, calls[0]);
      StepKeepsValid(s, calls[0]);
      StepKeepsTidy(s, calls[0]);
      hide Step, Abstract, SpecStep, Allows, Valid, Tidy;
      RunRefines(Step(s, calls[0]).after, calls[1..]);
    }
  }

  lemma {:induction false} StartIsTidy(capacity: nat)
    ensures Valid(Start(capacity)) && Tidy(Start(capacity).buckets) &&
        Abstract(Start(capacity)) == Spec([], false, capacity)
  {
  }

  /** From an empty scheduler: if no accepted id was still known, the pending requests and every
      reply are those of one stable priority queue. */
  lemma {:induction false} FreshRunsRefine(capacity: nat, calls: seq<Call>)
    requires Fresh(Start(capacity), calls)
    ensures Abstract(Run(Start(capacity), calls)) == SpecRun(Spec([], false, capacity), calls)
    ensures |Replies(Start(capacity), calls)| == |calls|
    ensures AllowsAll(Spec([], false, capacity), calls, Replies(Start(capacity), calls))
  {
    StartIsTidy(capacity);
    RunRefines(Start(capacity), calls);
  }

  // ---- cancellation over runs ------------------------------------------------------------------------

  ghost predicate Mentions(reply: Reply, id: RequestId) {
    reply.Polled? && reply.poll.Item? && reply.poll.request.id == id
  }

  lemma {:induction false} AbsentStays(s: State, call: Call, id: RequestId)
    requires Valid(s) && id !in Ids(Pending(s.buckets))
    requires call.Submit? ==> call.request.id != id
    ensures id !in Ids(Pending(Step(s, call).after.buckets)) && !Mentions(Step(s, call).reply, id)
  {
    var b := s.buckets;
    match call
    case Submit(r) =>
      if SubmitOutcome(s) == Ok {
        LengthIsPending(b, s.capacity);
        EnqueueKeepsInv(b, r, s.capacity);
        EnqueuePlace(b, r);
        var p, q := AtLeast(b, r.priority), Below(b, r.priority);
        CopiesConcat(p, q, id);
        CopiesConcat(p, [r], id);
        CopiesConcat(p + [r], q, id);
        AbsentByCopies(b, Enqueue(b, r), id);
      }
    case Next => NextTakesHead(s); EmptyQueue(EMPTY);
    case Cancel(other) =>
      if CancelOutcome(s, other) == Ok {
        AbsentByCopies(b, Tombstone(b, other), id);
      }
    case Shutdown =>
  }

  lemma {:induction false} AbsentByCopies(b: Buckets, b': Buckets, id: RequestId)
    requires b.cancelled <= Ids(All(b)) && b'.cancelled <= Ids(All(b'))
    requires Copies(All(b'), id) == Copies(All(b), id) && (id in b.cancelled ==> id in b'.cancelled)
    requires id !in Ids(Pending(b))
    ensures id !in Ids(Pending(b'))
  {
    PendingCopies(All(b), b.cancelled, id);
    PendingCopies(All(b'), b'.cancelled, id);
    CopiesPositive(Pending(b), id);
    CopiesPositive(Pending(b'), id);
  }

  /** Once no copy of an id is pending (CancelErases says when a cancel achieves that), no run
      returns it until it is submitted again. */
  lemma {:induction false} NotReturnedUntilResubmitted(s: State, calls: seq<Call>, id: RequestId)
    requires Valid(s) && id !in Ids(Pending(s.buckets))
    requires forall call :: call in calls && call.Submit? ==> call.request.id != id
    ensures forall reply :: reply in Replies(s, calls) ==> !Mentions(reply, id)
    decreases |calls|
  {
    if calls != [] {
      StepKeepsValid(s, calls[0]);
      AbsentStays(s, calls[0], id);
      NotReturnedUntilResubmitted(Step(s, calls[0]).after, calls[1..], id);
    }
  }

  // ---- conservation -------------------------------------------------------------------------------------

  function AcceptedBy(s: State, call: Call): multiset<Request> {
    if call.Submit? && SubmitOutcome(s) == Ok then multiset{call.request} else multiset{}
  }

  function ReturnedBy(s: State, call: Call): multiset<Request> {
    var reply := Step(s, call).reply;
    if reply.Polled? && reply.poll.Item? then multiset{reply.poll.request} else multiset{}
  }

  function Accepted(s: State, calls: seq<Call>): multiset<Request>
    decreases |calls|
  {
    if calls == [] then multiset{} else AcceptedBy(s, calls[0]) + Accepted(Step(s, calls[0]).after, calls[1..])
  }

  function ReturnedItems(s: State, calls: seq<Call>): multiset<Request>
    decreases |calls|
  {
    if calls == [] then multiset{} else ReturnedBy(s, calls[0]) + ReturnedItems(Step(s, calls[0]).after, calls[1..])
  }

  function Dropped(s: State, calls: seq<Call>): multiset<Request>
    decreases |calls|
  {
    if calls == [] then multiset{}
    else multiset(Step(s, calls[0]).dropped) + Dropped(Step(s, calls[0]).after, calls[1..])
  }

  lemma {:induction false} EnqueueAdds(b: Buckets, r: Request)
    ensures multiset(All(Enqueue(b, r))) == multiset(All(b)) + multiset{r}
  {
    EnqueuePlace(b, r);
    hide All, Enqueue, AtLeast, Below;
  }

  ghost predicate Balances(s: State, call: Call) {
    multiset(All(s.buckets)) + AcceptedBy(s, call)
    == multiset(All(Step(s, call).after.buckets)) + ReturnedBy(s, call) + multiset(Step(s, call).dropped)
  }

  lemma {:induction false} NextConserves(s: State)
    ensures Balances(s, Next)
  {
    PopNextConserves(s.buckets);
    hide PopNext, All;
  }

  lemma {:induction false} SubmitConserves(s: State, r: Request)
    ensures Balances(s, Submit(r))
  {
    EnqueueAdds(s.buckets, r);
    hide Enqueue, All;
  }

  lemma {:induction false} StepConserves(s: State, call: Call)
    ensures Balances(s, call)
  {
    match call
    case Submit(r) => SubmitConserves(s, r);
    case Next => NextConserves(s);
    case Cancel(id) =>
      assert All(Tombstone(s.buckets, id)) == All(s.buckets);
      hide Tombstone, All;
    case Shutdown =>
  }

  /** Over every run, what was accepted is exactly what was returned, dropped as cancelled, or is
      still queued, as multisets. */
  lemma {:induction false} RunConserves(s: State, calls: seq<Call>)
    ensures multiset(All(s.buckets)) + Accepted(s, calls)
         == multiset(All(Run(s, calls).buckets)) + ReturnedItems(s, calls) + Dropped(s, calls)
    decreases |calls|
  {
    if calls != [] {
      var e := Step(s, calls[0]);
      StepConserves(s, calls[0]);
      hide Step, All, AcceptedBy, ReturnedBy;
      RunConserves(e.after, calls[1..]);
      Chain(multiset(All(s.buckets)), AcceptedBy(s, calls[0]), multiset(All(e.after.buckets)), ReturnedBy(s, calls[0]),
            multiset(e.dropped), Accepted(e.after, calls[1..]), multiset(All(Run(s, calls).buckets)),
            ReturnedItems(e.after, calls[1..]), Dropped(e.after, calls[1..]));
    }
  }

  lemma {:induction false} Chain(q: multiset<Request>, a: multiset<Request>, q': multiset<Request>,
                                 r: multiset<Request>, d: multiset<Request>,
                                 a': multiset<Request>, q'': multiset<Request>, r': multiset<Request>,
                                 d': multiset<Request>)
    requires q + a == q' + r + d && q' + a' == q'' + r' + d'
    ensures q + (a + a') == q'' + (r + r') + (d + d')
  {
    assert q + (a + a') == q + a + a';
    assert q' + r + d + a' == q' + a' + r + d;
  }

  // ---- what reused ids break --------------------------------------------------------------------------------

  /** One tombstone, an older copy below a newer one: the pop drops the newer and returns the older. */
  lemma {:induction false} PopAcrossCopies(first: Request, second: Request)
    requires first.id == second.id
    ensures PopNext(Buckets([second], [], [first], {first.id}, {first.id})) == PopResult(Some(first), EMPTY, [second])
  {
    var id := first.id;
    assert {id} - {id} == {};
    assert PopFrom([], {}, {}) == Popped(None, [], [], {}, {});
    assert PopFrom([second], {id}, {id}) == Popped(None, [], [second], {}, {}) by {
      assert [second][1..] == [];
    }
    assert PopFrom([first], {}, {}) == Popped(Some(first), [], [], {}, {}) by {
      assert [first][1..] == [] && {} - {id} == {};
    }
  }

  /** Resubmitting a cancelled id at a higher priority: the consumer is handed the cancelled
      request, and the new one is thrown away. */
  lemma {:induction false} ResubmissionRevivesCancelled(id: RequestId, capacity: nat)
    requires capacity >= 2
    ensures var first, second := Request(id, Low, 0, "first"), Request(id, High, 1, "second");
            var calls := [Submit(first)] + ([Cancel(id)] + ([Submit(second)] + ([Next] + [])));
            && Replies(Start(capacity), calls) ==
                [Returned(Ok)] + ([Returned(Ok)] + ([Returned(Ok)] + ([Polled(Item(first))] + [])))
            && Run(Start(capacity), calls).buckets == EMPTY
  {
    var first, second := Request(id, Low, 0, "first"), Request(id, High, 1, "second");
    var s1 := State(Buckets([], [], [first], {}, {id}), false, capacity);
    var s2 := State(Buckets([], [], [first], {id}, {id}), false, capacity);
    var s3 := State(Buckets([second], [], [first], {id}, {id}), false, capacity);
    RunCons(Start(capacity), Submit(first), [Cancel(id)] + ([Submit(second)] + ([Next] + [])));
    assert [] + [first] == [first] && {} + {id} == {id} && [] + [second] == [second] && {id} + {id} == {id};
    assert Step(Start(capacity), Submit(first)).after == s1;
    RunCons(s1, Cancel(id), [Submit(second)] + ([Next] + []));
    assert Step(s1, Cancel(id)).after == s2;
    RunCons(s2, Submit(second), [Next] + []);
    assert Step(s2, Submit(second)).after == s3;
    RunCons(s3, Next, []);
    PopAcrossCopies(first, second);
    assert Step(s3, Next).after == State(EMPTY, false, capacity);
  }
}
