/** When cancel answers NotFound: its comment says only for ids that are not queued. With several
    copies of an id queued, taking one of them makes the scheduler forget the id while another copy
    still waits. This is exactly when the comment fails. */
module SchedulerKnown {
  import opened Scheduler
  import opened SchedulerQueue
  import opened SchedulerRuns

  // ---- what one call of next takes off the queue ---------------------------------------------

  /** Tombstoned copies up to and including the first live request. */
  function Front(q: seq<Request>, cancelled: set<RequestId>): seq<Request> {
    if q == [] then []
    else if q[0].id in cancelled then [q[0]] + Front(q[1..], cancelled - {q[0].id})
    else [q[0]]
  }

  function Leaving(b: Buckets): seq<Request> {
    Front(All(b), b.cancelled)
  }

  lemma {:induction false} PopFromTakesFront(q: seq<Request>, c: set<RequestId>, k: set<RequestId>)
    ensures var p := PopFrom(q, c, k);
            && q == Front(q, c) + p.rest
            && p.known == k - Ids(Front(q, c))
            && Front(q, c) == p.dropped + if p.item.Some? then [p.item.value] else []
  {
    if q != [] {
      assert q == [q[0]] + q[1..];
      if q[0].id in c {
        PopFromTakesFront(q[1..], c - {q[0].id}, k - {q[0].id});
        IdsOfConcat([q[0]], Front(q[1..], c - {q[0].id}));
      }
    }
  }

  /** What leaves is the dropped copies and the returned request, and exactly their ids are
      forgotten. */
  lemma {:induction false} NextTakesLeaving(b: Buckets)
    ensures var n := PopNext(b);
            && All(b) == Leaving(b) + All(n.after)
            && n.after.known == b.known - Ids(Leaving(b))
            && Leaving(b) == n.dropped + if n.item.Some? then [n.item.value] else []
  {
    PopNextIsPopFrom(b);
    hide PopNext;
    PopFromTakesFront(All(b), b.cancelled, b.known);
  }

  /** id leaves and another copy of it stays behind. */
  predicate LeavesCopyBehind(b: Buckets, id: RequestId) {
    0 < Copies(Leaving(b), id) < Copies(All(b), id)
  }

  lemma {:induction false} BehindIff(b: Buckets, id: RequestId)
    ensures id in Ids(Leaving(b)) <==> Copies(Leaving(b), id) > 0
    ensures id in Ids(All(PopNext(b).after)) <==> Copies(All(b), id) > Copies(Leaving(b), id)
  {
    NextTakesLeaving(b);
    CopiesConcat(Leaving(b), All(PopNext(b).after), id);
    CopiesPositive(Leaving(b), id);
    CopiesPositive(All(PopNext(b).after), id);
  }

  /** With every queued id known, they all stay known across a call of next exactly when no id that
      leaves, returned or dropped, has another copy behind it. */
  lemma {:induction false} NextKeepsKnownIff(b: Buckets)
    requires b.known == Ids(All(b))
    ensures PopNext(b).after.known == Ids(All(PopNext(b).after)) <==> forall id :: !LeavesCopyBehind(b, id)
  {
    NextTakesLeaving(b);
    var after := PopNext(b).after;
    IdsOfConcat(Leaving(b), All(after));
    hide PopNext, All, Leaving;
    assert after.known == Ids(All(after)) - Ids(Leaving(b));
    forall id
      ensures LeavesCopyBehind(b, id) <==> id in Ids(Leaving(b)) && id in Ids(All(after))
    {
      BehindIff(b, id);
    }
    hide LeavesCopyBehind, Ids;
    if after.known == Ids(All(after)) {
      forall id
        ensures !LeavesCopyBehind(b, id)
      {
        assert id in Ids(All(after)) ==> id in Ids(All(after)) - Ids(Leaving(b));
      }
    }
  }

  // ---- over runs -------------------------------------------------------------------------------

  /** Whether id is queued but forgotten after one more call, given whether it was before: an
      accepted submission of id makes it known again, taking a copy forgets it if another stays. */
  predicate ForgottenAfter(s: State, call: Call, id: RequestId, was: bool) {
    match call
    case Submit(r) => was && !(SubmitOutcome(s) == Ok && r.id == id)
    case Next => if id in Ids(Leaving(s.buckets)) then LeavesCopyBehind(s.buckets, id) else was
    case Cancel(_) => was
    case Shutdown => was
  }

  predicate Forgotten(s: State, calls: seq<Call>, id: RequestId, was: bool)
    decreases |calls|
  {
    if calls == [] then was
    else Forgotten(Step(s, calls[0]).after, calls[1..], id, ForgottenAfter(s, calls[0], id, was))
  }

  predicate QueuedUnknown(b: Buckets, id: RequestId) {
    id in Ids(All(b)) && id !in b.known
  }

  lemma {:induction false} NextForgets(s: State, id: RequestId)
    ensures QueuedUnknown(PopNext(s.buckets).after, id)
       <==> ForgottenAfter(s, Next, id, QueuedUnknown(s.buckets, id))
  {
    NextTakesLeaving(s.buckets);
    IdsOfConcat(Leaving(s.buckets), All(PopNext(s.buckets).after));
    BehindIff(s.buckets, id);
    hide PopNext, All, Leaving, Ids;
  }

  lemma {:induction false} SubmitForgets(b: Buckets, r: Request, id: RequestId)
    ensures QueuedUnknown(Enqueue(b, r), id) <==> QueuedUnknown(b, id) && r.id != id
  {
    var p, q := AtLeast(b, r.priority), Below(b, r.priority);
    EnqueuePlace(b, r);
    IdsOfConcat(p, q);
    IdsOfConcat(p, [r]);
    IdsOfConcat(p + [r], q);
    assert Enqueue(b, r).known == b.known + {r.id} && Ids([r]) == {r.id};
    hide AtLeast, Below, All, Enqueue, Ids;
  }

  lemma {:induction false} StepForgets(s: State, call: Call, id: RequestId)
    ensures QueuedUnknown(Step(s, call).after.buckets, id)
       <==> ForgottenAfter(s, call, id, QueuedUnknown(s.buckets, id))
  {
    match call
    case Submit(r) => SubmitForgets(s.buckets, r, id);
    case Next => NextForgets(s, id);
    case Cancel(other) => assert All(Tombstone(s.buckets, other)) == All(s.buckets);
    case Shutdown =>
  }

  lemma {:induction false} RunForgets(s: State, calls: seq<Call>, id: RequestId)
    ensures QueuedUnknown(Run(s, calls).buckets, id) <==> Forgotten(s, calls, id, QueuedUnknown(s.buckets, id))
    decreases |calls|
  {
    if calls != [] {
      StepForgets(s, calls[0], id);
      hide Step, QueuedUnknown, ForgottenAfter;
      RunForgets(Step(s, calls[0]).after, calls[1..], id);
    }
  }

  /** After any run of a new scheduler that is still open, cancel answers NotFound exactly for ids that are
      not queued, as its comment says, if and only if the id is not forgotten; a forgotten id is not cancelled
      and every queued copy of it is still to be returned. */
  lemma {:induction false} NotFoundAsDocumentedIff(capacity: nat, calls: seq<Call>, id: RequestId)
    requires !Run(Start(capacity), calls).shuttingDown
    ensures var s := Run(Start(capacity), calls);
            var notFound := Step(s, Cancel(id)).reply == Returned(Err(NotFound(id)));
            var forgotten := Forgotten(Start(capacity), calls, id, false);
            && (notFound <==> id !in Ids(All(s.buckets)) || forgotten)
            && ((notFound <==> id !in Ids(All(s.buckets))) <==> !forgotten)
            && (forgotten ==> Copies(Pending(s.buckets), id) == Copies(All(s.buckets), id) > 0)
  {
    var s := Run(Start(capacity), calls);
    StartIsTidy(capacity);
    RunKeepsValid(Start(capacity), calls);
    assert !QueuedUnknown(Start(capacity).buckets, id);
    RunForgets(Start(capacity), calls, id);
    PendingCopies(All(s.buckets), s.buckets.cancelled, id);
    CopiesPositive(All(s.buckets), id);
    hide Run, All, Ids, Forgotten, Pending, Copies;
  }

  lemma {:induction false} RunKeepsTidy(s: State, calls: seq<Call>)
    requires Valid(s) && Tidy(s.buckets) && Fresh(s, calls)
    ensures Tidy(Run(s, calls).buckets)
    decreases |calls|
  {
    if calls != [] {
      assert Fresh(s, [calls[0]]);
      StepKeepsValid(s, calls[0]);
      StepKeepsTidy(s, calls[0]);
      hide Step, Valid, Tidy;
      RunKeepsTidy(Step(s, calls[0]).after, calls[1..]);
    }
  }

  /** The caller's rule is enough: nothing is ever forgotten. */
  lemma {:induction false} FreshForgetsNothing(capacity: nat, calls: seq<Call>, id: RequestId)
    requires Fresh(Start(capacity), calls)
    ensures !Forgotten(Start(capacity), calls, id, false)
  {
    StartIsTidy(capacity);
    RunKeepsTidy(Start(capacity), calls);
    assert !QueuedUnknown(Start(capacity).buckets, id);
    RunForgets(Start(capacity), calls, id);
    hide Run, Forgotten;
  }

  // ---- the two ways it happens ------------------------------------------------------------------

  lemma {:induction false} SinglePending(r: Request)
    ensures Live([r], {}) == [r]
  {
  }

  /** Two live copies of one id: once the first is taken, the second cannot be cancelled. */
  lemma {:induction false} DuplicateCannotBeCancelled(r: Request, capacity: nat)
    requires capacity >= 2 && r.priority == Normal
    ensures var calls := [Submit(r)] + ([Submit(r)] + ([Next] + ([Cancel(r.id)] + [])));
            && Replies(Start(capacity), calls)
            == [Returned(Ok)] + ([Returned(Ok)] + ([Polled(Item(r))] + ([Returned(Err(NotFound(r.id)))] + [])))
            && Pending(Run(Start(capacity), calls).buckets) == [r]
  {
    var s1 := State(Buckets([], [r], [], {}, {r.id}), false, capacity);
    var s2 := State(Buckets([], [r, r], [], {}, {r.id}), false, capacity);
    var s3 := State(Buckets([], [r], [], {}, {}), false, capacity);
    RunCons(Start(capacity), Submit(r), [Submit(r)] + ([Next] + ([Cancel(r.id)] + [])));
    assert [] + [r] == [r] && {} + {r.id} == {r.id} && {r.id} + {r.id} == {r.id} && {r.id} - {r.id} == {};
    assert Step(Start(capacity), Submit(r)).after == s1;
    RunCons(s1, Submit(r), [Next] + ([Cancel(r.id)] + []));
    assert Step(s1, Submit(r)).after == s2;
    RunCons(s2, Next, [Cancel(r.id)] + []);
    assert [r, r][1..] == [r];
    assert Step(s2, Next).after == s3;
    RunCons(s3, Cancel(r.id), []);
    assert All(s3.buckets) == [r];
    SinglePending(r);
  }

  /** A dropped copy counts as much as a returned one: a is cancelled and its first copy skipped on
      the way to x; its second copy is still to come and cannot be cancelled. */
  lemma {:induction false} DroppedCopyCannotBeCancelled(a: Request, x: Request, capacity: nat)
    requires capacity >= 3 && a.priority == x.priority == Normal && a.id != x.id
    ensures var calls := [Submit(a)] + ([Submit(x)] + ([Submit(a)]
                         + ([Cancel(a.id)] + ([Next] + ([Cancel(a.id)] + [])))));
            && Replies(Start(capacity), calls)
            == [Returned(Ok)] + ([Returned(Ok)] + ([Returned(Ok)] + ([Returned(Ok)]
               + ([Polled(Item(x))] + ([Returned(Err(NotFound(a.id)))] + [])))))
            && Pending(Run(Start(capacity), calls).buckets) == [a]
  {
    var s1 := State(Buckets([], [a], [], {}, {a.id}), false, capacity);
    var s2 := State(Buckets([], [a, x], [], {}, {a.id, x.id}), false, capacity);
    var s3 := State(Buckets([], [a, x, a], [], {}, {a.id, x.id}), false, capacity);
    var s4 := State(Buckets([], [a, x, a], [], {a.id}, {a.id, x.id}), false, capacity);
    var s5 := State(Buckets([], [a], [], {}, {}), false, capacity);
    RunCons(s5, Cancel(a.id), []);
    assert All(s5.buckets) == [a];
    SinglePending(a);
    PopSkipsCopy(a, x);
    assert Step(s4, Next) == Effect(s5, Polled(Item(x)), [a]);
    assert Step(s3, Cancel(a.id)) == Effect(s4, Returned(Ok), []);
    StepsToThree(a, x, capacity);
    RunCons(s4, Next, [Cancel(a.id)] + []);
    RunCons(s3, Cancel(a.id), [Next] + ([Cancel(a.id)] + []));
    hide Step, Run, Replies, Pending;
    RunCons(s2, Submit(a), [Cancel(a.id)] + ([Next] + ([Cancel(a.id)] + [])));
    RunCons(s1, Submit(x), [Submit(a)] + ([Cancel(a.id)] + ([Next] + ([Cancel(a.id)] + []))));
    RunCons(Start(capacity), Submit(a),
            [Submit(x)] + ([Submit(a)] + ([Cancel(a.id)] + ([Next] + ([Cancel(a.id)] + [])))));
  }

  lemma {:induction false} PopSkipsCopy(a: Request, x: Request)
    requires a.id != x.id
    ensures PopNext(Buckets([], [a, x, a], [], {a.id}, {a.id, x.id}))
         == PopResult(Some(x), Buckets([], [a], [], {}, {}), [a])
  {
    assert [a, x, a][1..] == [x, a] && [x, a][1..] == [a];
    assert {a.id} - {a.id} == {} && {a.id, x.id} - {a.id} == {x.id} && {x.id} - {x.id} == {};
    assert PopFrom([x, a], {}, {x.id}) == Popped(Some(x), [a], [], {}, {});
    assert PopFrom([a, x, a], {a.id}, {a.id, x.id}) == Popped(Some(x), [a], [a], {}, {});
  }

  lemma {:induction false} StepsToThree(a: Request, x: Request, capacity: nat)
    requires capacity >= 3 && a.priority == x.priority == Normal
    ensures Step(Start(capacity), Submit(a))
         == Effect(State(Buckets([], [a], [], {}, {a.id}), false, capacity), Returned(Ok), [])
    ensures Step(State(Buckets([], [a], [], {}, {a.id}), false, capacity), Submit(x))
         == Effect(State(Buckets([], [a, x], [], {}, {a.id, x.id}), false, capacity), Returned(Ok), [])
    ensures Step(State(Buckets([], [a, x], [], {}, {a.id, x.id}), false, capacity), Submit(a))
         == Effect(State(Buckets([], [a, x, a], [], {}, {a.id, x.id}), false, capacity), Returned(Ok), [])
  {
    assert [] + [a] == [a] && [a] + [x] == [a, x] && [a, x] + [a] == [a, x, a];
    assert {} + {a.id} == {a.id} && {a.id} + {x.id} == {a.id, x.id} && {a.id, x.id} + {a.id} == {a.id, x.id};
  }
}
