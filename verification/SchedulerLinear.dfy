/** The interleaved scheduler is linearisable: its queue and its answers are those of the atomic calls
    of Scheduler.Step, made in the order of their locked sections. What threads asked for and whether
    shutdown was called are read off the actions alone. */
module SchedulerLinear {
  import opened Scheduler
  import Queue = SchedulerQueue
  import Runs = SchedulerRuns
  import opened SchedulerWakeup

  // ---- the atomic calls of an interleaving ------------------------------------------------------

  /** Before its locked section, before its notify_one, or before its notify_waiters. */
  datatype Stage = Asking | Notifying | Closing

  /** asked: the latest call each thread has begun; stage: how far the calls in progress are; calls: those
      whose locked section has run, in order; shut: whether shutdown was called; locked: whether next has
      found nothing and still holds the lock; returned: what next has answered. */
  datatype Trace = Trace(asked: map<ThreadId, Call>, stage: map<ThreadId, Stage>, calls: seq<Call>, shut: bool,
                         locked: bool, returned: seq<Option<Request>>)

  const NO_TRACE := Trace(map[], map[], [], false, false, [])

  /** The atomic scheduler after those calls. */
  function Atomic(capacity: nat, tr: Trace): State {
    Queue.Run(Queue.Start(capacity), tr.calls)
  }

  function Answered(reply: Reply): seq<Option<Request>> {
    if reply.Polled? && reply.poll.Item? then [Some(reply.poll.request)] else []
  }

  function Observe(capacity: nat, tr: Trace, a: Action): Trace {
    match a
    case SubmitCheck(t, r) => tr.(asked := tr.asked[t := Submit(r)], stage := tr.stage[t := Asking])
    case CancelCheck(t, id) => tr.(asked := tr.asked[t := Cancel(id)], stage := tr.stage[t := Asking])
    case SubmitPush(t) =>
      if t !in tr.asked then tr
      else tr.(calls := tr.calls + [tr.asked[t]],
               stage := if Step(Atomic(capacity, tr), tr.asked[t]).reply == Returned(Ok)
                        then tr.stage[t := Notifying] else tr.stage - {t})
    case CancelMark(t) =>
      if t !in tr.asked then tr else tr.(calls := tr.calls + [tr.asked[t]], stage := tr.stage - {t})
    case SubmitNotify(t) => tr.(stage := tr.stage - {t})
    case ShutdownStore(t) => tr.(shut := true, stage := tr.stage[t := Closing])
    case ShutdownNotify(t) => tr.(stage := tr.stage - {t})
    case Pop =>
      var answer := Answered(Step(Atomic(capacity, tr), Next).reply);
      tr.(calls := tr.calls + [Next], returned := tr.returned + answer, locked := answer == [])
    case LoadFlag => tr.(returned := tr.returned + if tr.shut then [None] else [], locked := false)
    case _ => tr
  }

  /** The trace of a run; actions that are not enabled leave none. */
  function Observed(s: System, tr: Trace, actions: seq<Action>): Trace
    decreases |actions|
  {
    if actions == [] then tr
    else if Enabled(s, actions[0]) then
      Observed(Perform(s, actions[0]), Observe(s.capacity, tr, actions[0]), actions[1..])
    else Observed(s, tr, actions[1..])
  }

  // ---- one step ------------------------------------------------------------------------------------

  function AtomicState(s: System): State {
    State(s.buckets, false, s.capacity)
  }

  /** The call whose locked section the action is. */
  function LockedCall(s: System, a: Action): Option<Call>
    requires Enabled(s, a)
  {
    match a
    case SubmitPush(t) => Some(Submit(s.tasks[t].request))
    case CancelMark(t) => Some(Cancel(s.tasks[t].id))
    case Pop => Some(Next)
    case _ => None
  }

  /** A locked section does to the queue what its call does; nothing else touches it. A push goes on to
      notify exactly if the call is accepted, and only a pop with an item answers. */
  lemma {:induction false} LockedSection(s: System, a: Action)
    requires Enabled(s, a)
    ensures var s' := Perform(s, a);
            && s'.capacity == s.capacity
            && (LockedCall(s, a) == None ==> s'.buckets == s.buckets)
            && (LockedCall(s, a).Some? ==> AtomicState(s') == Step(AtomicState(s), LockedCall(s, a).value).after)
    ensures a.SubmitPush? ==>
              var reply := Step(AtomicState(s), LockedCall(s, a).value).reply;
              && (a.t in Perform(s, a).tasks <==> reply == Returned(Ok))
              && (reply == Returned(Ok) ==> Perform(s, a).tasks[a.t] == Pushed)
              && (reply != Returned(Ok) ==> reply == Returned(Err(QueueFull(s.capacity))))
    ensures a.Pop? ==> Perform(s, a).returned == s.returned + Answered(Step(AtomicState(s), Next).reply)
    ensures !a.Pop? && !a.LoadFlag? ==> Perform(s, a).returned == s.returned
    ensures Perform(s, a).flag == (s.flag || a.ShutdownStore?)
    ensures a.LoadFlag? ==> Perform(s, a).returned == s.returned + if s.flag then [None] else []
  {
    hide PopNext, Enqueue, Tombstone;
  }

  // ---- over every interleaving ------------------------------------------------------------------------

  /** Where a thread is, by the trace. */
  ghost predicate InStage(task: Task, tr: Trace, t: ThreadId) {
    && t in tr.stage
    && match task
       case Admitted(r) => tr.stage[t] == Asking && t in tr.asked && tr.asked[t] == Submit(r)
       case Cancelling(id) => tr.stage[t] == Asking && t in tr.asked && tr.asked[t] == Cancel(id)
       case Pushed => tr.stage[t] == Notifying
       case Stored => tr.stage[t] == Closing
  }

  ghost predicate AskedFor(s: System, tr: Trace) {
    && (forall t :: t in tr.stage ==> t in s.tasks)
    && (forall t :: t in s.tasks ==> InStage(s.tasks[t], tr, t))
    && (s.consumer.Holding? <==> tr.locked)
  }

  ghost predicate Agrees(s: System, tr: Trace) {
    && AtomicState(s) == Atomic(s.capacity, tr)
    && s.returned == tr.returned && s.flag == tr.shut
    && AskedFor(s, tr)
  }

  lemma {:induction false} RunSnoc(s: State, calls: seq<Call>, call: Call)
    ensures Queue.Run(s, calls + [call]) == Step(Queue.Run(s, calls), call).after
    decreases |calls|
  {
    hide Step;
    if calls == [] {
      Queue.RunCons(s, call, []);
      assert calls + [call] == [call] + [];
    } else {
      assert (calls + [call])[0] == calls[0] && (calls + [call])[1..] == calls[1..] + [call];
      RunSnoc(Step(s, calls[0]).after, calls[1..], call);
    }
  }

  lemma {:induction false} PushAsked(s: System, tr: Trace, t: ThreadId)
    requires Enabled(s, SubmitPush(t)) && Agrees(s, tr)
    ensures AskedFor(Perform(s, SubmitPush(t)), Observe(s.capacity, tr, SubmitPush(t)))
  {
    LockedSection(s, SubmitPush(t));
    hide Enqueue, Step, Atomic;
  }

  lemma {:induction false} PopAsked(s: System, tr: Trace)
    requires Enabled(s, Pop) && Agrees(s, tr)
    ensures AskedFor(Perform(s, Pop), Observe(s.capacity, tr, Pop))
  {
    LockedSection(s, Pop);
    hide PopNext, Step, Atomic;
  }

  lemma {:induction false} ConsumerAsked(s: System, tr: Trace, a: Action)
    requires Enabled(s, a) && AskedFor(s, tr) && (a.Arm? || a.LoadFlag? || a.Poll? || a.Abandon?)
    ensures AskedFor(Perform(s, a), Observe(s.capacity, tr, a))
  {
    hide Step, Atomic;
  }

  lemma {:induction false} ThreadAsked(s: System, tr: Trace, a: Action)
    requires Enabled(s, a) && AskedFor(s, tr)
    requires !a.SubmitPush? && !a.Pop? && !a.Arm? && !a.LoadFlag? && !a.Poll? && !a.Abandon?
    ensures AskedFor(Perform(s, a), Observe(s.capacity, tr, a))
  {
    hide Tombstone, Step, Atomic;
  }

  lemma {:induction false} StillAsked(s: System, tr: Trace, a: Action)
    requires Enabled(s, a) && Agrees(s, tr)
    ensures AskedFor(Perform(s, a), Observe(s.capacity, tr, a))
  {
    if a.SubmitPush? {
      PushAsked(s, tr, a.t);
    } else if a.Pop? {
      PopAsked(s, tr);
    } else if a.Arm? || a.LoadFlag? || a.Poll? || a.Abandon? {
      ConsumerAsked(s, tr, a);
    } else {
      ThreadAsked(s, tr, a);
    }
    hide Perform, Enabled, AskedFor, Observe;
  }

  lemma {:induction false} StepAgrees(s: System, tr: Trace, a: Action)
    requires Enabled(s, a) && Agrees(s, tr)
    ensures Agrees(Perform(s, a), Observe(s.capacity, tr, a))
  {
    StillAsked(s, tr, a);
    LockedSection(s, a);
    if LockedCall(s, a).Some? {
      RunSnoc(Queue.Start(s.capacity), tr.calls, LockedCall(s, a).value);
    }
    hide Perform, Step, AskedFor;
  }

  lemma {:induction false} RunAgrees(s: System, tr: Trace, actions: seq<Action>)
    requires Agrees(s, tr)
    ensures Agrees(Run(s, actions), Observed(s, tr, actions)) && Run(s, actions).capacity == s.capacity
    decreases |actions|
  {
    if actions != [] {
      if Enabled(s, actions[0]) {
        StepAgrees(s, tr, actions[0]);
        LockedSection(s, actions[0]);
        hide Agrees, Perform, Observe, Step;
        RunAgrees(Perform(s, actions[0]), Observe(s.capacity, tr, actions[0]), actions[1..]);
      } else {
        RunAgrees(s, tr, actions[1..]);
      }
    }
  }

  function TraceOf(capacity: nat, actions: seq<Action>): Trace {
    Observed(Start(capacity), NO_TRACE, actions)
  }

  lemma {:induction false} StartAgrees(capacity: nat)
    ensures Agrees(Start(capacity), NO_TRACE)
  {
  }

  /** Linearisation, over every interleaving: the buckets are those of the atomic calls, submit, cancel
      and next, in the order of their locked sections; next has answered the items of those calls and,
      once shutdown was called, None where it looked after finding nothing. */
  lemma {:induction false} Linearises(capacity: nat, actions: seq<Action>)
    ensures var s, tr := Run(Start(capacity), actions), TraceOf(capacity, actions);
            && s.buckets == Queue.Run(Queue.Start(capacity), tr.calls).buckets
            && s.returned == tr.returned && s.flag == tr.shut
  {
    StartAgrees(capacity);
    RunAgrees(Start(capacity), NO_TRACE, actions);
  }

  /** Over every interleaving, the calls in progress fix which steps can be taken: each thread has its next
      one, the locked sections wait for next to leave its own, and next is stuck only when parked. */
  lemma {:induction false} StepsOpenIff(capacity: nat, actions: seq<Action>, t: ThreadId, r: Request, id: RequestId)
    ensures var s, tr := Run(Start(capacity), actions), TraceOf(capacity, actions);
            && (Enabled(s, SubmitCheck(t, r)) <==> t !in tr.stage && !tr.shut)
            && (Enabled(s, CancelCheck(t, id)) <==> t !in tr.stage && !tr.shut)
            && (Enabled(s, ShutdownStore(t)) <==> t !in tr.stage)
            && (t in tr.stage && tr.stage[t] == Asking ==>
                  && t in tr.asked && !tr.asked[t].Next?
                  && (Enabled(s, SubmitPush(t)) <==> tr.asked[t].Submit? && !tr.locked)
                  && (Enabled(s, CancelMark(t)) <==> tr.asked[t].Cancel? && !tr.locked))
            && (Enabled(s, SubmitNotify(t)) <==> t in tr.stage && tr.stage[t] == Notifying)
            && (Enabled(s, ShutdownNotify(t)) <==> t in tr.stage && tr.stage[t] == Closing)
            && (Enabled(s, LoadFlag) <==> tr.locked)
            && (s.consumer.Parked?
                <==> !Enabled(s, Arm) && !Enabled(s, Pop) && !Enabled(s, LoadFlag) && !Enabled(s, Poll))
  {
    StartAgrees(capacity);
    RunAgrees(Start(capacity), NO_TRACE, actions);
    var s, tr := Run(Start(capacity), actions), TraceOf(capacity, actions);
    hide Run, Observed, Atomic, Enabled, AskedFor;
    ThreadOpenIff(s, tr, t, r, id);
    ConsumerOpenIff(s, tr);
  }

  lemma {:induction false} ThreadOpenIff(s: System, tr: Trace, t: ThreadId, r: Request, id: RequestId)
    requires AskedFor(s, tr) && s.flag == tr.shut
    ensures Enabled(s, SubmitCheck(t, r)) <==> t !in tr.stage && !tr.shut
    ensures Enabled(s, CancelCheck(t, id)) <==> t !in tr.stage && !tr.shut
    ensures Enabled(s, ShutdownStore(t)) <==> t !in tr.stage
    ensures t in tr.stage && tr.stage[t] == Asking ==>
              && t in tr.asked && !tr.asked[t].Next?
              && (Enabled(s, SubmitPush(t)) <==> tr.asked[t].Submit? && !tr.locked)
              && (Enabled(s, CancelMark(t)) <==> tr.asked[t].Cancel? && !tr.locked)
    ensures Enabled(s, SubmitNotify(t)) <==> t in tr.stage && tr.stage[t] == Notifying
    ensures Enabled(s, ShutdownNotify(t)) <==> t in tr.stage && tr.stage[t] == Closing
  {
  }

  lemma {:induction false} ConsumerOpenIff(s: System, tr: Trace)
    requires AskedFor(s, tr)
    ensures Enabled(s, LoadFlag) <==> tr.locked
    ensures s.consumer.Parked? <==> !Enabled(s, Arm) && !Enabled(s, Pop) && !Enabled(s, LoadFlag) && !Enabled(s, Poll)
  {
  }

  /** A push is accepted, and its thread goes on to notify, exactly when its request's submit is in the
      atomic run: below capacity in live requests. Otherwise the answer is QueueFull. */
  lemma {:induction false} PushAcceptedIff(capacity: nat, actions: seq<Action>, t: ThreadId)
    requires Enabled(Run(Start(capacity), actions), SubmitPush(t))
    ensures var s, tr := Run(Start(capacity), actions), TraceOf(capacity, actions);
            var s' := Perform(s, SubmitPush(t));
            && t in tr.asked && tr.asked[t].Submit?
            && var reply := Step(Atomic(capacity, tr), tr.asked[t]).reply;
               && (t in s'.tasks <==> reply == Returned(Ok))
               && (t in s'.tasks <==> |Pending(s.buckets)| < capacity)
               && (t in s'.tasks ==> tr.asked[t].request in All(s'.buckets))
               && (t !in s'.tasks ==> reply == Returned(Err(QueueFull(capacity))) && s'.buckets == s.buckets)
  {
    StartAgrees(capacity);
    RunAgrees(Start(capacity), NO_TRACE, actions);
    StartSafe(capacity);
    RunSafe(Start(capacity), actions);
    var s := Run(Start(capacity), actions);
    LengthIsPending(s.buckets, s.capacity);
    LockedSection(s, SubmitPush(t));
    EnqueuePlace(s.buckets, s.tasks[t].request);
    hide Run, Observed, Pending, Inv, AtLeast, Below, Enqueue, Len;
  }

  // ---- cancelled requests -------------------------------------------------------------------------------

  /** No submission of id is under way. */
  ghost predicate NotAdmitted(s: System, id: RequestId) {
    forall t :: t in s.tasks && s.tasks[t].Admitted? ==> s.tasks[t].request.id != id
  }

  predicate Names(answer: Option<Request>, id: RequestId) {
    answer.Some? && answer.value.id == id
  }

  lemma {:induction false} AbsentStep(s: System, a: Action, id: RequestId)
    requires Enabled(s, a) && Inv(s.buckets, s.capacity) && NotAdmitted(s, id) && id !in Ids(Pending(s.buckets))
    requires a.SubmitCheck? ==> a.request.id != id
    ensures id !in Ids(Pending(Perform(s, a).buckets))
    ensures s.returned <= Perform(s, a).returned
    ensures forall x :: x in Perform(s, a).returned[|s.returned|..] ==> !Names(x, id)
  {
    LockedSection(s, a);
    var call := LockedCall(s, a);
    if call.Some? {
      Runs.AbsentStays(AtomicState(s), call.value, id);
    }
    hide Perform, Step, Pending, Ids, Inv;
  }

  lemma {:induction false} NotAdmittedStep(s: System, a: Action, id: RequestId)
    requires Enabled(s, a) && NotAdmitted(s, id) && (a.SubmitCheck? ==> a.request.id != id)
    ensures NotAdmitted(Perform(s, a), id)
  {
    hide PopNext, Enqueue, Tombstone;
  }

  /** From a state in which no copy of id is pending and no submission of it under way, next answers id in
      no interleaving that does not submit it again. */
  lemma {:induction false} NotReturnedUntilResubmitted(s: System, actions: seq<Action>, id: RequestId)
    requires Safe(s) && NotAdmitted(s, id) && id !in Ids(Pending(s.buckets))
    requires forall a :: a in actions && a.SubmitCheck? ==> a.request.id != id
    ensures s.returned <= Run(s, actions).returned
    ensures forall x :: x in Run(s, actions).returned[|s.returned|..] ==> !Names(x, id)
    decreases |actions|
  {
    if actions != [] {
      var a := actions[0];
      assert a in actions;
      if Enabled(s, a) {
        var s' := Perform(s, a);
        AbsentStep(s, a, id);
        NotAdmittedStep(s, a, id);
        ActionSafe(s, a);
        hide Safe, Perform, NotAdmitted, Pending, Ids, Names;
        NotReturnedUntilResubmitted(s', actions[1..], id);
        SuffixSplits(s.returned, s'.returned, Run(s', actions[1..]).returned);
      } else {
        hide Safe, NotAdmitted, Pending, Ids, Names;
        NotReturnedUntilResubmitted(s, actions[1..], id);
      }
    }
  }

  lemma {:induction false} SuffixSplits(p: seq<Option<Request>>, q: seq<Option<Request>>, r: seq<Option<Request>>)
    requires p <= q <= r
    ensures p <= r && r[|p|..] == q[|p|..] + r[|q|..]
  {
  }

  /** An interleaved cancel works: once it has marked an id of which one copy is queued and no submission
      is under way, next never answers that id until it is submitted again. */
  lemma {:induction false} CancelledIsNotReturned(capacity: nat, before: seq<Action>, t: ThreadId, after: seq<Action>)
    requires Enabled(Run(Start(capacity), before), CancelMark(t))
    requires var s := Run(Start(capacity), before); var id := s.tasks[t].id;
             && id in s.buckets.known && Queue.Copies(All(s.buckets), id) <= 1 && NotAdmitted(s, id)
             && forall a :: a in after && a.SubmitCheck? ==> a.request.id != id
    ensures var s := Run(Start(capacity), before); var s' := Perform(s, CancelMark(t));
            && s'.returned <= Run(s', after).returned
            && forall x :: x in Run(s', after).returned[|s'.returned|..] ==> !Names(x, s.tasks[t].id)
  {
    var s := Run(Start(capacity), before);
    StartSafe(capacity);
    RunSafe(Start(capacity), before);
    Queue.CancelErases(s.buckets, s.tasks[t].id, s.capacity);
    ActionSafe(s, CancelMark(t));
    NotAdmittedStep(s, CancelMark(t), s.tasks[t].id);
    hide Run, Pending, Ids, Safe, Tombstone;
    NotReturnedUntilResubmitted(Perform(s, CancelMark(t)), after, s.tasks[t].id);
  }

  // ---- the ends of next's loop ----------------------------------------------------------------------------

  /** Shut down and drained, the consumer's next pass answers None. */
  lemma {:induction false} DrainEnds(s: System)
    requires s.flag && s.buckets == EMPTY && (s.consumer.Idle? || s.consumer.Woken?)
    ensures Run(s, [Arm] + ([Pop] + ([LoadFlag] + []))).returned == s.returned + [None]
  {
    assert PopNext(EMPTY) == PopResult(None, EMPTY, []);
    var s1 := Perform(s, Arm);
    var s2 := Perform(s1, Pop);
    RunCons(s2, LoadFlag, []);
    RunCons(s1, Pop, [LoadFlag] + []);
    RunCons(s, Arm, [Pop] + ([LoadFlag] + []));
  }

  function Pass(): seq<Action> {
    [Arm] + ([Pop] + ([LoadFlag] + ([Poll] + [])))
  }

  lemma {:induction false} OnePass(s: System)
    requires !s.flag && s.buckets == EMPTY && (s.consumer.Idle? || s.consumer.Woken?)
    ensures Run(s, Pass()) == s.(permit := false, consumer := if s.permit then Woken(false) else Parked(s.generation))
  {
    assert PopNext(EMPTY) == PopResult(None, EMPTY, []);
    var s1 := Perform(s, Arm);
    var s2 := Perform(s1, Pop);
    var s3 := Perform(s2, LoadFlag);
    RunCons(s3, Poll, []);
    RunCons(s2, LoadFlag, [Poll] + []);
    RunCons(s1, Pop, [LoadFlag] + ([Poll] + []));
    RunCons(s, Arm, [Pop] + ([LoadFlag] + ([Poll] + [])));
  }

  /** With nothing queued the consumer does not spin: left alone it parks after one pass, or after two if
      an old permit was stored, which is then used up. */
  lemma {:induction false} IdleConsumerParks(s: System)
    requires !s.flag && s.buckets == EMPTY && (s.consumer.Idle? || s.consumer.Woken?)
    ensures Run(s, Pass()).consumer.Parked? <==> !s.permit
    ensures s.permit ==> Run(Run(s, Pass()), Pass()).consumer.Parked? && !Run(Run(s, Pass()), Pass()).permit
  {
    OnePass(s);
    if s.permit {
      OnePass(Run(s, Pass()));
    }
  }

  /** A future of next that is dropped after it was woken loses no notification: the next call finds it and
      looks at the queue once more before parking, exactly if a notify_one had chosen the dropped one. */
  lemma {:induction false} DroppedFutureKeepsNotification(s: System)
    requires !s.flag && s.buckets == EMPTY && s.consumer.Woken? && !s.permit
    ensures Run(s, [Abandon] + Pass()).consumer.Parked? <==> s.consumer == Woken(false)
  {
    RunCons(s, Abandon, Pass());
    OnePass(Perform(s, Abandon));
    hide Run, Pass;
  }
}
