/** The scheduler's wakeup protocol, step by step: one consumer in next(), any number of threads in
    submit, cancel and shutdown, interleaved between the points where they touch shared state.
    The notifier holds at most one permit, counts notify_waiters calls, and knows whether the
    consumer is registered as a waiter. */
module SchedulerWakeup {
  import opened Scheduler
  import opened SchedulerQueue

  type ThreadId = nat

  /** Where the consumer is in next(). seen is the number of notify_waiters calls when the
      Notified future was created. The mutex is held in Holding. */
  datatype Consumer =
    | Idle
    | Armed(seen: nat)
    | Holding(seen: nat)
    | Unlocked(seen: nat)
    | Parked(seen: nat)
    | Woken(byNotifyOne: bool)

  /** Where another thread is in submit (Admitted, Pushed), cancel or shutdown. */
  datatype Task =
    | Admitted(request: Request)
    | Pushed
    | Cancelling(id: RequestId)
    | Stored

  datatype System = System(
    buckets: Buckets, capacity: nat, flag: bool,
    permit: bool, generation: nat,
    consumer: Consumer, tasks: map<ThreadId, Task>,
    returned: seq<Option<Request>>)

  function Start(capacity: nat): System {
    System(EMPTY, capacity, false, false, 0, Idle, map[], [])
  }

  datatype Action =
    | SubmitCheck(t: ThreadId, request: Request)
    | SubmitPush(t: ThreadId)
    | SubmitNotify(t: ThreadId)
    | CancelCheck(t: ThreadId, id: RequestId)
    | CancelMark(t: ThreadId)
    | ShutdownStore(t: ThreadId)
    | ShutdownNotify(t: ThreadId)
    | Arm
    | Pop
    | LoadFlag
    | Poll
    | Abandon

  predicate Enabled(s: System, a: Action) {
    match a
    case SubmitCheck(t, _) => t !in s.tasks && !s.flag
    case SubmitPush(t) => t in s.tasks && s.tasks[t].Admitted? && !s.consumer.Holding?
    case SubmitNotify(t) => t in s.tasks && s.tasks[t].Pushed?
    case CancelCheck(t, _) => t !in s.tasks && !s.flag
    case CancelMark(t) => t in s.tasks && s.tasks[t].Cancelling? && !s.consumer.Holding?
    case ShutdownStore(t) => t !in s.tasks
    case ShutdownNotify(t) => t in s.tasks && s.tasks[t].Stored?
    case Arm => s.consumer.Idle? || s.consumer.Woken?
    case Pop => s.consumer.Armed?
    case LoadFlag => s.consumer.Holding?
    case Poll => s.consumer.Unlocked?
    case Abandon => s.consumer.Parked? || s.consumer.Woken?
  }

  /** notify_one: wakes the registered waiter, or stores the one permit. */
  function NotifyOne(s: System): System {
    if s.consumer.Parked? then s.(consumer := Woken(true)) else s.(permit := true)
  }

  /** notify_waiters: wakes the registered waiter and advances the count; stores no permit. */
  function NotifyWaiters(s: System): System {
    s.(generation := s.generation + 1, consumer := if s.consumer.Parked? then Woken(false) else s.consumer)
  }

  function Perform(s: System, a: Action): System
    requires Enabled(s, a)
  {
    match a
    case SubmitCheck(t, r) => s.(tasks := s.tasks[t := Admitted(r)])
    case SubmitPush(t) =>
      if Len(s.buckets) >= s.capacity then s.(tasks := s.tasks - {t})
      else s.(buckets := Enqueue(s.buckets, s.tasks[t].request), tasks := s.tasks[t := Pushed])
    case SubmitNotify(t) => NotifyOne(s.(tasks := s.tasks - {t}))
    case CancelCheck(t, id) => s.(tasks := s.tasks[t := Cancelling(id)])
    case CancelMark(t) =>
      var id := s.tasks[t].id;
      s.(buckets := if id in s.buckets.known then Tombstone(s.buckets, id) else s.buckets, tasks := s.tasks - {t})
    case ShutdownStore(t) => s.(flag := true, tasks := s.tasks[t := Stored])
    case ShutdownNotify(t) => NotifyWaiters(s.(tasks := s.tasks - {t}))
    case Arm => s.(consumer := Armed(s.generation))
    case Pop =>
      var p := PopNext(s.buckets);
      if p.item.Some? then s.(buckets := p.after, consumer := Idle, returned := s.returned + [p.item])
      else s.(buckets := p.after, consumer := Holding(s.consumer.seen))
    case LoadFlag =>
      if s.flag then s.(consumer := Idle, returned := s.returned + [None])
      else s.(consumer := Unlocked(s.consumer.seen))
    case Poll =>
      if s.permit then s.(permit := false, consumer := Woken(false))
      else if s.generation != s.consumer.seen then s.(consumer := Woken(false))
      else s.(consumer := Parked(s.consumer.seen))
    case Abandon =>
      // dropping a waiter that notify_one has already chosen passes the notification on
      if s.consumer == Woken(true) then NotifyOne(s.(consumer := Idle)) else s.(consumer := Idle)
  }

  /** A run is any list of actions; one that is not enabled leaves the state alone. */
  function Run(s: System, actions: seq<Action>): System
    decreases |actions|
  {
    if actions == [] then s
    else Run(if Enabled(s, actions[0]) then Perform(s, actions[0]) else s, actions[1..])
  }

  lemma {:induction false} RunCons(s: System, a: Action, actions: seq<Action>)
    requires Enabled(s, a)
    ensures Run(s, [a] + actions) == Run(Perform(s, a), actions)
  {
    assert ([a] + actions)[1..] == actions;
  }

  // ---- the invariant ---------------------------------------------------------------------------

  predicate SomePushed(s: System) {
    exists t :: t in s.tasks && s.tasks[t].Pushed?
  }

  predicate SomeStored(s: System) {
    exists t :: t in s.tasks && s.tasks[t].Stored?
  }

  ghost predicate Safe(s: System) {
    && Inv(s.buckets, s.capacity)
    && match s.consumer
       case Idle => true
       case Armed(g) => g <= s.generation
       case Holding(g) => g <= s.generation && s.buckets == EMPTY
       case Unlocked(g) =>
         && g <= s.generation
         && (Pending(s.buckets) != [] ==> s.permit || SomePushed(s))
         && (s.flag ==> g < s.generation || SomeStored(s))
       case Parked(g) =>
         && (Pending(s.buckets) != [] ==> SomePushed(s))
         && (s.flag ==> SomeStored(s))
       case Woken(_) => true
  }

  /** Threads other than t keep their place. */
  lemma {:induction false} OthersKept(s: System, s': System, t: ThreadId)
    requires forall u :: u != t ==> (u in s'.tasks <==> u in s.tasks)
    requires forall u :: u != t && u in s.tasks ==> s'.tasks[u] == s.tasks[u]
    ensures SomePushed(s) && !(t in s.tasks && s.tasks[t].Pushed?) ==> SomePushed(s')
    ensures SomeStored(s) && !(t in s.tasks && s.tasks[t].Stored?) ==> SomeStored(s')
  {
  }

  lemma {:induction false} SubmitSafe(s: System, t: ThreadId)
    requires Safe(s) && Enabled(s, SubmitPush(t))
    ensures Safe(Perform(s, SubmitPush(t)))
  {
    var s' := Perform(s, SubmitPush(t));
    OthersKept(s, s', t);
    LengthIsPending(s.buckets, s.capacity);
    if Len(s.buckets) < s.capacity {
      EnqueueKeepsInv(s.buckets, s.tasks[t].request, s.capacity);
      assert s'.tasks[t].Pushed?;
      assert SomePushed(s');
    }
    hide Inv, Pending, Len, Enqueue;
  }

  lemma {:induction false} CancelSafe(s: System, t: ThreadId)
    requires Safe(s) && Enabled(s, CancelMark(t))
    ensures Safe(Perform(s, CancelMark(t)))
  {
    OthersKept(s, Perform(s, CancelMark(t)), t);
    var id := s.tasks[t].id;
    if id in s.buckets.known {
      TombstoneKeepsInv(s.buckets, id, s.capacity);
      if Pending(s.buckets) == [] {
        assert Pending(Tombstone(s.buckets, id)) == [];
      }
    }
    hide Inv, Pending, Tombstone;
  }

  /** Submitters and shutdowns at their notifying step wake a parked consumer, or leave a mark
      it will find before parking. */
  lemma {:induction false} NotifySafe(s: System, a: Action)
    requires Safe(s) && Enabled(s, a) && (a.SubmitNotify? || a.ShutdownNotify?)
    ensures Safe(Perform(s, a)) && !Perform(s, a).consumer.Parked?
  {
    hide Inv, Pending;
    OthersKept(s, Perform(s, a), a.t);
  }

  lemma {:induction false} EntrySafe(s: System, a: Action)
    requires Safe(s) && Enabled(s, a) && (a.SubmitCheck? || a.CancelCheck? || a.ShutdownStore?)
    ensures Safe(Perform(s, a))
  {
    hide Inv, Pending;
    var s' := Perform(s, a);
    OthersKept(s, s', a.t);
    if a.ShutdownStore? {
      assert s'.tasks[a.t].Stored?;
      assert SomeStored(s');
    }
  }

  lemma {:induction false} LoopSafe(s: System, a: Action)
    requires Safe(s) && Enabled(s, a) && (a.Arm? || a.Abandon?)
    ensures Safe(Perform(s, a))
  {
    hide Inv, Pending;
  }

  /** Leaving the locked section: nothing is queued and the flag was down. */
  lemma {:induction false} LoadFlagSafe(s: System)
    requires Safe(s) && Enabled(s, LoadFlag)
    ensures Safe(Perform(s, LoadFlag))
  {
    EmptyQueue(EMPTY);
    hide Inv, Pending;
  }

  /** The consumer parks only when nothing has been notified since it armed. */
  lemma {:induction false} PollSafe(s: System)
    requires Safe(s) && Enabled(s, Poll)
    ensures Safe(Perform(s, Poll))
  {
    hide Inv, Pending;
  }

  lemma {:induction false} PopSafe(s: System)
    requires Safe(s) && Enabled(s, Pop)
    ensures Safe(Perform(s, Pop))
  {
    PopNextIsHead(s.buckets, s.capacity);
    hide Inv, Pending, PopNext;
  }

  lemma {:induction false} ActionSafe(s: System, a: Action)
    requires Safe(s) && Enabled(s, a)
    ensures Safe(Perform(s, a))
  {
    hide Safe, Enabled, Perform;
    match a
    case SubmitPush(t) => SubmitSafe(s, t);
    case CancelMark(t) => CancelSafe(s, t);
    case SubmitNotify(_) => NotifySafe(s, a);
    case ShutdownNotify(_) => NotifySafe(s, a);
    case SubmitCheck(_, _) => EntrySafe(s, a);
    case CancelCheck(_, _) => EntrySafe(s, a);
    case ShutdownStore(_) => EntrySafe(s, a);
    case Pop => PopSafe(s);
    case LoadFlag => LoadFlagSafe(s);
    case Poll => PollSafe(s);
    case Arm => LoopSafe(s, a);
    case Abandon => LoopSafe(s, a);
  }

  lemma {:induction false} RunSafe(s: System, actions: seq<Action>)
    requires Safe(s)
    ensures Safe(Run(s, actions))
    decreases |actions|
  {
    hide Safe, Enabled, Perform;
    if actions != [] {
      if Enabled(s, actions[0]) {
        ActionSafe(s, actions[0]);
        RunSafe(Perform(s, actions[0]), actions[1..]);
      } else {
        RunSafe(s, actions[1..]);
      }
    }
  }

  lemma {:induction false} StartSafe(capacity: nat)
    ensures Safe(Start(capacity))
  {
  }

  // ---- what it means for the consumer -------------------------------------------------------------

  /** No lost wakeup, over every interleaving: a parked consumer with a live request queued has a
      submitter between its push and its notify_one; parked with the flag set, a shutdown between
      its store and its notify_waiters. With no call in progress, parked means nothing to do. */
  lemma {:induction false} NoLostWakeup(capacity: nat, actions: seq<Action>)
    ensures var s := Run(Start(capacity), actions);
            && |Pending(s.buckets)| <= capacity
            && (s.consumer.Parked? && Pending(s.buckets) != [] ==> SomePushed(s))
            && (s.consumer.Parked? && s.flag ==> SomeStored(s))
            && (s.consumer.Parked? && s.tasks == map[] ==> Pending(s.buckets) == [] && !s.flag)
  {
    StartSafe(capacity);
    RunSafe(Start(capacity), actions);
    CapacityKept(Start(capacity), actions);
    hide Pending, Run;
  }

  lemma {:induction false} CapacityKept(s: System, actions: seq<Action>)
    ensures Run(s, actions).capacity == s.capacity
    decreases |actions|
  {
    if actions != [] {
      CapacityKept(if Enabled(s, actions[0]) then Perform(s, actions[0]) else s, actions[1..]);
    }
  }

  /** The pending submitter's notify_one does wake it, and its next pass through the loop returns
      the request at the head of the queue. */
  lemma {:induction false} WakeupDelivers(capacity: nat, actions: seq<Action>) returns (t: ThreadId)
    requires var s := Run(Start(capacity), actions); s.consumer.Parked? && Pending(s.buckets) != []
    ensures var s := Run(Start(capacity), actions);
            && Enabled(s, SubmitNotify(t))
            && var s1 := Perform(s, SubmitNotify(t));
               && Enabled(s1, Arm)
               && var s2 := Perform(s1, Arm);
                  && Enabled(s2, Pop)
                  && Perform(s2, Pop).returned == s.returned + [Some(Pending(s.buckets)[0])]
                  && Pending(Perform(s2, Pop).buckets) == Pending(s.buckets)[1..]
  {
    StartSafe(capacity);
    RunSafe(Start(capacity), actions);
    var s := Run(Start(capacity), actions);
    t :| t in s.tasks && s.tasks[t].Pushed?;
    PopNextIsHead(s.buckets, s.capacity);
    hide Pending, Run, PopNext, Inv;
  }

  /** A step that answers: None with the mutex held, the queue empty (no request, no tombstone) and
      the flag set; or the pending head. */
  ghost predicate AnswersRightly(s: System, s': System) {
    || (s'.returned == s.returned + [None] && s.flag && s.buckets == s'.buckets == EMPTY)
    || (Pending(s.buckets) != [] && s'.returned == s.returned + [Some(Pending(s.buckets)[0])])
  }

  lemma {:induction false} PopAnswers(s: System)
    requires Safe(s) && Enabled(s, Pop)
    ensures Perform(s, Pop).returned == s.returned || AnswersRightly(s, Perform(s, Pop))
  {
    PopNextIsHead(s.buckets, s.capacity);
    hide Pending, PopNext, Inv;
  }

  /** next() never answers in any other way, over every interleaving. */
  lemma {:induction false} AnswersAreRight(capacity: nat, actions: seq<Action>, a: Action)
    requires Enabled(Run(Start(capacity), actions), a)
    ensures var s := Run(Start(capacity), actions);
            Perform(s, a).returned == s.returned || AnswersRightly(s, Perform(s, a))
  {
    StartSafe(capacity);
    RunSafe(Start(capacity), actions);
    var s := Run(Start(capacity), actions);
    hide Run, Pending, PopNext, Inv;
    if a == Pop {
      PopAnswers(s);
    }
  }

  // ---- requests accepted after the end ---------------------------------------------------------------

  predicate SomeAdmitted(s: System) {
    exists t :: t in s.tasks && s.tasks[t].Admitted?
  }

  /** Drained for good: shut down, nothing queued, and no submitter past its flag check. */
  predicate Finished(s: System) {
    s.flag && s.buckets == EMPTY && !SomeAdmitted(s)
  }

  lemma {:induction false} FinishedStays(s: System, actions: seq<Action>)
    requires Finished(s)
    ensures Finished(Run(s, actions))
    decreases |actions|
  {
    if actions != [] {
      var s' := if Enabled(s, actions[0]) then Perform(s, actions[0]) else s;
      assert PopNext(EMPTY) == PopResult(None, EMPTY, []);
      FinishedStays(s', actions[1..]);
    }
  }

  lemma {:induction false} PushStrands(s: System, t: ThreadId)
    requires s.buckets == EMPTY && !s.consumer.Holding? && s.capacity > 0
    requires t in s.tasks && s.tasks[t].Admitted?
    ensures Run(s, [SubmitPush(t)] + []).buckets != EMPTY
  {
    RunCons(s, SubmitPush(t), []);
    assert s.tasks[t].request.id in Run(s, [SubmitPush(t)] + []).buckets.known;
  }

  /** After next() has answered None, a request can still be accepted into the queue (and then sit
      there, the consumer having been told the end) exactly when some submitter had already passed
      its flag check. */
  lemma {:induction false} StrandedIff(s: System)
    requires s.flag && s.buckets == EMPTY && s.capacity > 0
    ensures (exists actions :: Run(s, actions).buckets != EMPTY) <==> SomeAdmitted(s)
  {
    if SomeAdmitted(s) {
      var t :| t in s.tasks && s.tasks[t].Admitted?;
      if s.consumer.Holding? {
        RunCons(s, LoadFlag, [SubmitPush(t)] + []);
        PushStrands(Perform(s, LoadFlag), t);
      } else {
        PushStrands(s, t);
      }
    } else {
      forall actions
        ensures Run(s, actions).buckets == EMPTY
      {
        FinishedStays(s, actions);
      }
    }
  }

  /** Such a run exists from the start: the submission is accepted after None was returned. */
  lemma {:induction false} StrandedExample(r: Request, capacity: nat)
    requires capacity > 0
    ensures var actions := [SubmitCheck(0, r)] + ([ShutdownStore(1)]
                           + ([Arm] + ([Pop] + ([LoadFlag] + ([SubmitPush(0)] + [])))));
            var s := Run(Start(capacity), actions);
            && s.returned == [None] && s.tasks.Keys == {0, 1} && s.tasks[0] == Pushed && r in All(s.buckets)
  {
    var s0 := Start(capacity);
    var s1 := Perform(s0, SubmitCheck(0, r));
    var s2 := Perform(s1, ShutdownStore(1));
    var s3 := Perform(s2, Arm);
    assert PopNext(EMPTY) == PopResult(None, EMPTY, []);
    var s4 := Perform(s3, Pop);
    var s5 := Perform(s4, LoadFlag);
    RunCons(s5, SubmitPush(0), []);
    RunCons(s4, LoadFlag, [SubmitPush(0)] + []);
    RunCons(s3, Pop, [LoadFlag] + ([SubmitPush(0)] + []));
    RunCons(s2, Arm, [Pop] + ([LoadFlag] + ([SubmitPush(0)] + [])));
    RunCons(s1, ShutdownStore(1), [Arm] + ([Pop] + ([LoadFlag] + ([SubmitPush(0)] + []))));
    RunCons(s0, SubmitCheck(0, r), [ShutdownStore(1)] + ([Arm] + ([Pop] + ([LoadFlag] + ([SubmitPush(0)] + [])))));
  }
}
