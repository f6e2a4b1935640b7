/** The router with its calls interleaved: accept and push_frame give up the mutex between their
    phases, and cancel, subscribe and the subscribers run in between. The callers' rule is one
    producer per request, starting after accept has returned: at most one accept or push is in
    progress per request. The shutdown flag only ever removes behaviour and is not represented. */
module RouterConcurrent {
  import opened Router

  datatype System = System(table: Table, tasks: map<RequestId, Task>, depth: nat)

  function Start(depth: nat): System {
    System(Table(map[], []), map[], depth)
  }

  datatype Action =
    | AcceptInsert(id: RequestId, priority: Priority)
    | AcceptFinish(id: RequestId, submitted: bool)
    | PushBegin(frame: Frame)
    | PushSend(id: RequestId)
    | PushFinish(id: RequestId)
    | Subscribe(id: RequestId)
    | Cancel(id: RequestId)
    | Receive(c: ChannelId)
    | DropReceiver(c: ChannelId)

  predicate Holds(s: System, c: ChannelId) {
    c < |s.table.channels| && s.table.channels[c].taken && s.table.channels[c].open
  }

  /** An action that would only report an error is not enabled: it changes nothing. */
  predicate Enabled(s: System, a: Action) {
    match a
    case AcceptInsert(id, _) => id !in s.table.requests && id !in s.tasks
    case AcceptFinish(id, _) => id in s.tasks && s.tasks[id].Submitting? && id in s.table.requests
    case PushBegin(f) => f.id !in s.tasks && PushError(s.table, f) == None
    case PushSend(id) => id in s.tasks && s.tasks[id].Sending? && s.tasks[id].channel < |s.table.channels|
    case PushFinish(id) => id in s.tasks && s.tasks[id].Finishing?
    case Subscribe(id) => SubscribeError(s.table, id) == None
    case Cancel(id) => CancelError(s.table, id) == None
    case Receive(c) => Holds(s, c) && s.table.channels[c].buffer != []
    case DropReceiver(c) => Holds(s, c)
  }

  function Perform(s: System, a: Action): System
    requires Enabled(s, a)
  {
    match a
    case AcceptInsert(id, p) => s.(table := Register(s.table, id, p), tasks := s.tasks[id := Submitting])
    case AcceptFinish(id, submitted) =>
      s.(table := if submitted then s.table else Unregister(s.table, id), tasks := s.tasks - {id})
    case PushBegin(f) =>
      s.(table := Advance(s.table, f), tasks := s.tasks[f.id := Sending(f, s.table.requests[f.id].channel)])
    case PushSend(id) =>
      var f, c := s.tasks[id].frame, s.tasks[id].channel;
      if TrySend(s.table.channels[c], s.depth) == Sent
      then s.(table := Send(s.table, c, f), tasks := if f.isFinal then s.tasks[id := Finishing] else s.tasks - {id})
      else s.(tasks := s.tasks - {id})
    case PushFinish(id) => s.(table := Finish(s.table, id), tasks := s.tasks - {id})
    case Subscribe(id) => s.(table := TakeReceiver(s.table, id))
    case Cancel(id) => s.(table := MarkCancelled(s.table, id))
    case Receive(c) => s.(table := s.table.(channels := s.table.channels[c := Take(s.table.channels[c])]))
    case DropReceiver(c) => s.(table := s.table.(channels := s.table.channels[c := Close(s.table.channels[c])]))
  }

  function Next(s: System, a: Action): System {
    if Enabled(s, a) then Perform(s, a) else s
  }

  function Run(s: System, actions: seq<Action>): System
    decreases |actions|
  {
    if actions == [] then s else Run(Next(s, actions[0]), actions[1..])
  }

  // ---- the invariant ---------------------------------------------------------------------------------

  ghost predicate Safe(s: System) {
    TracksTasks(s.table, s.tasks, s.depth)
  }

  lemma {:induction false} AcceptSafe(s: System, a: Action)
    requires Safe(s) && Enabled(s, a) && (a.AcceptInsert? || a.AcceptFinish?)
    ensures Safe(Perform(s, a))
  {
    match a
    case AcceptInsert(id, p) => RegisterTracksTasks(s.table, s.tasks, id, p, s.tasks[id := Submitting], s.depth);
    case AcceptFinish(id, submitted) =>
      if submitted {
        GiveUpTracks(s.table, s.tasks, id, s.depth);
      } else {
        UnregisterTracksTasks(s.table, s.tasks, id, s.tasks - {id}, s.depth);
      }
  }

  lemma {:induction false} PushSafe(s: System, a: Action)
    requires Safe(s) && Enabled(s, a) && (a.PushBegin? || a.PushSend? || a.PushFinish?)
    ensures Safe(Perform(s, a))
  {
    match a
    case PushBegin(f) => AdvanceTracks(s.table, s.tasks, f, s.depth);
    case PushSend(id) =>
      assert id in s.table.requests;
      OwnedOf(s.table, s.tasks, id, s.depth);
      hide TracksTasks;
      if TrySend(s.table.channels[s.tasks[id].channel], s.depth) == Sent {
        SendTracks(s.table, s.tasks, id, s.depth);
      } else {
        GiveUpTracks(s.table, s.tasks, id, s.depth);
      }
    case PushFinish(id) => FinishTracks(s.table, s.tasks, id, s.depth);
  }

  lemma {:induction false} SubscriberSafe(s: System, a: Action)
    requires Safe(s) && Enabled(s, a) && (a.Subscribe? || a.Cancel? || a.Receive? || a.DropReceiver?)
    ensures Safe(Perform(s, a))
  {
    match a
    case Subscribe(id) => SubscribeTracksTasks(s.table, s.tasks, id, s.depth);
    case Cancel(id) => CancelTracksTasks(s.table, s.tasks, id, s.depth);
    case Receive(c) =>
      TakeConsistent(s.table.channels[c], s.depth);
      SubscriberTracks(s.table, s.tasks, c, Take(s.table.channels[c]), s.depth);
    case DropReceiver(c) =>
      SubscriberTracks(s.table, s.tasks, c, Close(s.table.channels[c]), s.depth);
  }

  lemma {:induction false} NextSafe(s: System, a: Action)
    requires Safe(s)
    ensures Safe(Next(s, a))
  {
    hide Safe, Perform;
    if Enabled(s, a) {
      match a
      case AcceptInsert(_, _) => AcceptSafe(s, a);
      case AcceptFinish(_, _) => AcceptSafe(s, a);
      case PushBegin(_) => PushSafe(s, a);
      case PushSend(_) => PushSafe(s, a);
      case PushFinish(_) => PushSafe(s, a);
      case _ => SubscriberSafe(s, a);
    }
  }

  lemma {:induction false} NextDepth(s: System, a: Action)
    ensures Next(s, a).depth == s.depth
  {
  }

  lemma {:induction false} RunSafe(s: System, actions: seq<Action>)
    requires Safe(s)
    ensures Safe(Run(s, actions)) && Run(s, actions).depth == s.depth
    decreases |actions|
  {
    if actions != [] {
      NextSafe(s, actions[0]);
      NextDepth(s, actions[0]);
      hide Safe, Next;
      RunSafe(Next(s, actions[0]), actions[1..]);
    }
  }

  // ---- what a subscriber sees -----------------------------------------------------------------------

  /** Over every interleaving and on every channel: the frames received have strictly increasing
      indices, only the last of them can be final, at most depth more wait, and while the receiver
      lives received and waiting frames together are what was sent, in order. */
  lemma {:induction false} SubscribersSeeOrder(depth: nat, actions: seq<Action>, c: ChannelId)
    requires c < |Run(Start(depth), actions).table.channels|
    ensures var ch := Run(Start(depth), actions).table.channels[c];
            && Increasing(ch.received) && FinalLast(ch.received)
            && |ch.buffer| <= depth
            && (ch.open ==> ch.received + ch.buffer == ch.sent)
            && (HasFinal(ch.received) ==> ch.received == ch.sent && ch.buffer == [])
  {
    RunSafe(Start(depth), actions);
    var ch := Run(Start(depth), actions).table.channels[c];
    assert Consistent(ch, depth);
    hide Run;
    if HasFinal(ch.received) {
      var f :| f in ch.received && f.isFinal;
      var i :| 0 <= i < |ch.received| && ch.received[i] == f;
      assert ch.sent[i] == f;
    }
  }

  /** A subscriber that reaches the end of its stream (nothing waiting, every sender dropped) has
      received the final frame, or its request was cancelled. Each frame belongs to that request. */
  lemma {:induction false} EndOfStreamExplained(depth: nat, actions: seq<Action>, id: RequestId)
    requires id in Run(Start(depth), actions).table.requests
    ensures var s := Run(Start(depth), actions); var e := s.table.requests[id];
            && e.channel < |s.table.channels|
            && var ch := s.table.channels[e.channel];
               && (forall f :: f in ch.received ==> f.id == id)
               && (ch.open && ch.buffer == [] && !e.hasSender && !(id in s.tasks && s.tasks[id].Sending?) ==>
                     HasFinal(ch.received) || e.state == Cancelled)
  {
    RunSafe(Start(depth), actions);
    var s := Run(Start(depth), actions);
    OwnedOf(s.table, s.tasks, id, depth);
    hide Run, TracksTasks;
    var ch := s.table.channels[s.table.requests[id].channel];
    assert forall f :: f in ch.received ==> f in ch.sent;
    if ch.open && ch.buffer == [] {
      assert ch.received == ch.sent;
    }
  }

  // ---- how states change ----------------------------------------------------------------------------

  predicate InState(s: System, id: RequestId, q: RequestState) {
    id in s.table.requests && s.table.requests[id].state == q
  }

  /** A final push that can still take effect: sent already, or about to be into a live channel. */
  predicate FinalInFlight(s: System, id: RequestId) {
    && id in s.tasks
    && (s.tasks[id].Finishing?
        || (s.tasks[id].Sending? && s.tasks[id].frame.isFinal
            && s.tasks[id].channel < |s.table.channels| && s.table.channels[s.tasks[id].channel].open))
  }

  /** The accept of id has registered it and is still asking the scheduler. */
  predicate InAccept(s: System, id: RequestId) {
    id in s.tasks && s.tasks[id].Submitting?
  }

  /** Complete is absorbing. */
  lemma {:induction false} CompleteStays(s: System, actions: seq<Action>, id: RequestId)
    requires Safe(s) && InState(s, id, Complete)
    ensures InState(Run(s, actions), id, Complete)
    decreases |actions|
  {
    if actions != [] {
      OwnedOf(s.table, s.tasks, id, s.depth);
      NextSafe(s, actions[0]);
      CompleteStep(s, actions[0], id);
      hide Safe, InState, Next;
      CompleteStays(Next(s, actions[0]), actions[1..], id);
    }
  }

  lemma {:induction false} CompleteStep(s: System, a: Action, id: RequestId)
    requires InState(s, id, Complete) && !InAccept(s, id)
    ensures InState(Next(s, a), id, Complete)
  {
  }

  /** One step from Cancelled: to Complete by the third phase of a push, out of the table by the
      rollback of the request's own accept, or nowhere. */
  lemma {:induction false} CancelledStep(s: System, a: Action, id: RequestId)
    requires InState(s, id, Cancelled)
    ensures var s' := Next(s, a);
            || InState(s', id, Cancelled)
            || (InState(s', id, Complete) && a == PushFinish(id) && FinalInFlight(s, id))
            || (id !in s'.table.requests && a == AcceptFinish(id, false) && InAccept(s, id))
    ensures InState(Next(s, a), id, Cancelled) && InAccept(Next(s, a), id) ==> InAccept(s, id)
  {
  }

  /** No action opens the way to Complete again. */
  lemma {:induction false} NotRevived(s: System, a: Action, id: RequestId)
    requires InState(s, id, Cancelled) && !InAccept(s, id)
    requires id in s.tasks && s.tasks[id].Sending? ==> s.tasks[id].channel < |s.table.channels|
    ensures FinalInFlight(Next(s, a), id) ==> FinalInFlight(s, id)
  {
  }

  /** Cancelled is left in exactly two ways: to Complete, open while a final push that passed its
      checks before the cancel can still take effect; and out of the table, open while the accept that
      registered the request can still be refused by the scheduler. */
  lemma {:induction false} CancelledIsLeftIff(s: System, id: RequestId)
    requires Safe(s) && InState(s, id, Cancelled) && s.depth > 0
    ensures (exists actions :: !InState(Run(s, actions), id, Cancelled)) <==> FinalInFlight(s, id) || InAccept(s, id)
    ensures (exists actions :: id !in Run(s, actions).table.requests) <==> InAccept(s, id)
    ensures !InAccept(s, id) ==> ((exists actions :: InState(Run(s, actions), id, Complete)) <==> FinalInFlight(s, id))
  {
    if InAccept(s, id) {
      var actions := RefusingRun(s, id);
      assert !InState(Run(s, actions), id, Cancelled);
    } else {
      forall actions
        ensures InState(Run(s, actions), id, Cancelled)
                || (FinalInFlight(s, id) && InState(Run(s, actions), id, Complete))
      {
        CancelledRun(s, actions, id);
      }
      if FinalInFlight(s, id) {
        var actions := CompletingRun(s, id);
        assert !InState(Run(s, actions), id, Cancelled);
      }
    }
  }

  lemma {:induction false} CancelledRun(s: System, actions: seq<Action>, id: RequestId)
    requires Safe(s) && InState(s, id, Cancelled) && !InAccept(s, id)
    ensures InState(Run(s, actions), id, Cancelled) || (FinalInFlight(s, id) && InState(Run(s, actions), id, Complete))
    decreases |actions|
  {
    if actions != [] {
      var s' := Next(s, actions[0]);
      NextSafe(s, actions[0]);
      CancelledStep(s, actions[0], id);
      OwnedOf(s.table, s.tasks, id, s.depth);
      NotRevived(s, actions[0], id);
      if InState(s', id, Cancelled) {
        hide Safe, InAccept, FinalInFlight, Next;
        CancelledRun(s', actions[1..], id);
      } else {
        hide Safe, InAccept, FinalInFlight, Next;
        CompleteStays(s', actions[1..], id);
      }
    }
  }

  /** The scheduler refuses: the rollback removes the cancelled entry. */
  lemma {:induction false} RefusingRun(s: System, id: RequestId) returns (actions: seq<Action>)
    requires InState(s, id, Cancelled) && InAccept(s, id)
    ensures id !in Run(s, actions).table.requests
  {
    actions := [AcceptFinish(id, false)] + [];
    RunCons(s, AcceptFinish(id, false), []);
  }

  lemma {:induction false} RunCons(s: System, a: Action, actions: seq<Action>)
    ensures Run(s, [a] + actions) == Run(Next(s, a), actions)
  {
    assert ([a] + actions)[1..] == actions;
  }

  lemma {:induction false} FinishCompletes(s: System, id: RequestId) returns (actions: seq<Action>)
    requires id in s.table.requests && id in s.tasks && s.tasks[id].Finishing?
    ensures InState(Run(s, actions), id, Complete)
  {
    actions := [PushFinish(id)] + [];
    RunCons(s, PushFinish(id), []);
  }

  lemma {:induction false} SendCompletes(s: System, id: RequestId) returns (actions: seq<Action>)
    requires id in s.table.requests && FinalInFlight(s, id) && s.tasks[id].Sending?
    requires |s.table.channels[s.tasks[id].channel].buffer| < s.depth
    ensures InState(Run(s, actions), id, Complete)
  {
    var rest := FinishCompletes(Next(s, PushSend(id)), id);
    actions := [PushSend(id)] + rest;
    RunCons(s, PushSend(id), rest);
  }

  /** The subscriber makes room if need be, then the push goes through. */
  lemma {:induction false} CompletingRun(s: System, id: RequestId) returns (actions: seq<Action>)
    requires Safe(s) && InState(s, id, Cancelled) && FinalInFlight(s, id) && s.depth > 0
    ensures InState(Run(s, actions), id, Complete)
  {
    OwnedOf(s.table, s.tasks, id, s.depth);
    hide Safe;
    if s.tasks[id].Finishing? {
      actions := FinishCompletes(s, id);
    } else {
      var c := s.tasks[id].channel;
      if |s.table.channels[c].buffer| < s.depth {
        actions := SendCompletes(s, id);
      } else {
        assert Holds(s, c) && Enabled(s, Receive(c));
        assert Next(s, Receive(c)).table.channels[c] == Take(s.table.channels[c]);
        var rest := SendCompletes(Next(s, Receive(c)), id);
        actions := [Receive(c)] + rest;
        RunCons(s, Receive(c), rest);
      }
    }
  }

  /** Such a run from the start: cancel returns Ok while the final push is in its second phase, and
      the request still ends Complete. */
  lemma {:induction false} CancelThenComplete(id: RequestId, depth: nat)
    requires depth > 0
    ensures var f := Frame(id, 0, [], true);
            var before := [AcceptInsert(id, Normal)] + ([AcceptFinish(id, true)]
                          + ([Subscribe(id)] + ([PushBegin(f)] + ([Cancel(id)] + []))));
            && InState(Run(Start(depth), before), id, Cancelled)
            && exists after :: InState(Run(Run(Start(depth), before), after), id, Complete)
  {
    var f := Frame(id, 0, [], true);
    var s0 := Start(depth);
    var s1 := Next(s0, AcceptInsert(id, Normal));
    var s2 := Next(s1, AcceptFinish(id, true));
    var s3 := Next(s2, Subscribe(id));
    var s4 := Next(s3, PushBegin(f));
    var s5 := Next(s4, Cancel(id));
    assert s1.table.requests[id].channel == 0 && s1.table.channels[0] == FRESH_CHANNEL;
    RunCons(s4, Cancel(id), []);
    RunCons(s3, PushBegin(f), [Cancel(id)] + []);
    RunCons(s2, Subscribe(id), [PushBegin(f)] + ([Cancel(id)] + []));
    RunCons(s1, AcceptFinish(id, true), [Subscribe(id)] + ([PushBegin(f)] + ([Cancel(id)] + [])));
    RunCons(s0, AcceptInsert(id, Normal),
            [AcceptFinish(id, true)] + ([Subscribe(id)] + ([PushBegin(f)] + ([Cancel(id)] + []))));
    assert s5.tasks[id] == Sending(f, 0) && s5.table.channels[0].open;
    var rest := SendCompletes(s5, id);
  }

  /** And one that leaves through the rollback: cancelled while accept is still asking. */
  lemma {:induction false} CancelThenRollback(id: RequestId, depth: nat)
    ensures var before := [AcceptInsert(id, Normal)] + ([Cancel(id)] + []);
            && InState(Run(Start(depth), before), id, Cancelled)
            && exists after :: id !in Run(Run(Start(depth), before), after).table.requests
  {
    var s1 := Next(Start(depth), AcceptInsert(id, Normal));
    RunCons(s1, Cancel(id), []);
    RunCons(Start(depth), AcceptInsert(id, Normal), [Cancel(id)] + []);
    var rest := RefusingRun(Next(s1, Cancel(id)), id);
  }

  // ---- what the callers' rule is for -----------------------------------------------------------------

  /** Two producers on one request, their phases crossing: both frames pass the index check, both
      sends succeed, and the subscriber gets them in the wrong order. */
  lemma {:induction false} TwoProducersReorder(t: Table, f: Frame, g: Frame, depth: nat)
    requires Tracks(t, depth) && f.id == g.id && f.index < g.index
    requires PushError(t, f) == None
    requires t.channels[t.requests[f.id].channel].open && |t.channels[t.requests[f.id].channel].buffer| + 2 <= depth
    ensures var c := t.requests[f.id].channel;
            var t1 := Advance(t, f);
            && PushError(t1, g) == None
            && var t2 := Advance(t1, g);
               && TrySend(t2.channels[c], depth) == Sent
               && var t3 := Send(t2, c, g);
                  && TrySend(t3.channels[c], depth) == Sent
                  && Send(t3, c, f).channels[c].sent == t.channels[c].sent + [g] + [f]
                  && !Increasing(Send(t3, c, f).channels[c].sent)
  {
    var c := t.requests[f.id].channel;
    var s := t.channels[c].sent + [g] + [f];
    var n := |t.channels[c].sent|;
    assert s[n] == g && s[n + 1] == f;
  }

  // ---- consumed indices -------------------------------------------------------------------------

  /** The request is there, its accept has returned, and index n has been used up. */
  predicate Consumed(s: System, id: RequestId, n: nat) {
    && id in s.table.requests && !InAccept(s, id)
    && s.table.requests[id].last.Some? && n <= s.table.requests[id].last.value
  }

  lemma {:induction false} ConsumedStep(s: System, a: Action, id: RequestId, n: nat)
    requires Consumed(s, id, n)
    ensures Consumed(Next(s, a), id, n)
  {
  }

  lemma {:induction false} ConsumedStays(s: System, actions: seq<Action>, id: RequestId, n: nat)
    requires Consumed(s, id, n)
    ensures Consumed(Run(s, actions), id, n)
    decreases |actions|
  {
    if actions != [] {
      ConsumedStep(s, actions[0], id, n);
      hide Consumed, Next;
      ConsumedStays(Next(s, actions[0]), actions[1..], id, n);
    }
  }

  /** Once a push has passed phase 1, whatever becomes of it: over every interleaving its request
      stays in the table, and no push of that index or an earlier one passes phase 1 again. */
  lemma {:induction false} IndexIsConsumed(s: System, f: Frame, actions: seq<Action>, g: Frame)
    requires Enabled(s, PushBegin(f)) && g.id == f.id && g.index <= f.index
    ensures var s' := Run(Perform(s, PushBegin(f)), actions);
            f.id in s'.table.requests && PushError(s'.table, g).Some? && !Enabled(s', PushBegin(g))
  {
    ConsumedStays(Perform(s, PushBegin(f)), actions, f.id, f.index);
    hide Run;
  }
}
