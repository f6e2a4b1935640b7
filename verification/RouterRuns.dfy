/** Whole runs of the router with each call atomic: what reaches the subscriber is exactly what was
    pushed successfully, terminal states are final, and a refused accept leaves no trace. */
module RouterRuns {
  import opened Router

  datatype State = State(table: Table, shuttingDown: bool, depth: nat)

  function Start(perRequestQueueDepth: nat): State {
    State(Table(map[], []), false, if perRequestQueueDepth >= 1 then perRequestQueueDepth else 1)
  }

  datatype Call =
    | Accept(id: RequestId, priority: Priority, submitted: Result<()>)
    | Push(frame: Frame)
    | Subscribe(id: RequestId)
    | Cancel(id: RequestId)
    | Receive(c: ChannelId)
    | DropReceiver(c: ChannelId)
    | Shutdown

  function Gate(s: State, error: Option<RouterError>): Result<()> {
    if s.shuttingDown then Err(ShuttingDown) else if error.Some? then Err(error.value) else Ok(())
  }

  predicate Holds(t: Table, c: ChannelId) {
    c < |t.channels| && t.channels[c].taken && t.channels[c].open
  }

  function Outcome(s: State, call: Call): Result<()> {
    match call
    case Accept(id, _, submitted) =>
      if s.shuttingDown then Err(ShuttingDown)
      else if id in s.table.requests then Err(DuplicateRequest(id))
      else submitted
    case Push(f) => PushResult(s.table, f, s.shuttingDown, s.depth)
    case Subscribe(id) => Gate(s, SubscribeError(s.table, id))
    case Cancel(id) => Gate(s, CancelError(s.table, id))
    case _ => Ok(())
  }

  function After(s: State, call: Call): State {
    var t := s.table;
    match call
    case Accept(id, p, submitted) =>
      if s.shuttingDown || id in t.requests then s
      else s.(table := if submitted.Ok? then Register(t, id, p) else Unregister(Register(t, id, p), id))
    case Push(f) => s.(table := AfterPush(t, f, s.shuttingDown, s.depth))
    case Subscribe(id) => if Outcome(s, call).Ok? then s.(table := TakeReceiver(t, id)) else s
    case Cancel(id) => if Outcome(s, call).Ok? then s.(table := MarkCancelled(t, id)) else s
    case Receive(c) =>
      if Holds(t, c) && t.channels[c].buffer != [] then
          s.(table := t.(channels := t.channels[c := Take(t.channels[c])])) else s
    case DropReceiver(c) =>
      if Holds(t, c) then s.(table := t.(channels := t.channels[c := Close(t.channels[c])])) else s
    case Shutdown => s.(shuttingDown := true)
  }

  lemma {:induction false} AfterTracks(s: State, call: Call)
    requires Tracks(s.table, s.depth)
    ensures Tracks(After(s, call).table, After(s, call).depth)
  {
    var t := s.table;
    hide Tracks;
    match call
    case Accept(id, p, submitted) =>
      if !s.shuttingDown && id !in t.requests {
        RegisterTracks(t, id, p, s.depth);
        UnregisterTracks(Register(t, id, p), id, s.depth);
      }
    case Push(f) => PushTracks(t, f, s.depth);
    case Subscribe(id) => if Outcome(s, call).Ok? { SubscribeTracks(t, id, s.depth); }
    case Cancel(id) => if Outcome(s, call).Ok? { CancelTracks(t, id, s.depth); }
    case Receive(c) => if Holds(t, c) && t.channels[c].buffer != [] { ReceiveTracks(t, c, s.depth); }
    case DropReceiver(c) => if Holds(t, c) { DropTracks(t, c, s.depth); }
    case Shutdown =>
  }

  lemma {:induction false} DropTracks(t: Table, c: ChannelId, depth: nat)
    requires Tracks(t, depth) && Holds(t, c)
    ensures Tracks(t.(channels := t.channels[c := Close(t.channels[c])]), depth)
  {
  }

  function Run(s: State, calls: seq<Call>): State
    decreases |calls|
  {
    if calls == [] then s else Run(After(s, calls[0]), calls[1..])
  }

  // ---- conservation of frames ---------------------------------------------------------------------

  function PushedBy(s: State, call: Call, id: RequestId): seq<Frame> {
    if call.Push? && call.frame.id == id && Outcome(s, call).Ok? then [call.frame] else []
  }

  /** The frames of request id whose push returned Ok, in push order. */
  function Pushed(s: State, calls: seq<Call>, id: RequestId): seq<Frame>
    decreases |calls|
  {
    if calls == [] then [] else PushedBy(s, calls[0], id) + Pushed(After(s, calls[0]), calls[1..], id)
  }

  /** Everything ever sent for id. */
  function History(s: State, id: RequestId): seq<Frame> {
    if id in s.table.requests && s.table.requests[id].channel < |s.table.channels| then
        s.table.channels[s.table.requests[id].channel].sent else []
  }

  lemma {:induction false} PushHistory(s: State, f: Frame, id: RequestId)
    requires Placed(s.table) && Separate(s.table)
    ensures History(After(s, Push(f)), id) == History(s, id) + PushedBy(s, Push(f), id)
  {
  }

  lemma {:induction false} StepHistory(s: State, call: Call, id: RequestId)
    requires Placed(s.table) && Separate(s.table)
    ensures History(After(s, call), id) == History(s, id) + PushedBy(s, call, id)
  {
    if call.Push? {
      PushHistory(s, call.frame, id);
    } else {
      OtherHistory(s, call, id);
    }
  }

  lemma {:induction false} OtherHistory(s: State, call: Call, id: RequestId)
    requires Placed(s.table) && !call.Push?
    ensures History(After(s, call), id) == History(s, id)
  {
  }

  lemma {:induction false} AfterDepth(s: State, call: Call)
    ensures After(s, call).depth == s.depth
  {
  }

  lemma {:induction false} RunTracks(s: State, calls: seq<Call>)
    requires Tracks(s.table, s.depth)
    ensures Tracks(Run(s, calls).table, s.depth) && Run(s, calls).depth == s.depth
    decreases |calls|
  {
    if calls != [] {
      AfterDepth(s, calls[0]);
      AfterTracks(s, calls[0]);
      hide Tracks, After;
      RunTracks(After(s, calls[0]), calls[1..]);
    }
  }

  lemma {:induction false} RunHistory(s: State, calls: seq<Call>, id: RequestId)
    requires Tracks(s.table, s.depth)
    ensures History(Run(s, calls), id) == History(s, id) + Pushed(s, calls, id)
    decreases |calls|
  {
    hide History, PushedBy, After;
    if calls != [] {
      AfterDepth(s, calls[0]);
      AfterTracks(s, calls[0]);
      StepHistory(s, calls[0], id);
      hide Tracks;
      RunHistory(After(s, calls[0]), calls[1..], id);
    }
  }

  lemma {:induction false} StartTracks(depth: nat)
    ensures Tracks(Start(depth).table, Start(depth).depth)
  {
  }

  /** Over every run: for each request, the frames its subscriber has received followed by those
      still in the channel are exactly the frames pushed with Ok, in push order, while the receiver
      lives (afterwards the received ones are a prefix); their indices strictly increase; at most
      max(depth, 1) wait; the sender is held exactly in the non-terminal states; and the request is
      Complete exactly when a final frame was pushed with Ok. */
  lemma {:induction false} PushedIsDelivered(perRequestQueueDepth: nat, calls: seq<Call>, id: RequestId)
    ensures var s0 := Start(perRequestQueueDepth);
            var s, pushed := Run(s0, calls), Pushed(s0, calls, id);
            && Increasing(pushed) && FinalLast(pushed)
            && (id !in s.table.requests ==> pushed == [])
            && (id in s.table.requests ==>
                  var e := s.table.requests[id];
                  && e.channel < |s.table.channels|
                  && var ch := s.table.channels[e.channel];
                     && (ch.open ==> ch.received + ch.buffer == pushed)
                     && ch.received <= pushed
                     && |ch.buffer| <= s0.depth
                     && (e.hasSender <==> !e.state.Terminal())
                     && (e.state == Complete <==> HasFinal(pushed)))
  {
    var s0 := Start(perRequestQueueDepth);
    StartTracks(perRequestQueueDepth);
    RunTracks(s0, calls);
    RunHistory(s0, calls, id);
    var s, pushed := Run(s0, calls), Pushed(s0, calls, id);
    assert History(s, id) == pushed;
    hide Run, Pushed;
    if id in s.table.requests {
      OwnedOf(s.table, map[], id, s.depth);
    }
  }

  // ---- terminal states ------------------------------------------------------------------------------

  /** A request in a terminal state stays in that state over every run. */
  lemma {:induction false} TerminalStays(s: State, calls: seq<Call>, id: RequestId)
    requires Tracks(s.table, s.depth)
    requires id in s.table.requests && s.table.requests[id].state.Terminal()
    ensures id in Run(s, calls).table.requests
    ensures Run(s, calls).table.requests[id].state == s.table.requests[id].state
    decreases |calls|
  {
    if calls != [] {
      AfterTracks(s, calls[0]);
      TerminalStep(s, calls[0], id);
      hide After, Tracks;
      TerminalStays(After(s, calls[0]), calls[1..], id);
    }
  }

  lemma {:induction false} TerminalStep(s: State, call: Call, id: RequestId)
    requires Tracks(s.table, s.depth)
    requires id in s.table.requests && s.table.requests[id].state.Terminal()
    ensures id in After(s, call).table.requests
    ensures After(s, call).table.requests[id].state == s.table.requests[id].state
  {
    hide Tracks, Put;
    assert s.table.requests[id].state.Terminal();
    if call.Accept? && !s.shuttingDown && call.id !in s.table.requests {
      RollbackRestores(s.table, call.id, call.priority);
      hide Unregister;
    }
  }

  /** An accept the scheduler refuses leaves the map as it was, and the id free for a later accept. */
  lemma {:induction false} RefusedAcceptRestores(s: State, id: RequestId, priority: Priority, error: RouterError)
    requires Tracks(s.table, s.depth)
    ensures var s' := After(s, Accept(id, priority, Err(error)));
            && s'.table.requests == s.table.requests
            && (forall c :: 0 <= c < |s.table.channels| ==>
                c < |s'.table.channels| && s'.table.channels[c] == s.table.channels[c])
            && (Outcome(s, Accept(id, priority, Err(error))) == Err(error) && !s.shuttingDown && id !in s.table.requests
                ==> Outcome(s', Accept(id, priority, Ok(()))).Ok?)
  {
    hide Tracks;
    if !s.shuttingDown && id !in s.table.requests {
      RollbackRestores(s.table, id, priority);
      hide Unregister, Register;
    }
  }

  // ---- failed pushes -------------------------------------------------------------------------------

  /** A failed push leaves the table as it was, so that repeating it answers the same, exactly when it
      failed in phase 1. Refused by the channel, full or closed, it has used up its index. */
  lemma {:induction false} FailedPushIsHarmlessIff(t: Table, f: Frame, depth: nat)
    requires PushResult(t, f, false, depth).Err?
    ensures var t' := AfterPush(t, f, false, depth);
            && (t' == t <==> PushError(t, f).Some?)
            && (PushResult(t', f, false, depth) == PushResult(t, f, false, depth) <==> PushError(t, f).Some?)
            && (PushError(t, f) == None ==>
                  PushResult(t', f, false, depth) == Err(OutOfOrderFrame(f.id, f.index, f.index)))
  {
    if PushError(t, f) == None {
      var t' := AfterPush(t, f, false, depth);
      assert t'.requests[f.id].last == Some(f.index) != t.requests[f.id].last;
    }
  }

  predicate Consumed(t: Table, id: RequestId, n: nat) {
    id in t.requests && t.requests[id].last.Some? && n <= t.requests[id].last.value
  }

  lemma {:induction false} ConsumedStep(s: State, call: Call, id: RequestId, n: nat)
    requires Consumed(s.table, id, n)
    ensures Consumed(After(s, call).table, id, n)
  {
    hide Put;
    if call.Accept? && !s.shuttingDown && call.id !in s.table.requests {
      RollbackRestores(s.table, call.id, call.priority);
      hide Unregister;
    }
  }

  lemma {:induction false} ConsumedStays(s: State, calls: seq<Call>, id: RequestId, n: nat)
    requires Consumed(s.table, id, n)
    ensures Consumed(Run(s, calls).table, id, n)
    decreases |calls|
  {
    if calls != [] {
      ConsumedStep(s, calls[0], id, n);
      hide Consumed, After;
      ConsumedStays(After(s, calls[0]), calls[1..], id, n);
    }
  }

  /** After a push that passed phase 1, refused by the channel or not, no run makes a push of the
      same or an earlier index of that request succeed. */
  lemma {:induction false} RefusedIndexIsConsumed(s: State, f: Frame, calls: seq<Call>, g: Frame)
    requires !s.shuttingDown && PushError(s.table, f) == None && g.id == f.id && g.index <= f.index
    ensures Outcome(Run(After(s, Push(f)), calls), Push(g)).Err?
    ensures Consumed(Run(After(s, Push(f)), calls).table, f.id, f.index)
  {
    assert Consumed(After(s, Push(f)).table, f.id, f.index);
    ConsumedStays(After(s, Push(f)), calls, f.id, f.index);
    hide Run, After;
  }

  // ---- what state() tells ----------------------------------------------------------------------------

  type Event = (State, Call) -> bool

  predicate Happens(s: State, calls: seq<Call>, event: Event)
    decreases |calls|
  {
    calls != [] && (event(s, calls[0]) || Happens(After(s, calls[0]), calls[1..], event))
  }

  function Accepts(id: RequestId): Event {
    (s: State, call: Call) => call.Accept? && call.id == id && Outcome(s, call).Ok?
  }

  function Cancels(id: RequestId): Event {
    (s: State, call: Call) => call.Cancel? && call.id == id && Outcome(s, call).Ok?
  }

  /** A push that passes phase 1, whether or not its channel takes it. */
  function Starts(id: RequestId): Event {
    (s: State, call: Call) =>
      call.Push? && call.frame.id == id && !s.shuttingDown && PushError(s.table, call.frame) == None
  }

  function Finishes(id: RequestId): Event {
    (s: State, call: Call) => call.Push? && call.frame.id == id && call.frame.isFinal && Outcome(s, call).Ok?
  }

  function StateOf(t: Table, id: RequestId): Option<RequestState> {
    if id in t.requests then Some(t.requests[id].state) else None
  }

  /** The state those events lead to from q. */
  function Reached(q: Option<RequestState>, accepted: bool, started: bool, cancelled: bool, finished: bool)
    : Option<RequestState>
  {
    if q.None? && !accepted then None
    else if q.Some? && q.value.Terminal() then q
    else if cancelled then Some(Cancelled)
    else if finished then Some(Complete)
    else if started || q == Some(Streaming) then Some(Streaming)
    else Some(Scheduled)
  }

  function ReachedOver(s: State, calls: seq<Call>, id: RequestId): Option<RequestState> {
    Reached(StateOf(s.table, id), Happens(s, calls, Accepts(id)), Happens(s, calls, Starts(id)),
            Happens(s, calls, Cancels(id)), Happens(s, calls, Finishes(id)))
  }

  lemma {:induction false} NotCancelledAgain(s: State, calls: seq<Call>, id: RequestId)
    requires Tracks(s.table, s.depth)
    requires id in s.table.requests && s.table.requests[id].state.Terminal()
    ensures !Happens(s, calls, Cancels(id))
    decreases |calls|
  {
    if calls != [] {
      AfterTracks(s, calls[0]);
      AfterDepth(s, calls[0]);
      TerminalStep(s, calls[0], id);
      hide After, Tracks;
      NotCancelledAgain(After(s, calls[0]), calls[1..], id);
    }
  }

  /** Generating is passed through within phase 1; Received and Failed are never entered. */
  predicate Usual(q: Option<RequestState>) {
    q.None? || q.value.Scheduled? || q.value.Streaming? || q.value.Complete? || q.value.Cancelled?
  }

  predicate StepReaches(s: State, call: Call, id: RequestId) {
    && StateOf(After(s, call).table, id)
       == Reached(StateOf(s.table, id), Accepts(id)(s, call), Starts(id)(s, call), Cancels(id)(s, call),
                  Finishes(id)(s, call))
    && (StateOf(s.table, id) == None ==> !Starts(id)(s, call) && !Cancels(id)(s, call) && !Finishes(id)(s, call))
  }

  lemma {:induction false} PushReaches(s: State, f: Frame, id: RequestId)
    requires Usual(StateOf(s.table, id))
    ensures StepReaches(s, Push(f), id)
  {
    hide Put;
  }

  lemma {:induction false} StepReached(s: State, call: Call, id: RequestId)
    requires Usual(StateOf(s.table, id))
    ensures StepReaches(s, call, id)
  {
    match call
    case Push(f) => PushReaches(s, f, id);
    case Accept(other, priority, _) =>
      if !s.shuttingDown && other !in s.table.requests {
        RollbackRestores(s.table, other, priority);
        hide Unregister;
      }
    case _ =>
  }

  /** Splitting the events of a run at its first call. */
  lemma {:induction false} ReachedChains(q: Option<RequestState>, q': Option<RequestState>,
                                         a: bool, b: bool, c: bool, d: bool,
                                         a': bool, b': bool, c': bool, d': bool)
    requires q' == Reached(q, a, b, c, d)
    requires q == None ==> !b && !c && !d
    requires q'.Some? && q'.value.Terminal() ==> !c'
    requires Usual(q')
    ensures Reached(q', a', b', c', d') == Reached(q, a || a', b || b', c || c', d || d')
  {
  }

  lemma {:induction false} RunReaches(s: State, calls: seq<Call>, id: RequestId)
    requires Tracks(s.table, s.depth)
    ensures StateOf(Run(s, calls).table, id) == ReachedOver(s, calls, id)
    decreases |calls|
  {
    if id in s.table.requests {
      OwnedOf(s.table, map[], id, s.depth);
    }
    if calls != [] {
      var call, s' := calls[0], After(s, calls[0]);
      AfterTracks(s, call);
      AfterDepth(s, call);
      StepReached(s, call, id);
      if id in s'.table.requests {
        OwnedOf(s'.table, map[], id, s'.depth);
        if s'.table.requests[id].state.Terminal() {
          NotCancelledAgain(s', calls[1..], id);
        }
      }
      hide After, Tracks, Accepts, Starts, Cancels, Finishes, Reached, Owned;
      RunReaches(s', calls[1..], id);
      ReachedChains(StateOf(s.table, id), StateOf(s'.table, id),
                    Accepts(id)(s, call), Starts(id)(s, call), Cancels(id)(s, call), Finishes(id)(s, call),
                    Happens(s', calls[1..], Accepts(id)), Happens(s', calls[1..], Starts(id)),
                    Happens(s', calls[1..], Cancels(id)), Happens(s', calls[1..], Finishes(id)));
    }
  }

  /** What state() answers after any run of a new router: none if id was never accepted; Cancelled if
      a cancel succeeded; Complete if a final frame was pushed with Ok; otherwise Streaming or Scheduled
      as some push has passed its checks or none has. */
  lemma {:induction false} StateTellsHistory(perRequestQueueDepth: nat, calls: seq<Call>, id: RequestId)
    ensures var s0 := Start(perRequestQueueDepth);
            StateOf(Run(s0, calls).table, id)
            == (if !Happens(s0, calls, Accepts(id)) then None
                else if Happens(s0, calls, Cancels(id)) then Some(Cancelled)
                else if Happens(s0, calls, Finishes(id)) then Some(Complete)
                else if Happens(s0, calls, Starts(id)) then Some(Streaming)
                else Some(Scheduled))
  {
    StartTracks(perRequestQueueDepth);
    RunReaches(Start(perRequestQueueDepth), calls, id);
    hide Run, Happens;
  }
}
