/** Every answer of the router, over every run of atomic calls, by the history of the request it names. */
module RouterAnswers {
  import opened Router
  import opened RouterRuns
  import opened RouterView

  // ---- the reference ---------------------------------------------------------------------------------

  /** What the calls so far mean for one request, and whether shutdown was among them. */
  datatype Seen = Seen(view: Option<View>, closed: bool)

  const NOTHING := Seen(None, false)

  /** name is what the receiver of a newly accepted request would be called. */
  function Observe(seen: Seen, name: ChannelId, depth: nat, id: RequestId, call: Call): Seen {
    match call
    case Shutdown => seen.(closed := true)
    case Accept(other, priority, submitted) =>
      if !seen.closed && other == id && seen.view.None? && submitted.Ok? then
        seen.(view := Some(Accepted(name, priority)))
      else seen
    case Push(f) =>
      if !seen.closed && f.id == id && seen.view.Some? && seen.view.value.Admits(f) then
        var v := seen.view.value.Validated(f);
        seen.(view := Some(if !v.Room(depth) then v
                           else if f.isFinal then v.Delivered(f).Completed() else v.Delivered(f)))
      else seen
    case Subscribe(other) =>
      if !seen.closed && other == id && seen.view.Some? && seen.view.value.parked then
        seen.(view := Some(seen.view.value.Subscribed()))
      else seen
    case Cancel(other) =>
      if !seen.closed && other == id && seen.view.Some? && !seen.view.value.state.Terminal() then
        seen.(view := Some(seen.view.value.Ended()))
      else seen
    case Receive(c) =>
      if seen.view.Some? && c == seen.view.value.channel && seen.view.value.Readable() then
        seen.(view := Some(seen.view.value.Read()))
      else seen
    case DropReceiver(c) =>
      if seen.view.Some? && c == seen.view.value.channel && seen.view.value.alive && seen.view.value.taken then
        seen.(view := Some(seen.view.value.Dropped()))
      else seen
  }

  function SeenOver(s: State, seen: Seen, calls: seq<Call>, id: RequestId): Seen
    decreases |calls|
  {
    if calls == [] then seen
    else SeenOver(After(s, calls[0]), Observe(seen, |s.table.channels|, s.depth, id, calls[0]), calls[1..], id)
  }

  // ---- the table agrees ---------------------------------------------------------------------------------

  ghost predicate Agrees(s: State, seen: Seen, id: RequestId) {
    s.shuttingDown == seen.closed && Matches(s.table, id, seen.view)
  }

  ghost predicate Sound(t: Table) {
    Placed(t) && Separate(t)
  }

  lemma {:induction false} PushAgrees(s: State, seen: Seen, id: RequestId, f: Frame)
    requires Sound(s.table) && Agrees(s, seen, id) && f.id == id
    ensures Agrees(After(s, Push(f)), Observe(seen, |s.table.channels|, s.depth, id, Push(f)), id)
  {
    if !s.shuttingDown && seen.view.Some? {
      var t, v := s.table, seen.view.value;
      AdvanceMatches(t, v, f);
      if v.Admits(f) {
        var t1, v1 := Advance(t, f), v.Validated(f);
        SendMatches(t1, v1, f, s.depth);
        if v1.Room(s.depth) {
          FinishMatches(Send(t1, v.channel, f), id, v1.Delivered(f));
        }
        hide Matches, Finish, Put;
      }
    }
  }

  lemma {:induction false} PushOther(s: State, seen: Seen, id: RequestId, f: Frame)
    requires Sound(s.table) && Agrees(s, seen, id) && f.id != id
    ensures Agrees(After(s, Push(f)), seen, id)
  {
    OtherMatches(s.table, After(s, Push(f)).table, id, seen.view) by { hide Put; }
    hide Matches;
  }

  lemma {:induction false} AcceptAgrees(s: State, seen: Seen, id: RequestId, call: Call)
    requires Sound(s.table) && Agrees(s, seen, id) && call.Accept?
    ensures Agrees(After(s, call), Observe(seen, |s.table.channels|, s.depth, id, call), id)
  {
    if !s.shuttingDown && call.id !in s.table.requests {
      RollbackRestores(s.table, call.id, call.priority);
      if call.submitted.Ok? && call.id == id {
        RegisterMatches(s.table, id, call.priority);
      } else {
        OtherMatches(s.table, After(s, call).table, id, seen.view) by { hide Unregister; }
      }
    }
    hide Matches, Unregister;
  }

  lemma {:induction false} CancelAgrees(s: State, seen: Seen, id: RequestId, other: RequestId)
    requires Sound(s.table) && Agrees(s, seen, id)
    ensures Agrees(After(s, Cancel(other)), Observe(seen, |s.table.channels|, s.depth, id, Cancel(other)), id)
  {
    if other == id {
      if seen.view.Some? {
        CancelMatches(s.table, id, seen.view.value);
      }
    } else {
      OtherMatches(s.table, After(s, Cancel(other)).table, id, seen.view) by { hide Close; }
    }
    hide MarkCancelled;
  }

  lemma {:induction false} SubscribeAgrees(s: State, seen: Seen, id: RequestId, other: RequestId)
    requires Sound(s.table) && Agrees(s, seen, id)
    ensures Agrees(After(s, Subscribe(other)), Observe(seen, |s.table.channels|, s.depth, id, Subscribe(other)), id)
  {
    if other == id {
      if seen.view.Some? {
        SubscribeMatches(s.table, id, seen.view.value);
      }
    } else {
      OtherMatches(s.table, After(s, Subscribe(other)).table, id, seen.view);
    }
    hide TakeReceiver;
  }

  lemma {:induction false} SubscriberAgrees(s: State, seen: Seen, id: RequestId, call: Call)
    requires Sound(s.table) && Agrees(s, seen, id) && (call.Receive? || call.DropReceiver?)
    ensures Agrees(After(s, call), Observe(seen, |s.table.channels|, s.depth, id, call), id)
  {
    if seen.view.Some? && call.c == seen.view.value.channel {
      var v := seen.view.value;
      if v.Readable() {
        ReadMatches(s.table, id, v);
      }
      DropMatches(s.table, id, v);
    } else {
      OtherMatches(s.table, After(s, call).table, id, seen.view) by { hide Take, Close; }
    }
  }

  lemma {:induction false} StepAgrees(s: State, seen: Seen, id: RequestId, call: Call)
    requires Tracks(s.table, s.depth) && Agrees(s, seen, id)
    ensures Agrees(After(s, call), Observe(seen, |s.table.channels|, s.depth, id, call), id)
  {
    assert Sound(s.table);
    hide Tracks, Sound;
    match call
    case Accept(_, _, _) => AcceptAgrees(s, seen, id, call);
    case Push(f) => if f.id == id { PushAgrees(s, seen, id, f); } else { PushOther(s, seen, id, f); }
    case Subscribe(other) => SubscribeAgrees(s, seen, id, other);
    case Cancel(other) => CancelAgrees(s, seen, id, other);
    case Receive(_) => SubscriberAgrees(s, seen, id, call);
    case DropReceiver(_) => SubscriberAgrees(s, seen, id, call);
    case Shutdown =>
  }

  lemma {:induction false} RunAgrees(s: State, seen: Seen, calls: seq<Call>, id: RequestId)
    requires Tracks(s.table, s.depth) && Agrees(s, seen, id)
    ensures Agrees(Run(s, calls), SeenOver(s, seen, calls, id), id)
    decreases |calls|
  {
    if calls != [] {
      StepAgrees(s, seen, id, calls[0]);
      AfterDepth(s, calls[0]);
      AfterTracks(s, calls[0]);
      hide Tracks, After, Agrees, Observe;
      RunAgrees(After(s, calls[0]), Observe(seen, |s.table.channels|, s.depth, id, calls[0]), calls[1..], id);
    }
  }

  /** What a run of a new router means for one request. */
  function SeenBy(perRequestQueueDepth: nat, calls: seq<Call>, id: RequestId): Seen {
    SeenOver(Start(perRequestQueueDepth), NOTHING, calls, id)
  }

  lemma {:induction false} TableAgrees(perRequestQueueDepth: nat, calls: seq<Call>, id: RequestId)
    ensures Agrees(Run(Start(perRequestQueueDepth), calls), SeenBy(perRequestQueueDepth, calls, id), id)
    ensures Run(Start(perRequestQueueDepth), calls).depth
         == (if perRequestQueueDepth >= 1 then perRequestQueueDepth else 1)
  {
    StartTracks(perRequestQueueDepth);
    RunTracks(Start(perRequestQueueDepth), calls);
    RunAgrees(Start(perRequestQueueDepth), NOTHING, calls, id);
  }

  // ---- the answers ------------------------------------------------------------------------------------------

  /** After any run, a push on an open router is refused for a request never accepted, for one that has
      ended, and for an index not above the last, in that order; otherwise it is Ok exactly if the receiver
      lives and fewer than depth frames wait, Backpressure exactly if it lives and depth frames wait, and
      UnknownRequest exactly if it was dropped. */
  lemma {:induction false} PushAnswers(perRequestQueueDepth: nat, calls: seq<Call>, f: Frame)
    ensures var depth := if perRequestQueueDepth >= 1 then perRequestQueueDepth else 1;
            var seen := SeenBy(perRequestQueueDepth, calls, f.id);
            var answer := Outcome(Run(Start(perRequestQueueDepth), calls), Push(f));
            && (seen.closed ==> answer == Err(ShuttingDown))
            && (!seen.closed && seen.view == None ==> answer == Err(UnknownRequest(f.id)))
            && (!seen.closed && seen.view.Some? ==>
                  var v := seen.view.value;
                  && (v.state.Terminal() ==>
                        answer == Err(InvalidTransition(v.state, if f.isFinal then Complete else Streaming)))
                  && (!v.state.Terminal() && v.last.Some? && f.index <= v.last.value ==>
                        answer == Err(OutOfOrderFrame(f.id, f.index, v.last.value)))
                  && (!v.state.Terminal() && (v.last.Some? ==> v.last.value < f.index) ==>
                        && (answer == Ok(()) <==> v.alive && |v.sent| - v.got < depth)
                        && (answer == Err(Backpressure(f.id, depth)) <==> v.alive && |v.sent| - v.got >= depth)
                        && (answer == Err(UnknownRequest(f.id)) <==> !v.alive)
                        && (v.alive ==> v.got <= |v.sent| <= v.got + depth)))
  {
    TableAgrees(perRequestQueueDepth, calls, f.id);
    StartTracks(perRequestQueueDepth);
    RunTracks(Start(perRequestQueueDepth), calls);
    var s, seen := Run(Start(perRequestQueueDepth), calls), SeenBy(perRequestQueueDepth, calls, f.id);
    if seen.view.Some? {
      var v := seen.view.value;
      OwnedOf(s.table, map[], f.id, s.depth);
      AdvanceMatches(s.table, v, f);
      SendMatches(Advance(s.table, f), v.Validated(f), f, s.depth);
    }
    hide Run, SeenOver, Tracks, Owned;
  }

  /** The other calls: accept is refused while the id has a request, cancel for a request never accepted or
      ended, subscribe unless the receiver is still parked; all of them once shut down. */
  lemma {:induction false} OtherAnswers(perRequestQueueDepth: nat, calls: seq<Call>, id: RequestId, priority: Priority,
                                        submitted: Result<()>)
    ensures var s, seen := Run(Start(perRequestQueueDepth), calls), SeenBy(perRequestQueueDepth, calls, id);
            && Outcome(s, Accept(id, priority, submitted))
               == (if seen.closed then Err(ShuttingDown)
                   else if seen.view.Some? then Err(DuplicateRequest(id)) else submitted)
            && Outcome(s, Cancel(id))
               == (if seen.closed then Err(ShuttingDown)
                   else if seen.view.None? then Err(UnknownRequest(id))
                   else if seen.view.value.state.Terminal() then
                     Err(InvalidTransition(seen.view.value.state, Cancelled))
                   else Ok(()))
            && Outcome(s, Subscribe(id))
               == (if seen.closed then Err(ShuttingDown)
                   else if seen.view.Some? && seen.view.value.parked then Ok(())
                   else Err(UnknownRequest(id)))
  {
    TableAgrees(perRequestQueueDepth, calls, id);
    hide Run, SeenOver;
  }
}
