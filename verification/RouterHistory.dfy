/** The interleaved router against the same per-request reference: over every interleaving, what a request
    has been sent, what its subscriber has read, its state and the call in progress on it are fixed by the
    actions of its callers. */
module RouterHistory {
  import opened Router
  import opened RouterConcurrent
  import opened RouterView

  datatype Phase = Quiet | Accepting | Pushing | Completing

  /** begun: the frame of the latest push that passed phase 1. */
  datatype Seen = Seen(view: Option<View>, begun: Option<Frame>, phase: Phase)

  const NOTHING := Seen(None, None, Quiet)

  /** What an action that ran means for request id. A frame is sent exactly if its second phase runs while the
      receiver lives and fewer than depth frames wait. */
  function Observe(seen: Seen, name: ChannelId, depth: nat, id: RequestId, a: Action): Seen {
    match a
    case AcceptInsert(other, priority) =>
      if other == id then Seen(Some(Accepted(name, priority)), None, Accepting) else seen
    case AcceptFinish(other, submitted) =>
      if other == id then seen.(view := if submitted then seen.view else None, phase := Quiet) else seen
    case PushBegin(f) =>
      if f.id == id && seen.view.Some? then Seen(Some(seen.view.value.Validated(f)), Some(f), Pushing) else seen
    case PushSend(other) =>
      if other == id && seen.view.Some? && seen.begun.Some? then
        if seen.view.value.Room(depth) then
          seen.(view := Some(seen.view.value.Delivered(seen.begun.value)),
                phase := if seen.begun.value.isFinal then Completing else Quiet)
        else seen.(phase := Quiet)
      else seen
    case PushFinish(other) =>
      if other == id && seen.view.Some? then seen.(view := Some(seen.view.value.Completed()), phase := Quiet) else seen
    case Subscribe(other) =>
      if other == id && seen.view.Some? then seen.(view := Some(seen.view.value.Subscribed())) else seen
    case Cancel(other) =>
      if other == id && seen.view.Some? then seen.(view := Some(seen.view.value.Ended())) else seen
    case Receive(c) =>
      if seen.view.Some? && c == seen.view.value.channel then seen.(view := Some(seen.view.value.Read())) else seen
    case DropReceiver(c) =>
      if seen.view.Some? && c == seen.view.value.channel then seen.(view := Some(seen.view.value.Dropped())) else seen
  }

  function SeenOver(s: System, seen: Seen, actions: seq<Action>, id: RequestId): Seen
    decreases |actions|
  {
    if actions == [] then seen
    else SeenOver(Next(s, actions[0]),
                  if Enabled(s, actions[0]) then Observe(seen, |s.table.channels|, s.depth, id, actions[0]) else seen,
                  actions[1..], id)
  }

  // ---- the system agrees --------------------------------------------------------------------------------

  function TaskOf(seen: Seen): Option<Task> {
    match seen.phase
    case Quiet => None
    case Accepting => Some(Submitting)
    case Pushing =>
      if seen.view.Some? && seen.begun.Some? then Some(Sending(seen.begun.value, seen.view.value.channel)) else None
    case Completing => Some(Finishing)
  }

  ghost predicate Agrees(s: System, seen: Seen, id: RequestId) {
    && Matches(s.table, id, seen.view)
    && TaskFor(s.tasks, id) == TaskOf(seen)
    && (seen.phase == Pushing ==> seen.view.Some? && seen.begun.Some? && seen.begun.value.id == id)
  }

  ghost predicate Sound(s: System) {
    && Placed(s.table) && Separate(s.table) && TasksKnown(s.table, s.tasks)
    && forall id :: id in s.tasks && s.tasks[id].Sending? ==> s.tasks[id].channel == s.table.requests[id].channel
  }

  lemma {:induction false} SafeIsSound(s: System)
    requires Safe(s)
    ensures Sound(s)
  {
    forall id | id in s.tasks && s.tasks[id].Sending?
      ensures s.tasks[id].channel == s.table.requests[id].channel
    {
      OwnedOf(s.table, s.tasks, id, s.depth);
    }
    hide Owned, Consistent;
  }

  /** The request an accept, push, subscribe or cancel is about. */
  function Subject(a: Action): Option<RequestId> {
    match a
    case AcceptInsert(id, _) => Some(id)
    case AcceptFinish(id, _) => Some(id)
    case PushBegin(f) => Some(f.id)
    case PushSend(id) => Some(id)
    case PushFinish(id) => Some(id)
    case Subscribe(id) => Some(id)
    case Cancel(id) => Some(id)
    case _ => None
  }

  lemma {:induction false} OtherSubject(s: System, seen: Seen, id: RequestId, a: Action)
    requires Enabled(s, a) && Sound(s) && Agrees(s, seen, id) && Subject(a).Some? && Subject(a) != Some(id)
    ensures Agrees(Perform(s, a), seen, id) && Observe(seen, |s.table.channels|, s.depth, id, a) == seen
  {
    OtherMatches(s.table, Perform(s, a).table, id, seen.view) by { hide Put, Close; }
    hide Matches, Register, Unregister, Advance, Send, Finish, TakeReceiver, MarkCancelled;
  }

  lemma {:induction false} AcceptAgrees(s: System, seen: Seen, id: RequestId, a: Action)
    requires Enabled(s, a) && Agrees(s, seen, id) && Subject(a) == Some(id) && (a.AcceptInsert? || a.AcceptFinish?)
    ensures Agrees(Perform(s, a), Observe(seen, |s.table.channels|, s.depth, id, a), id)
  {
    if a.AcceptInsert? {
      RegisterMatches(s.table, id, a.priority);
      hide Matches, Register;
    }
  }

  lemma {:induction false} PushAgrees(s: System, seen: Seen, id: RequestId, a: Action)
    requires Enabled(s, a) && Sound(s) && Agrees(s, seen, id) && Subject(a) == Some(id)
    requires a.PushBegin? || a.PushSend? || a.PushFinish?
    ensures Agrees(Perform(s, a), Observe(seen, |s.table.channels|, s.depth, id, a), id)
  {
    assert id in s.table.requests;
    var v := seen.view.value;
    match a
    case PushBegin(f) =>
      AdvanceMatches(s.table, v, f);
      hide Matches, Advance;
    case PushSend(_) =>
      SendMatches(s.table, v, seen.begun.value, s.depth);
      hide Matches, Send;
    case PushFinish(_) =>
      FinishMatches(s.table, id, v);
      hide Matches, Finish;
  }

  lemma {:induction false} EndAgrees(s: System, seen: Seen, id: RequestId, a: Action)
    requires Enabled(s, a) && Agrees(s, seen, id) && Subject(a) == Some(id) && (a.Subscribe? || a.Cancel?)
    ensures Agrees(Perform(s, a), Observe(seen, |s.table.channels|, s.depth, id, a), id)
  {
    SubscribeMatches(s.table, id, seen.view.value);
    CancelMatches(s.table, id, seen.view.value);
    hide TakeReceiver, MarkCancelled;
  }

  lemma {:induction false} SubscriberAgrees(s: System, seen: Seen, id: RequestId, a: Action)
    requires Enabled(s, a) && Sound(s) && Agrees(s, seen, id) && (a.Receive? || a.DropReceiver?)
    ensures Agrees(Perform(s, a), Observe(seen, |s.table.channels|, s.depth, id, a), id)
  {
    if seen.view.Some? && a.c == seen.view.value.channel {
      var v := seen.view.value;
      if v.Readable() {
        ReadMatches(s.table, id, v);
      }
      DropMatches(s.table, id, v);
    } else {
      OtherMatches(s.table, Perform(s, a).table, id, seen.view) by { hide Take, Close; }
    }
  }

  lemma {:induction false} StepAgrees(s: System, seen: Seen, id: RequestId, a: Action)
    requires Enabled(s, a) && Safe(s) && Agrees(s, seen, id)
    ensures Agrees(Perform(s, a), Observe(seen, |s.table.channels|, s.depth, id, a), id)
  {
    SafeIsSound(s);
    hide Safe, Sound, Agrees, Perform, Observe, Enabled;
    if a.Receive? || a.DropReceiver? {
      SubscriberAgrees(s, seen, id, a);
    } else if Subject(a) != Some(id) {
      OtherSubject(s, seen, id, a);
    } else {
      match a
      case AcceptInsert(_, _) => AcceptAgrees(s, seen, id, a);
      case AcceptFinish(_, _) => AcceptAgrees(s, seen, id, a);
      case Subscribe(_) => EndAgrees(s, seen, id, a);
      case Cancel(_) => EndAgrees(s, seen, id, a);
      case _ => PushAgrees(s, seen, id, a);
    }
  }

  lemma {:induction false} RunAgrees(s: System, seen: Seen, actions: seq<Action>, id: RequestId)
    requires Safe(s) && Agrees(s, seen, id)
    ensures Agrees(Run(s, actions), SeenOver(s, seen, actions, id), id)
    decreases |actions|
  {
    if actions != [] {
      if Enabled(s, actions[0]) {
        StepAgrees(s, seen, id, actions[0]);
      }
      NextSafe(s, actions[0]);
      hide Safe, Agrees, Observe, Perform, Enabled;
      RunAgrees(Next(s, actions[0]),
                if Enabled(s, actions[0]) then Observe(seen, |s.table.channels|, s.depth, id, actions[0]) else seen,
                actions[1..], id);
    }
  }

  function SeenBy(depth: nat, actions: seq<Action>, id: RequestId): Seen {
    SeenOver(Start(depth), NOTHING, actions, id)
  }

  /** Over every interleaving and for every request: it is in the table with the state and last index its
      callers' actions led to; its channel was sent, in order, exactly the frames whose second phase ran while
      the receiver lived and fewer than depth frames waited; the subscriber has read the first of them, and while
      the receiver lives the rest are waiting. */
  lemma {:induction false} SentIsHistory(depth: nat, actions: seq<Action>, id: RequestId)
    ensures var s, seen := Run(Start(depth), actions), SeenBy(depth, actions, id);
            && (id in s.table.requests <==> seen.view.Some?)
            && (seen.view.Some? ==>
                  var v, e := seen.view.value, s.table.requests[id];
                  && e.state == v.state && e.priority == v.priority && e.last == v.last
                  && e.channel < |s.table.channels|
                  && var ch := s.table.channels[e.channel];
                     && ch.sent == v.sent && (ch.open <==> v.alive)
                     && v.got <= |v.sent| && ch.received == v.sent[..v.got]
                     && (v.alive ==> ch.received + ch.buffer == v.sent && |v.sent| - v.got <= depth))
  {
    RunSafe(Start(depth), actions);
    RunAgrees(Start(depth), NOTHING, actions, id);
    var s, seen := Run(Start(depth), actions), SeenBy(depth, actions, id);
    if seen.view.Some? {
      OwnedOf(s.table, s.tasks, id, s.depth);
      var v := seen.view.value;
      assert v.sent == v.sent[..v.got] + v.sent[v.got..];
    }
    hide Run, SeenOver, Safe, Owned;
  }

  /** A push passes phase 1 exactly if no call is in progress on its request, the request is there and has not
      ended, and the index is above the last. */
  lemma {:induction false} PushBeginsIff(depth: nat, actions: seq<Action>, f: Frame)
    ensures var seen := SeenBy(depth, actions, f.id);
            Enabled(Run(Start(depth), actions), PushBegin(f))
            <==> seen.phase == Quiet && seen.view.Some? && !seen.view.value.state.Terminal()
                 && (seen.view.value.last.Some? ==> seen.view.value.last.value < f.index)
  {
    RunSafe(Start(depth), actions);
    RunAgrees(Start(depth), NOTHING, actions, f.id);
    var s, seen := Run(Start(depth), actions), SeenBy(depth, actions, f.id);
    if seen.view.Some? {
      AdvanceMatches(s.table, seen.view.value, f);
    }
    SafeIsSound(s);
    hide Run, SeenOver, Safe;
  }

  lemma {:induction false} CallsOpenIff(s: System, seen: Seen, id: RequestId, priority: Priority, submitted: bool)
    requires Sound(s) && Agrees(s, seen, id)
    ensures Enabled(s, AcceptInsert(id, priority)) <==> seen.view.None?
    ensures Enabled(s, AcceptFinish(id, submitted)) <==> seen.phase == Accepting
    ensures Enabled(s, PushSend(id)) <==> seen.phase == Pushing
    ensures Enabled(s, PushFinish(id)) <==> seen.phase == Completing
  {
  }

  lemma {:induction false} EndsOpenIff(s: System, seen: Seen, id: RequestId)
    requires Agrees(s, seen, id)
    ensures Enabled(s, Subscribe(id)) <==> seen.view.Some? && seen.view.value.parked
    ensures Enabled(s, Cancel(id)) <==> seen.view.Some? && !seen.view.value.state.Terminal()
    ensures seen.view.Some? ==>
              var v := seen.view.value;
              && (Enabled(s, Receive(v.channel)) <==> v.alive && v.taken && v.got < |v.sent|)
              && (Enabled(s, DropReceiver(v.channel)) <==> v.alive && v.taken)
  {
  }

  /** Which other steps can be taken on a request, by the same history. */
  lemma {:induction false} StepsOpenIff(depth: nat, actions: seq<Action>, id: RequestId, priority: Priority,
                                        submitted: bool)
    ensures var s, seen := Run(Start(depth), actions), SeenBy(depth, actions, id);
            && (Enabled(s, AcceptInsert(id, priority)) <==> seen.view.None?)
            && (Enabled(s, AcceptFinish(id, submitted)) <==> seen.phase == Accepting)
            && (Enabled(s, PushSend(id)) <==> seen.phase == Pushing)
            && (Enabled(s, PushFinish(id)) <==> seen.phase == Completing)
            && (Enabled(s, Subscribe(id)) <==> seen.view.Some? && seen.view.value.parked)
            && (Enabled(s, Cancel(id)) <==> seen.view.Some? && !seen.view.value.state.Terminal())
            && (seen.view.Some? ==>
                  var v := seen.view.value;
                  && (Enabled(s, Receive(v.channel)) <==> v.alive && v.taken && v.got < |v.sent|)
                  && (Enabled(s, DropReceiver(v.channel)) <==> v.alive && v.taken))
  {
    StartAgrees(depth, id);
    RunSafe(Start(depth), actions);
    RunAgrees(Start(depth), NOTHING, actions, id);
    var s, seen := Run(Start(depth), actions), SeenBy(depth, actions, id);
    hide Run, SeenOver, Safe, Enabled, Agrees;
    SafeIsSound(s);
    CallsOpenIff(s, seen, id, priority, submitted);
    EndsOpenIff(s, seen, id);
  }

  lemma {:induction false} StartAgrees(depth: nat, id: RequestId)
    ensures Safe(Start(depth)) && Agrees(Start(depth), NOTHING, id)
  {
  }
}
