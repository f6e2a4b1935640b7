/** The per-request router: a table of entries, one bounded frame channel per accepted request,
    and the three phases of push_frame. */
module Router {

  type RequestId = string

  datatype Option<T> = None | Some(value: T)

  datatype Priority = Low | Normal | High

  datatype RequestState = Received | Scheduled | Generating | Streaming | Complete | Cancelled | Failed {
    predicate Terminal() {
      Complete? || Cancelled? || Failed?
    }
  }

  datatype Frame = Frame(id: RequestId, index: nat, bytes: seq<nat>, isFinal: bool)

  datatype RouterError =
    | UnknownRequest(id: RequestId)
    | ShuttingDown
    | Backpressure(id: RequestId, depth: nat)
    | InvalidTransition(from: RequestState, to: RequestState)
    | OutOfOrderFrame(id: RequestId, got: nat, last: nat)
    | DuplicateRequest(id: RequestId)
    | SchedulerFailed(message: string)

  datatype Result<T> = Ok(value: T) | Err(error: RouterError)

  // ---- channels ----------------------------------------------------------------------------

  type ChannelId = nat

  /** A bounded FIFO. open: its receiver exists; taken: a subscriber holds it. sent and received
      are the histories of its two ends. */
  datatype Channel = Channel(buffer: seq<Frame>, open: bool, taken: bool, sent: seq<Frame>, received: seq<Frame>)

  const FRESH_CHANNEL := Channel([], true, false, [], [])

  datatype SendOutcome = Sent | Full | Closed

  function TrySend(ch: Channel, depth: nat): SendOutcome {
    if !ch.open then Closed else if |ch.buffer| >= depth then Full else Sent
  }

  function Put(ch: Channel, f: Frame): Channel {
    ch.(buffer := ch.buffer + [f], sent := ch.sent + [f])
  }

  function Take(ch: Channel): Channel
    requires ch.buffer != []
  {
    ch.(buffer := ch.buffer[1..], received := ch.received + [ch.buffer[0]])
  }

  /** Dropping the receiver discards what it had not read. */
  function Close(ch: Channel): Channel {
    ch.(open := false, buffer := [])
  }

  // ---- the table under the mutex ---------------------------------------------------------------

  /** channel names the channel made for this entry; hasSender and hasReceiver say whether the
      entry still holds its two ends. */
  datatype Entry = Entry(state: RequestState, channel: ChannelId, hasSender: bool, hasReceiver: bool,
                         last: Option<nat>, priority: Priority)

  datatype Table = Table(requests: map<RequestId, Entry>, channels: seq<Channel>)

  function Register(t: Table, id: RequestId, priority: Priority): Table {
    Table(t.requests[id := Entry(Scheduled, |t.channels|, true, true, None, priority)], t.channels + [FRESH_CHANNEL])
  }

  function CloseIf(channels: seq<Channel>, c: ChannelId, drop: bool): seq<Channel> {
    if drop && c < |channels| then channels[c := Close(channels[c])] else channels
  }

  /** Removing an entry drops the channel ends it still holds. */
  function Unregister(t: Table, id: RequestId): Table
    requires id in t.requests
  {
    var e := t.requests[id];
    Table(t.requests - {id}, CloseIf(t.channels, e.channel, e.hasReceiver))
  }

  lemma {:induction false} RollbackRestores(t: Table, id: RequestId, priority: Priority)
    requires id !in t.requests
    ensures var back := Unregister(Register(t, id, priority), id);
            back.requests == t.requests && back.channels == t.channels + [Close(FRESH_CHANNEL)]
  {
  }

  /** Phase 1 of push_frame: the checks, in order. */
  function PushError(t: Table, f: Frame): Option<RouterError> {
    if f.id !in t.requests then Some(UnknownRequest(f.id)) else
    var e := t.requests[f.id];
    if e.state.Terminal() then Some(InvalidTransition(e.state, if f.isFinal then Complete else Streaming))
    else if e.last.Some? && f.index <= e.last.value then Some(OutOfOrderFrame(f.id, f.index, e.last.value))
    else None
  }

  /** Phase 1, accepted: the index is recorded and a first frame makes the request Streaming. */
  function Advance(t: Table, f: Frame): Table
    requires f.id in t.requests
  {
    var e := t.requests[f.id];
    var state := if e.state == Scheduled then Streaming else e.state;
    t.(requests := t.requests[f.id := e.(state := state, last := Some(f.index))])
  }

  /** Phase 2, without the mutex. */
  function Send(t: Table, c: ChannelId, f: Frame): Table
    requires c < |t.channels|
  {
    t.(channels := t.channels[c := Put(t.channels[c], f)])
  }

  /** Phase 3, for a final frame: Complete, whatever the state is by now. */
  function Finish(t: Table, id: RequestId): Table {
    if id in t.requests then
      t.(requests := t.requests[id := t.requests[id].(state := Complete, hasSender := false)])
    else t
  }

  function CancelError(t: Table, id: RequestId): Option<RouterError> {
    if id !in t.requests then Some(UnknownRequest(id))
    else if t.requests[id].state.Terminal() then Some(InvalidTransition(t.requests[id].state, Cancelled))
    else None
  }

  function MarkCancelled(t: Table, id: RequestId): Table
    requires id in t.requests
  {
    var e := t.requests[id];
    Table(t.requests[id := e.(state := Cancelled, hasSender := false, hasReceiver := false)],
          CloseIf(t.channels, e.channel, e.hasReceiver))
  }

  function SubscribeError(t: Table, id: RequestId): Option<RouterError> {
    if id !in t.requests || !t.requests[id].hasReceiver then Some(UnknownRequest(id)) else None
  }

  function HandOver(channels: seq<Channel>, c: ChannelId): seq<Channel> {
    if c < |channels| then channels[c := channels[c].(taken := true)] else channels
  }

  function TakeReceiver(t: Table, id: RequestId): Table
    requires id in t.requests
  {
    var e := t.requests[id];
    Table(t.requests[id := e.(hasReceiver := false)], HandOver(t.channels, e.channel))
  }

  // ---- one channel ------------------------------------------------------------------------------

  ghost predicate Increasing(s: seq<Frame>) {
    forall i, j :: 0 <= i < j < |s| ==> s[i].index < s[j].index
  }

  /** Only the last frame can be final. */
  ghost predicate FinalLast(s: seq<Frame>) {
    forall i :: 0 <= i < |s| - 1 ==> !s[i].isFinal
  }

  predicate HasFinal(s: seq<Frame>) {
    exists f :: f in s && f.isFinal
  }

  /** What the subscriber has read and what still waits is what was sent, in order; at most depth
      frames wait; indices strictly increase; a final frame comes last. */
  ghost predicate Consistent(ch: Channel, depth: nat) {
    && Increasing(ch.sent) && FinalLast(ch.sent)
    && ch.received <= ch.sent
    && (if ch.open then ch.sent == ch.received + ch.buffer else ch.buffer == [])
    && |ch.buffer| <= depth
  }

  lemma {:induction false} PutConsistent(ch: Channel, f: Frame, depth: nat)
    requires Consistent(ch, depth) && TrySend(ch, depth) == Sent
    requires !HasFinal(ch.sent) && forall g :: g in ch.sent ==> g.index < f.index
    ensures Consistent(Put(ch, f), depth)
  {
  }

  lemma {:induction false} TakeConsistent(ch: Channel, depth: nat)
    requires Consistent(ch, depth) && ch.open && ch.buffer != []
    ensures Consistent(Take(ch), depth)
  {
  }

  // ---- an entry and its channel --------------------------------------------------------------------

  /** A call on this request between two of its locked sections. */
  datatype Task = Submitting | Sending(frame: Frame, channel: ChannelId) | Finishing

  /** What ties an entry to its channel and to the one call in progress on its request. */
  ghost predicate Owned(id: RequestId, e: Entry, ch: Channel, task: Option<Task>) {
    && (e.state.Scheduled? || e.state.Streaming? || e.state.Complete? || e.state.Cancelled?)
    && (e.hasSender <==> !e.state.Terminal())
    && (e.hasReceiver ==> ch.open && !e.state.Cancelled?)
    && (ch.open ==> (ch.taken <==> !e.hasReceiver))
    && (forall f :: f in ch.sent ==> f.id == id && e.last.Some? && f.index <= e.last.value)
    && (e.state.Complete? ==> HasFinal(ch.sent))
    && (HasFinal(ch.sent) ==> e.state.Complete? || task == Some(Finishing))
    && (task == Some(Finishing) ==> HasFinal(ch.sent))
    && (task == Some(Submitting) ==> !e.state.Complete?)
    && (task.Some? && task.value.Sending? ==>
          && task.value.channel == e.channel && task.value.frame.id == id
          && e.last == Some(task.value.frame.index) && !HasFinal(ch.sent)
          && (forall f :: f in ch.sent ==> f.index < task.value.frame.index))
  }

  // ---- push_frame as one step ---------------------------------------------------------------------------

  function SendResult(t: Table, f: Frame, depth: nat): SendOutcome
    requires f.id in t.requests
  {
    var c := t.requests[f.id].channel;
    if c < |t.channels| then TrySend(t.channels[c], depth) else Closed
  }

  function PushResult(t: Table, f: Frame, shuttingDown: bool, depth: nat): Result<()> {
    if shuttingDown then Err(ShuttingDown)
    else if PushError(t, f).Some? then Err(PushError(t, f).value)
    else match SendResult(t, f, depth)
      case Sent => Ok(())
      case Full => Err(Backpressure(f.id, depth))
      case Closed => Err(UnknownRequest(f.id))
  }

  function AfterPush(t: Table, f: Frame, shuttingDown: bool, depth: nat): Table {
    if shuttingDown || PushError(t, f).Some? then t
    else if SendResult(t, f, depth) != Sent then Advance(t, f)
    else
      var sent := Send(Advance(t, f), t.requests[f.id].channel, f);
      if f.isFinal then Finish(sent, f.id) else sent
  }

  // ---- every step keeps entries and channels in order --------------------------------------------------

  /** Each entry owns a channel of its own, and every channel is consistent. */
  ghost predicate Tracks(t: Table, depth: nat) {
    TracksTasks(t, map[], depth)
  }

  function TaskFor(tasks: map<RequestId, Task>, id: RequestId): Option<Task> {
    if id in tasks then Some(tasks[id]) else None
  }

  ghost predicate Placed(t: Table) {
    forall id :: id in t.requests ==> t.requests[id].channel < |t.channels|
  }

  ghost predicate Separate(t: Table) {
    forall x, y :: x in t.requests && y in t.requests && x != y ==> t.requests[x].channel != t.requests[y].channel
  }

  ghost predicate AllOwned(t: Table, tasks: map<RequestId, Task>)
    requires Placed(t)
  {
    forall id :: id in t.requests ==> Owned(id, t.requests[id], t.channels[t.requests[id].channel], TaskFor(tasks, id))
  }

  ghost predicate AllConsistent(t: Table, depth: nat) {
    forall c :: 0 <= c < |t.channels| ==> Consistent(t.channels[c], depth)
  }

  ghost predicate TasksKnown(t: Table, tasks: map<RequestId, Task>) {
    forall id :: id in tasks ==> id in t.requests
  }

  /** The same with calls in progress: at most one per request. */
  ghost predicate TracksTasks(t: Table, tasks: map<RequestId, Task>, depth: nat) {
    Placed(t) && Separate(t) && AllOwned(t, tasks) && AllConsistent(t, depth) && TasksKnown(t, tasks)
  }

  ghost predicate SameElsewhere(tasks: map<RequestId, Task>, tasks': map<RequestId, Task>, id: RequestId) {
    forall x :: x != id ==> TaskFor(tasks', x) == TaskFor(tasks, x)
  }

  lemma {:induction false} OwnedOf(t: Table, tasks: map<RequestId, Task>, id: RequestId, depth: nat)
    requires TracksTasks(t, tasks, depth) && id in t.requests
    ensures t.requests[id].channel < |t.channels|
    ensures Owned(id, t.requests[id], t.channels[t.requests[id].channel], TaskFor(tasks, id))
    ensures Consistent(t.channels[t.requests[id].channel], depth)
  {
  }

  lemma {:induction false} KnownAfter(t: Table, tasks: map<RequestId, Task>, id: RequestId, t': Table,
                                      tasks': map<RequestId, Task>)
    requires TasksKnown(t, tasks) && SameElsewhere(tasks, tasks', id)
    requires forall x :: x in t.requests && x != id ==> x in t'.requests
    requires id in tasks' ==> id in t'.requests
    ensures TasksKnown(t', tasks')
  {
    forall x | x in tasks'
      ensures x in t'.requests
    {
      assert TaskFor(tasks', x).Some?;
    }
  }

  /** Changing one entry, its channel and its task leaves the others as they were. */
  lemma {:induction false} UpdateTracks(t: Table, tasks: map<RequestId, Task>, id: RequestId, e: Entry, ch: Channel,
                                        tasks': map<RequestId, Task>, depth: nat)
    requires TracksTasks(t, tasks, depth) && id in t.requests && e.channel == t.requests[id].channel
    requires Consistent(ch, depth) && Owned(id, e, ch, TaskFor(tasks', id)) && SameElsewhere(tasks, tasks', id)
    ensures TracksTasks(Table(t.requests[id := e], t.channels[e.channel := ch]), tasks', depth)
  {
    hide Owned, Consistent;
    KnownAfter(t, tasks, id, Table(t.requests[id := e], t.channels[e.channel := ch]), tasks');
  }

  lemma {:induction false} RegisterTracksTasks(t: Table, tasks: map<RequestId, Task>, id: RequestId, priority: Priority,
                                               tasks': map<RequestId, Task>, depth: nat)
    requires TracksTasks(t, tasks, depth) && id !in t.requests && SameElsewhere(tasks, tasks', id)
    requires TaskFor(tasks', id) == None || TaskFor(tasks', id) == Some(Submitting)
    ensures TracksTasks(Register(t, id, priority), tasks', depth)
  {
    var t' := Register(t, id, priority);
    assert Placed(t) && t'.requests.Keys == t.requests.Keys + {id};
    KnownAfter(t, tasks, id, t', tasks');
    RegisterOwned(t, tasks, id, priority, tasks');
    assert Consistent(FRESH_CHANNEL, depth);
    hide AllOwned, TasksKnown, Consistent;
  }

  lemma {:induction false} RegisterOwned(t: Table, tasks: map<RequestId, Task>, id: RequestId, priority: Priority,
                                         tasks': map<RequestId, Task>)
    requires Placed(t) && AllOwned(t, tasks) && id !in t.requests && SameElsewhere(tasks, tasks', id)
    requires TaskFor(tasks', id) == None || TaskFor(tasks', id) == Some(Submitting)
    ensures Placed(Register(t, id, priority)) && AllOwned(Register(t, id, priority), tasks')
  {
  }

  lemma {:induction false} UnregisterTracksTasks(t: Table, tasks: map<RequestId, Task>, id: RequestId,
                                                 tasks': map<RequestId, Task>, depth: nat)
    requires TracksTasks(t, tasks, depth) && id in t.requests && id !in tasks' && SameElsewhere(tasks, tasks', id)
    ensures TracksTasks(Unregister(t, id), tasks', depth)
  {
    var t' := Unregister(t, id);
    assert Placed(t) && t'.requests.Keys == t.requests.Keys - {id} && |t'.channels| == |t.channels|;
    KnownAfter(t, tasks, id, t', tasks');
    UnregisterOwned(t, tasks, id, tasks');
    CloseIfConsistent(t, t.requests[id].channel, t.requests[id].hasReceiver, depth);
    hide AllOwned, AllConsistent, TasksKnown;
  }

  lemma {:induction false} UnregisterOwned(t: Table, tasks: map<RequestId, Task>, id: RequestId,
                                           tasks': map<RequestId, Task>)
    requires Placed(t) && Separate(t) && AllOwned(t, tasks) && id in t.requests && SameElsewhere(tasks, tasks', id)
    ensures Placed(Unregister(t, id)) && AllOwned(Unregister(t, id), tasks')
  {
  }

  lemma {:induction false} CloseIfConsistent(t: Table, c: ChannelId, drop: bool, depth: nat)
    requires AllConsistent(t, depth) && c < |t.channels|
    ensures AllConsistent(t.(channels := CloseIf(t.channels, c, drop)), depth)
  {
  }

  lemma {:induction false} RegisterTracks(t: Table, id: RequestId, priority: Priority, depth: nat)
    requires Tracks(t, depth) && id !in t.requests
    ensures Tracks(Register(t, id, priority), depth)
  {
    RegisterTracksTasks(t, map[], id, priority, map[], depth);
  }

  lemma {:induction false} UnregisterTracks(t: Table, id: RequestId, depth: nat)
    requires Tracks(t, depth) && id in t.requests
    ensures Tracks(Unregister(t, id), depth)
  {
  }

  lemma {:induction false} SameUpdate(t: Table, id: RequestId)
    requires id in t.requests && t.requests[id].channel < |t.channels|
    ensures t.requests[id := t.requests[id]] == t.requests
    ensures t.channels[t.requests[id].channel := t.channels[t.requests[id].channel]] == t.channels
  {
  }

  /** Phase 1 leaves the push in progress on its request, which had no call in progress. */
  lemma {:induction false} AdvanceTracks(t: Table, tasks: map<RequestId, Task>, f: Frame, depth: nat)
    requires TracksTasks(t, tasks, depth) && PushError(t, f) == None && f.id !in tasks
    ensures TracksTasks(Advance(t, f), tasks[f.id := Sending(f, t.requests[f.id].channel)], depth)
  {
    OwnedOf(t, tasks, f.id, depth);
    hide TracksTasks;
    var e := t.requests[f.id];
    var c, ch := e.channel, t.channels[e.channel];
    var e' := Advance(t, f).requests[f.id];
    var tasks' := tasks[f.id := Sending(f, c)];
    assert Owned(f.id, e', ch, TaskFor(tasks', f.id));
    hide Owned, Consistent;
    UpdateTracks(t, tasks, f.id, e', ch, tasks', depth);
    SameUpdate(t, f.id);
  }

  /** Phase 2, accepted by the channel. */
  lemma {:induction false} SendTracks(t: Table, tasks: map<RequestId, Task>, id: RequestId, depth: nat)
    requires TracksTasks(t, tasks, depth) && id in tasks && tasks[id].Sending? && id in t.requests
    requires tasks[id].channel == t.requests[id].channel < |t.channels| &&
        TrySend(t.channels[tasks[id].channel], depth) == Sent
    ensures var f := tasks[id].frame;
            TracksTasks(Send(t, tasks[id].channel, f), if f.isFinal then tasks[id := Finishing] else tasks - {id},
                depth)
  {
    OwnedOf(t, tasks, id, depth);
    hide TracksTasks;
    var e, f := t.requests[id], tasks[id].frame;
    var ch := t.channels[e.channel];
    var tasks' := if f.isFinal then tasks[id := Finishing] else tasks - {id};
    PutConsistent(ch, f, depth);
    PutOwned(id, e, ch, f);
    hide Owned, Consistent, Put, TrySend;
    UpdateTracks(t, tasks, id, e, Put(ch, f), tasks', depth);
    SameUpdate(t, id);
  }

  lemma {:induction false} PutOwned(id: RequestId, e: Entry, ch: Channel, f: Frame)
    requires Owned(id, e, ch, Some(Sending(f, e.channel)))
    ensures Owned(id, e, Put(ch, f), if f.isFinal then Some(Finishing) else None)
  {
  }

  /** Phase 2, refused: the push is over, its index stays consumed. */
  lemma {:induction false} GiveUpTracks(t: Table, tasks: map<RequestId, Task>, id: RequestId, depth: nat)
    requires TracksTasks(t, tasks, depth) && id in tasks && !tasks[id].Finishing?
    ensures TracksTasks(t, tasks - {id}, depth)
  {
    assert id in t.requests;
    OwnedOf(t, tasks, id, depth);
    hide TracksTasks;
    var e := t.requests[id];
    var ch := t.channels[e.channel];
    assert Owned(id, e, ch, TaskFor(tasks - {id}, id));
    hide Owned, Consistent;
    UpdateTracks(t, tasks, id, e, ch, tasks - {id}, depth);
    SameUpdate(t, id);
  }

  /** Phase 3. */
  lemma {:induction false} FinishTracks(t: Table, tasks: map<RequestId, Task>, id: RequestId, depth: nat)
    requires TracksTasks(t, tasks, depth) && id in tasks && tasks[id].Finishing?
    ensures TracksTasks(Finish(t, id), tasks - {id}, depth)
  {
    assert id in t.requests;
    OwnedOf(t, tasks, id, depth);
    hide TracksTasks;
    var e := t.requests[id];
    var ch := t.channels[e.channel];
    var e' := e.(state := Complete, hasSender := false);
    assert Owned(id, e', ch, TaskFor(tasks - {id}, id));
    hide Owned, Consistent;
    UpdateTracks(t, tasks, id, e', ch, tasks - {id}, depth);
    SameUpdate(t, id);
  }

  lemma {:induction false} SubscribeTracksTasks(t: Table, tasks: map<RequestId, Task>, id: RequestId, depth: nat)
    requires TracksTasks(t, tasks, depth) && SubscribeError(t, id) == None
    ensures t.requests[id].channel < |t.channels|
    ensures TracksTasks(TakeReceiver(t, id), tasks, depth)
  {
    OwnedOf(t, tasks, id, depth);
    hide TracksTasks;
    var e := t.requests[id];
    var ch := t.channels[e.channel];
    UpdateTracks(t, tasks, id, e.(hasReceiver := false), ch.(taken := true), tasks, depth);
  }

  lemma {:induction false} CancelTracksTasks(t: Table, tasks: map<RequestId, Task>, id: RequestId, depth: nat)
    requires TracksTasks(t, tasks, depth) && CancelError(t, id) == None
    ensures TracksTasks(MarkCancelled(t, id), tasks, depth)
  {
    OwnedOf(t, tasks, id, depth);
    hide TracksTasks;
    var e := t.requests[id];
    var ch := t.channels[e.channel];
    var e' := e.(state := Cancelled, hasSender := false, hasReceiver := false);
    var ch' := if e.hasReceiver then Close(ch) else ch;
    assert Owned(id, e', ch', TaskFor(tasks, id)) && Consistent(ch', depth);
    hide Owned, Consistent, Close;
    UpdateTracks(t, tasks, id, e', ch', tasks, depth);
    SameUpdate(t, id);
  }

  /** The subscriber's steps change one taken channel, never what was sent through it. */
  lemma {:induction false} SubscriberTracks(t: Table, tasks: map<RequestId, Task>, c: ChannelId, ch: Channel,
                                            depth: nat)
    requires TracksTasks(t, tasks, depth) && c < |t.channels| && t.channels[c].taken
    requires Consistent(ch, depth) && ch.sent == t.channels[c].sent && ch.taken
    ensures TracksTasks(t.(channels := t.channels[c := ch]), tasks, depth)
  {
    var t' := t.(channels := t.channels[c := ch]);
    SubscriberOwned(t, tasks, c, ch);
    hide Consistent, AllOwned;
  }

  lemma {:induction false} SubscriberOwned(t: Table, tasks: map<RequestId, Task>, c: ChannelId, ch: Channel)
    requires Placed(t) && AllOwned(t, tasks) && c < |t.channels| && t.channels[c].taken
    requires ch.sent == t.channels[c].sent && ch.taken
    ensures AllOwned(t.(channels := t.channels[c := ch]), tasks)
  {
  }

  lemma {:induction false} SubscribeTracks(t: Table, id: RequestId, depth: nat)
    requires Tracks(t, depth) && SubscribeError(t, id) == None
    ensures t.requests[id].channel < |t.channels|
    ensures Tracks(TakeReceiver(t, id), depth)
  {
    SubscribeTracksTasks(t, map[], id, depth);
  }

  lemma {:induction false} CancelTracks(t: Table, id: RequestId, depth: nat)
    requires Tracks(t, depth) && CancelError(t, id) == None
    ensures Tracks(MarkCancelled(t, id), depth)
  {
    CancelTracksTasks(t, map[], id, depth);
  }

  lemma {:induction false} ReceiveTracks(t: Table, c: ChannelId, depth: nat)
    requires Tracks(t, depth) && c < |t.channels|
    requires t.channels[c].open && t.channels[c].taken && t.channels[c].buffer != []
    ensures Tracks(t.(channels := t.channels[c := Take(t.channels[c])]), depth)
  {
  }

  lemma {:induction false} PushTracks(t: Table, f: Frame, depth: nat)
    requires Tracks(t, depth)
    ensures Tracks(AfterPush(t, f, false, depth), depth)
    ensures PushError(t, f) == None ==> t.requests[f.id].channel < |t.channels|
  {
    if PushError(t, f) == None {
      var c := t.requests[f.id].channel;
      var t1 := Advance(t, f);
      var tasks1 := map[f.id := Sending(f, c)];
      AdvanceTracks(t, map[], f, depth);
      assert map[][f.id := Sending(f, c)] == tasks1;
      hide TracksTasks;
      if SendResult(t, f, depth) == Sent {
        SendTracks(t1, tasks1, f.id, depth);
        if f.isFinal {
          assert tasks1[f.id := Finishing] == map[f.id := Finishing];
          FinishTracks(Send(t1, c, f), map[f.id := Finishing], f.id, depth);
          assert map[f.id := Finishing] - {f.id} == map[];
        } else {
          assert tasks1 - {f.id} == map[];
        }
      } else {
        GiveUpTracks(t1, tasks1, f.id, depth);
        assert tasks1 - {f.id} == map[];
      }
    }
  }

  // ---- the router object ---------------------------------------------------------------------------------

  class Router {
    const depth: nat
    var requests: map<RequestId, Entry>
    var channels: seq<Channel>
    var shuttingDown: bool

    function View(): Table
      reads this
    {
      Table(requests, channels)
    }

    /** Between calls: every entry owns its own consistent channel. */
    ghost predicate Valid()
      reads this
    {
      depth > 0 && Tracks(View(), depth)
    }

    constructor (perRequestQueueDepth: nat)
      ensures Valid() && View() == Table(map[], []) && !shuttingDown
      ensures depth == if perRequestQueueDepth >= 1 then perRequestQueueDepth else 1
    {
      depth := if perRequestQueueDepth >= 1 then perRequestQueueDepth else 1;
      requests, channels, shuttingDown := map[], [], false;
    }

    /** submitted is the scheduler's answer. A refused request leaves no entry behind. */
    method Accept(id: RequestId, priority: Priority, submitted: Result<()>) returns (r: Result<()>)
      requires Valid()
      modifies this`requests, this`channels
      ensures Valid()
      ensures r == (if shuttingDown then Err(ShuttingDown)
                    else if id in old(requests) then Err(DuplicateRequest(id)) else submitted)
      ensures r.Ok? ==> View() == Register(old(View()), id, priority)
      ensures r.Err? ==> requests == old(requests)
      ensures r.Err? ==> channels == old(channels) || channels == old(channels) + [Close(FRESH_CHANNEL)]
    {
      if shuttingDown {
        return Err(ShuttingDown);
      }
      if id in requests {
        return Err(DuplicateRequest(id));
      }
      RegisterTracks(View(), id, priority, depth);
      RollbackRestores(View(), id, priority);
      hide Tracks;
      var c := |channels|;
      channels := channels + [FRESH_CHANNEL];
      requests := requests[id := Entry(Scheduled, c, true, true, None, priority)];
      assert View() == Register(old(View()), id, priority);
      if submitted.Err? {
        UnregisterTracks(View(), id, depth);
        var e := requests[id];
        requests := requests - {id};
        channels := CloseIf(channels, e.channel, e.hasReceiver);
        assert View() == Unregister(Register(old(View()), id, priority), id);
      }
      return submitted;
    }

    /** Phase 1: validate, record the index, hand out the channel to send on. */
    method BeginPush(f: Frame) returns (r: Result<ChannelId>)
      modifies this`requests
      ensures PushError(old(View()), f) == (if r.Err? then Some(r.error) else None)
      ensures r.Ok? ==> r.value == old(requests)[f.id].channel && View() == Advance(old(View()), f)
      ensures r.Err? ==> View() == old(View())
    {
      if f.id !in requests {
        return Err(UnknownRequest(f.id));
      }
      var e := requests[f.id];
      if e.state.Terminal() {
        return Err(InvalidTransition(e.state, if f.isFinal then Complete else Streaming));
      }
      if e.last.Some? && f.index <= e.last.value {
        return Err(OutOfOrderFrame(f.id, f.index, e.last.value));
      }
      if e.state == Scheduled {
        e := e.(state := Generating);
        e := e.(state := Streaming);
      }
      e := e.(last := Some(f.index));
      requests := requests[f.id := e];
      return Ok(e.channel);
    }

    /** Phase 3: the final frame completes its request and drops the sender. */
    method CompletePush(id: RequestId)
      modifies this`requests
      ensures View() == Finish(old(View()), id)
    {
      if id in requests {
        requests := requests[id := requests[id].(state := Complete, hasSender := false)];
      }
    }

    /** The three phases in one go. Ok: the frame is the newest in the channel of its request, and
        a final one completes it. Backpressure and a dropped receiver consume the index. */
    method PushFrame(f: Frame) returns (r: Result<()>)
      requires Valid()
      modifies this`requests, this`channels
      ensures Valid()
      ensures r == PushResult(old(View()), f, shuttingDown, depth)
      ensures View() == AfterPush(old(View()), f, shuttingDown, depth)
    {
      if shuttingDown {
        return Err(ShuttingDown);
      }
      PushTracks(View(), f, depth);
      hide Tracks, Put, Advance, Finish;
      var began := BeginPush(f);
      if began.Err? {
        return Err(began.error);
      }
      var c := began.value;
      match TrySend(channels[c], depth) {
        case Full => return Err(Backpressure(f.id, depth));
        case Closed => return Err(UnknownRequest(f.id));
        case Sent =>
      }
      channels := channels[c := Put(channels[c], f)];
      if f.isFinal {
        CompletePush(f.id);
      }
      return Ok(());
    }

    /** The receiver can be taken once. */
    method Subscribe(id: RequestId) returns (r: Result<ChannelId>)
      requires Valid()
      modifies this`requests, this`channels
      ensures Valid()
      ensures r == if shuttingDown then Err(ShuttingDown)
                   else if SubscribeError(old(View()), id).Some? then Err(UnknownRequest(id))
                   else Ok(old(requests)[id].channel)
      ensures View() == if r.Ok? then TakeReceiver(old(View()), id) else old(View())
    {
      if shuttingDown {
        return Err(ShuttingDown);
      }
      if id !in requests || !requests[id].hasReceiver {
        return Err(UnknownRequest(id));
      }
      SubscribeTracks(View(), id, depth);
      var e := requests[id];
      requests := requests[id := e.(hasReceiver := false)];
      channels := channels[e.channel := channels[e.channel].(taken := true)];
      return Ok(e.channel);
    }

    /** The answer of the scheduler's own cancel is ignored, so it is no parameter. */
    method Cancel(id: RequestId) returns (r: Result<()>)
      requires Valid()
      modifies this`requests, this`channels
      ensures Valid()
      ensures r == if shuttingDown then Err(ShuttingDown)
                   else if CancelError(old(View()), id).Some? then Err(CancelError(old(View()), id).value) else Ok(())
      ensures View() == if r.Ok? then MarkCancelled(old(View()), id) else old(View())
    {
      if shuttingDown {
        return Err(ShuttingDown);
      }
      if id !in requests {
        return Err(UnknownRequest(id));
      }
      var e := requests[id];
      if e.state.Terminal() {
        return Err(InvalidTransition(e.state, Cancelled));
      }
      CancelTracks(View(), id, depth);
      requests := requests[id := e.(state := Cancelled, hasSender := false, hasReceiver := false)];
      channels := CloseIf(channels, e.channel, e.hasReceiver);
      return Ok(());
    }

    /** The subscriber's end: the oldest frame waiting in a channel it has taken. */
    method Receive(c: ChannelId) returns (f: Option<Frame>)
      requires Valid() && c < |channels| && channels[c].open && channels[c].taken
      modifies this`channels
      ensures Valid()
      ensures f == if old(channels)[c].buffer == [] then None else Some(old(channels)[c].buffer[0])
      ensures channels == if f.None? then old(channels) else old(channels)[c := Take(old(channels)[c])]
    {
      if channels[c].buffer == [] {
        return None;
      }
      ReceiveTracks(View(), c, depth);
      f := Some(channels[c].buffer[0]);
      channels := channels[c := Take(channels[c])];
    }

    method State(id: RequestId) returns (s: Option<RequestState>)
      ensures s == if id in requests then Some(requests[id].state) else None
    {
      s := if id in requests then Some(requests[id].state) else None;
    }

    method Shutdown()
      requires Valid()
      modifies this`shuttingDown
      ensures Valid() && shuttingDown
    {
      shuttingDown := true;
    }
  }
}
