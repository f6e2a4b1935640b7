/** One request as its callers see it, with no table and no channels: a reference for the router that
    is advanced by what callers do and compared with the table after every step. */
module RouterView {
  import opened Router

  /** got: how many frames the subscriber has read. alive: the receiver has not been dropped; parked: the
      router still holds it; taken: a subscriber has it. channel only names the receiver. */
  datatype View = View(state: RequestState, priority: Priority, last: Option<nat>, channel: ChannelId, sent: seq<Frame>,
                       got: nat, alive: bool, parked: bool, taken: bool) {
    /** The checks of phase 1: not ended, and a new index. */
    predicate Admits(f: Frame) {
      !state.Terminal() && (last.Some? ==> last.value < f.index)
    }

    /** The receiver lives and fewer than depth frames wait. */
    predicate Room(depth: nat) {
      alive && |sent| - got < depth
    }

    predicate Readable() {
      alive && taken && got < |sent|
    }

    function Validated(f: Frame): View {
      this.(state := if state.Scheduled? then Streaming else state, last := Some(f.index))
    }

    function Delivered(f: Frame): View {
      this.(sent := sent + [f])
    }

    function Completed(): View {
      this.(state := Complete)
    }

    function Ended(): View {
      this.(state := Cancelled, alive := alive && !parked, parked := false)
    }

    function Subscribed(): View {
      this.(taken := true, parked := false)
    }

    function Read(): View {
      this.(got := got + 1)
    }

    function Dropped(): View {
      this.(alive := false)
    }
  }

  function Accepted(channel: ChannelId, priority: Priority): View {
    View(Scheduled, priority, None, channel, [], 0, true, true, false)
  }

  /** The table shows request id as the view says. */
  ghost predicate Matches(t: Table, id: RequestId, view: Option<View>) {
    match view
    case None => id !in t.requests
    case Some(v) =>
      && id in t.requests
      && var e := t.requests[id];
         && e.state == v.state && e.priority == v.priority && e.last == v.last && e.channel == v.channel < |t.channels|
         && (e.hasReceiver <==> v.parked)
         && var ch := t.channels[e.channel];
            && ch.open == v.alive && ch.taken == v.taken
            && ch.sent == v.sent && v.got == |ch.received| <= |v.sent|
            && ch.received == v.sent[..v.got]
            && (v.alive ==> ch.buffer == v.sent[v.got..])
  }

  // ---- the table operations, seen from their own request ------------------------------------------

  lemma {:induction false} RegisterMatches(t: Table, id: RequestId, priority: Priority)
    ensures Matches(Register(t, id, priority), id, Some(Accepted(|t.channels|, priority)))
  {
  }

  lemma {:induction false} AdvanceMatches(t: Table, v: View, f: Frame)
    requires Matches(t, f.id, Some(v))
    ensures PushError(t, f) == None <==> v.Admits(f)
    ensures Matches(Advance(t, f), f.id, Some(v.Validated(f)))
  {
  }

  lemma {:induction false} SendMatches(t: Table, v: View, f: Frame, depth: nat)
    requires Matches(t, f.id, Some(v))
    ensures TrySend(t.channels[v.channel], depth)
         == if v.Room(depth) then Sent else if v.alive then Full else Closed
    ensures v.Room(depth) ==> Matches(Send(t, v.channel, f), f.id, Some(v.Delivered(f)))
  {
    if v.Room(depth) {
      assert (v.sent + [f])[..v.got] == v.sent[..v.got];
      assert (v.sent + [f])[v.got..] == v.sent[v.got..] + [f];
    }
  }

  lemma {:induction false} FinishMatches(t: Table, id: RequestId, v: View)
    requires Matches(t, id, Some(v))
    ensures Matches(Finish(t, id), id, Some(v.Completed()))
  {
  }

  lemma {:induction false} CancelMatches(t: Table, id: RequestId, v: View)
    requires Matches(t, id, Some(v))
    ensures CancelError(t, id) == if v.state.Terminal() then Some(InvalidTransition(v.state, Cancelled)) else None
    ensures CancelError(t, id) == None ==> Matches(MarkCancelled(t, id), id, Some(v.Ended()))
  {
  }

  lemma {:induction false} SubscribeMatches(t: Table, id: RequestId, v: View)
    requires Matches(t, id, Some(v))
    ensures SubscribeError(t, id) == None <==> v.parked
    ensures v.parked ==> Matches(TakeReceiver(t, id), id, Some(v.Subscribed()))
  {
  }

  lemma {:induction false} ReadMatches(t: Table, id: RequestId, v: View)
    requires Matches(t, id, Some(v)) && v.Readable()
    ensures t.channels[v.channel].buffer != []
    ensures Matches(t.(channels := t.channels[v.channel := Take(t.channels[v.channel])]), id, Some(v.Read()))
  {
  }

  lemma {:induction false} DropMatches(t: Table, id: RequestId, v: View)
    requires Matches(t, id, Some(v))
    ensures Matches(t.(channels := t.channels[v.channel := Close(t.channels[v.channel])]), id, Some(v.Dropped()))
  {
  }

  /** A request whose entry and channel a step leaves alone looks the same. */
  lemma {:induction false} OtherMatches(t: Table, t': Table, id: RequestId, view: Option<View>)
    requires Matches(t, id, view)
    requires id in t'.requests <==> id in t.requests
    requires id in t.requests ==>
               && t'.requests[id] == t.requests[id] && t.requests[id].channel < |t.channels| <= |t'.channels|
               && t'.channels[t.requests[id].channel] == t.channels[t.requests[id].channel]
    ensures Matches(t', id, view)
  {
  }
}
