/** The request scheduler: three FIFO buckets, cancellation by tombstones, capacity
    backpressure and shutdown. Ids are not checked for duplicates. */
module Scheduler {

  datatype Priority = Low | Normal | High

  type RequestId = string

  datatype Request = Request(id: RequestId, priority: Priority, submittedAt: int, payload: string)

  datatype Option<T> = None | Some(value: T)

  datatype SchedulerError = QueueFull(capacity: nat) | NotFound(id: RequestId) | ShuttingDown

  datatype Outcome = Ok | Err(error: SchedulerError)

  function Rank(p: Priority): nat {
    match p case Low => 0 case Normal => 1 case High => 2
  }

  // ---- the state under the lock ---------------------------------------------------------

  datatype Buckets = Buckets(high: seq<Request>, normal: seq<Request>, low: seq<Request>, cancelled: set<RequestId>,
                             known: set<RequestId>)

  const EMPTY := Buckets([], [], [], {}, {})

  /** Everything physically queued, in drain order. */
  function All(b: Buckets): seq<Request> {
    b.high + b.normal + b.low
  }

  function Ids(q: seq<Request>): set<RequestId> {
    set r | r in q :: r.id
  }

  /** What a full drain of q returns: the first copy of every tombstoned id is dropped
      and takes its tombstone with it. */
  function Live(q: seq<Request>, cancelled: set<RequestId>): seq<Request> {
    if q == [] then []
    else if q[0].id in cancelled then Live(q[1..], cancelled - {q[0].id})
    else [q[0]] + Live(q[1..], cancelled)
  }

  function Pending(b: Buckets): seq<Request> {
    Live(All(b), b.cancelled)
  }

  function Len(b: Buckets): nat {
    var physical := |b.high| + |b.normal| + |b.low|;
    if physical >= |b.cancelled| then physical - |b.cancelled| else 0
  }

  /** The effect of popping one bucket until a live item shows up. */
  datatype Popped = Popped(item: Option<Request>, rest: seq<Request>, dropped: seq<Request>,
                           cancelled: set<RequestId>, known: set<RequestId>)

  function PopFrom(q: seq<Request>, cancelled: set<RequestId>, known: set<RequestId>): Popped {
    if q == [] then Popped(None, [], [], cancelled, known)
    else if q[0].id in cancelled then
      var p := PopFrom(q[1..], cancelled - {q[0].id}, known - {q[0].id});
      p.(dropped := [q[0]] + p.dropped)
    else Popped(Some(q[0]), q[1..], [], cancelled, known - {q[0].id})
  }

  datatype PopResult = PopResult(item: Option<Request>, after: Buckets, dropped: seq<Request>)

  /** pop_next: High, then Normal, then Low. */
  function PopNext(b: Buckets): PopResult {
    var h := PopFrom(b.high, b.cancelled, b.known);
    if h.item.Some? then PopResult(h.item, Buckets(h.rest, b.normal, b.low, h.cancelled, h.known), h.dropped) else
    var n := PopFrom(b.normal, h.cancelled, h.known);
    if n.item.Some? then PopResult(n.item, Buckets([], n.rest, b.low, n.cancelled, n.known), h.dropped + n.dropped) else
    var l := PopFrom(b.low, n.cancelled, n.known);
    PopResult(l.item, Buckets([], [], l.rest, l.cancelled, l.known), h.dropped + n.dropped + l.dropped)
  }

  function Enqueue(b: Buckets, r: Request): Buckets {
    var b' := b.(known := b.known + {r.id});
    match r.priority
    case High => b'.(high := b.high + [r])
    case Normal => b'.(normal := b.normal + [r])
    case Low => b'.(low := b.low + [r])
  }

  function Tombstone(b: Buckets, id: RequestId): Buckets {
    b.(cancelled := b.cancelled + {id})
  }

  /** The part of the queue at priority p or above, and the part below it. */
  function AtLeast(b: Buckets, p: Priority): seq<Request> {
    match p case High => b.high case Normal => b.high + b.normal case Low => b.high + b.normal + b.low
  }

  function Below(b: Buckets, p: Priority): seq<Request> {
    match p case High => b.normal + b.low case Normal => b.low case Low => []
  }

  // ---- one call as a transition --------------------------------------------------------------

  /** Result of the locked section of next(): an item, the end of the drain, or park. */
  datatype Poll = Item(request: Request) | Drained | Wait

  datatype State = State(buckets: Buckets, shuttingDown: bool, capacity: nat)

  datatype Call = Submit(request: Request) | Next | Cancel(id: RequestId) | Shutdown

  datatype Reply = Returned(outcome: Outcome) | Polled(poll: Poll)

  /** dropped: the cancelled copies this call removed from the queue. */
  datatype Effect = Effect(after: State, reply: Reply, dropped: seq<Request>)

  function SubmitOutcome(s: State): Outcome {
    if s.shuttingDown then Err(ShuttingDown)
    else if Len(s.buckets) >= s.capacity then Err(QueueFull(s.capacity))
    else Ok
  }

  function CancelOutcome(s: State, id: RequestId): Outcome {
    if s.shuttingDown then Err(ShuttingDown) else if id !in s.buckets.known then Err(NotFound(id)) else Ok
  }

  function Step(s: State, call: Call): Effect {
    match call
    case Submit(r) =>
      var o := SubmitOutcome(s);
      Effect(if o == Ok then s.(buckets := Enqueue(s.buckets, r)) else s, Returned(o), [])
    case Next =>
      var p := PopNext(s.buckets);
      Effect(s.(buckets := p.after),
             Polled(if p.item.Some? then Item(p.item.value) else if s.shuttingDown then Drained else Wait), p.dropped)
    case Cancel(id) =>
      var o := CancelOutcome(s, id);
      Effect(if o == Ok then s.(buckets := Tombstone(s.buckets, id)) else s, Returned(o), [])
    case Shutdown => Effect(s.(shuttingDown := true), Returned(Ok), [])
  }

  // ---- invariant -----------------------------------------------------------------------------

  ghost predicate AllAt(q: seq<Request>, p: Priority) {
    forall r :: r in q ==> r.priority == p
  }

  /** Every item sits in the bucket of its own priority. */
  ghost predicate Sorted(b: Buckets) {
    AllAt(b.high, High) && AllAt(b.normal, Normal) && AllAt(b.low, Low)
  }

  /** Holds in every reachable state, duplicate ids included: tombstones and known ids all
      belong to something still queued, and live requests stay within capacity. */
  ghost predicate Inv(b: Buckets, capacity: nat) {
    b.cancelled <= b.known <= Ids(All(b)) && Sorted(b) && |Pending(b)| <= capacity
  }

  // ---- lemmas about Live -------------------------------------------------------------------------

  lemma {:induction false} IdsOfConcat(p: seq<Request>, q: seq<Request>)
    ensures Ids(p + q) == Ids(p) + Ids(q)
  {
  }

  /** Draining p first uses up exactly the tombstones of ids in p. */
  lemma {:induction false} LiveSplit(p: seq<Request>, q: seq<Request>, c: set<RequestId>)
    ensures Live(p + q, c) == Live(p, c) + Live(q, c - Ids(p))
  {
    if p == [] {
      assert p + q == q && c - Ids(p) == c;
    } else {
      assert (p + q)[0] == p[0] && (p + q)[1..] == p[1..] + q;
      assert Ids(p) == {p[0].id} + Ids(p[1..]) by { assert p == [p[0]] + p[1..]; IdsOfConcat([p[0]], p[1..]); }
      if p[0].id in c {
        LiveSplit(p[1..], q, c - {p[0].id});
        assert c - {p[0].id} - Ids(p[1..]) == c - Ids(p);
      } else {
        LiveSplit(p[1..], q, c);
        assert c - Ids(p[1..]) == c - Ids(p);
      }
    }
  }

  lemma {:induction false} LiveLength(q: seq<Request>, c: set<RequestId>)
    requires c <= Ids(q)
    ensures |q| - |c| == |Live(q, c)|
  {
    if q != [] {
      assert q == [q[0]] + q[1..];
      IdsOfConcat([q[0]], q[1..]);
      if q[0].id in c {
        LiveLength(q[1..], c - {q[0].id});
      } else {
        LiveLength(q[1..], c);
      }
    }
  }

  /** len() is exactly what a drain returns. */
  lemma {:induction false} LengthIsPending(b: Buckets, capacity: nat)
    requires Inv(b, capacity)
    ensures Len(b) == |Pending(b)| == |All(b)| - |b.cancelled|
  {
    LiveLength(All(b), b.cancelled);
  }

  lemma {:induction false} LiveSubset(q: seq<Request>, c: set<RequestId>)
    ensures forall r :: r in Live(q, c) ==> r in q
  {
    if q != [] {
      LiveSubset(q[1..], if q[0].id in c then c - {q[0].id} else c);
    }
  }

  // ---- popping -----------------------------------------------------------------------------------

  function Taken(item: Option<Request>): multiset<Request> {
    if item.Some? then multiset{item.value} else multiset{}
  }

  /** Popping one bucket only removes items: the one it returns and the cancelled ones it drops. */
  lemma {:induction false} PopFromConserves(q: seq<Request>, c: set<RequestId>, k: set<RequestId>)
    ensures var p := PopFrom(q, c, k);
            && multiset(q) == multiset(p.rest) + multiset(p.dropped) + Taken(p.item)
            && (p.item == None ==> p.rest == [])
            && p.cancelled <= c
            && (forall r :: r in p.rest ==> r in q)
            && (forall r :: r in p.dropped ==> r.id in c)
  {
    if q != [] {
      assert q == [q[0]] + q[1..];
      if q[0].id in c {
        PopFromConserves(q[1..], c - {q[0].id}, k - {q[0].id});
      }
    }
  }

  /** Popping a live item takes the first one of the queue and uses up no tombstone of anything
      still queued. */
  lemma {:induction false} PopFromIsHead(q: seq<Request>, c: set<RequestId>, k: set<RequestId>)
    requires c <= k <= Ids(q)
    ensures var p := PopFrom(q, c, k);
            && p.cancelled <= p.known <= Ids(p.rest)
            && Live(q, c) == (if p.item.Some? then [p.item.value] else []) + Live(p.rest, p.cancelled)
  {
    if q != [] {
      assert q == [q[0]] + q[1..];
      IdsOfConcat([q[0]], q[1..]);
      if q[0].id in c {
        PopFromIsHead(q[1..], c - {q[0].id}, k - {q[0].id});
      }
    }
  }

  /** Going on to a second queue when the first one yields nothing. */
  function Continue(p: Popped, q: seq<Request>): Popped {
    if p.item.Some? then p.(rest := p.rest + q)
    else var p' := PopFrom(q, p.cancelled, p.known); p'.(dropped := p.dropped + p'.dropped)
  }

  lemma {:induction false} PopFromConcat(p: seq<Request>, q: seq<Request>, c: set<RequestId>, k: set<RequestId>)
    ensures PopFrom(p + q, c, k) == Continue(PopFrom(p, c, k), q)
  {
    if p == [] {
      assert p + q == q;
    } else {
      assert (p + q)[0] == p[0] && (p + q)[1..] == p[1..] + q;
      if p[0].id in c {
        var c', k' := c - {p[0].id}, k - {p[0].id};
        PopFromConcat(p[1..], q, c', k');
        var x := PopFrom(p[1..], c', k');
        if x.item == None {
          assert [p[0]] + x.dropped + PopFrom(q, x.cancelled, x.known).dropped
              == [p[0]] + (x.dropped + PopFrom(q, x.cancelled, x.known).dropped);
        }
      }
    }
  }

  /** Three buckets in drain order behave as one queue. */
  lemma {:induction false} PopNextIsPopFrom(b: Buckets)
    ensures var n := PopNext(b);
            PopFrom(All(b), b.cancelled, b.known) ==
                Popped(n.item, All(n.after), n.dropped, n.after.cancelled, n.after.known)
  {
    var h := PopFrom(b.high, b.cancelled, b.known);
    var n := PopFrom(b.normal, h.cancelled, h.known);
    var l := PopFrom(b.low, n.cancelled, n.known);
    PopFromConcat(b.high + b.normal, b.low, b.cancelled, b.known);
    PopFromConcat(b.high, b.normal, b.cancelled, b.known);
    hide PopFrom;
    assert [] + l.rest == l.rest && [] + n.rest == n.rest && [] + [] + l.rest == l.rest;
  }

  /** Nothing is lost or invented: what was queued is what is still queued, what was dropped,
      and what was returned. */
  lemma {:induction false} PopNextConserves(b: Buckets)
    ensures var n := PopNext(b);
            && multiset(All(b)) == multiset(All(n.after)) + multiset(n.dropped) + Taken(n.item)
            && (n.item == None ==> All(n.after) == [])
            && (forall r :: r in n.dropped ==> r.id in b.cancelled)
  {
    PopNextIsPopFrom(b);
    hide PopNext;
    PopFromConserves(All(b), b.cancelled, b.known);
  }

  lemma {:induction false} PopNextKeepsSorted(b: Buckets)
    requires Sorted(b)
    ensures Sorted(PopNext(b).after)
  {
    hide PopFrom;
    var h := PopFrom(b.high, b.cancelled, b.known);
    PopFromConserves(b.high, b.cancelled, b.known);
    var n := PopFrom(b.normal, h.cancelled, h.known);
    PopFromConserves(b.normal, h.cancelled, h.known);
    PopFromConserves(b.low, n.cancelled, n.known);
  }

  /** next() returns the head of the pending queue and leaves the rest; when nothing is
      pending the drain has emptied every bucket and both sets. */
  lemma {:induction false} PopNextIsHead(b: Buckets, capacity: nat)
    requires Inv(b, capacity)
    ensures var n := PopNext(b);
            && Inv(n.after, capacity)
            && (Pending(b) == [] ==> n.item == None && n.after == EMPTY)
            && (Pending(b) != [] ==> n.item == Some(Pending(b)[0]) && Pending(n.after) == Pending(b)[1..])
  {
    PopNextIsPopFrom(b);
    PopNextConserves(b);
    PopNextKeepsSorted(b);
    hide PopNext;
    PopFromIsHead(All(b), b.cancelled, b.known);
    if PopNext(b).item == None {
      EmptyQueue(PopNext(b).after);
    }
  }

  lemma {:induction false} EmptyQueue(b: Buckets)
    requires All(b) == [] && b.cancelled <= b.known <= Ids(All(b))
    ensures b == EMPTY && Pending(b) == []
  {
  }

  // ---- submitting and cancelling -----------------------------------------------------------------

  /** A new request goes behind everything of its level and above. */
  lemma {:induction false} EnqueuePlace(b: Buckets, r: Request)
    ensures All(b) == AtLeast(b, r.priority) + Below(b, r.priority)
    ensures All(Enqueue(b, r)) == AtLeast(b, r.priority) + [r] + Below(b, r.priority)
  {
  }

  lemma {:induction false} EnqueueKeepsInv(b: Buckets, r: Request, capacity: nat)
    requires Inv(b, capacity) && |Pending(b)| < capacity
    ensures Inv(Enqueue(b, r), capacity)
    ensures |Pending(Enqueue(b, r))| == |Pending(b)| + 1
  {
    var p, q := AtLeast(b, r.priority), Below(b, r.priority);
    EnqueuePlace(b, r);
    IdsOfConcat(p, q);
    IdsOfConcat(p, [r]);
    IdsOfConcat(p + [r], q);
    LiveLength(All(b), b.cancelled);
    LiveLength(All(Enqueue(b, r)), b.cancelled);
  }

  lemma {:induction false} TombstoneKeepsInv(b: Buckets, id: RequestId, capacity: nat)
    requires Inv(b, capacity) && id in b.known
    ensures Inv(Tombstone(b, id), capacity)
    ensures |Pending(Tombstone(b, id))| == |Pending(b)| - (if id in b.cancelled then 0 else 1)
  {
    LiveLength(All(b), b.cancelled);
    LiveLength(All(b), b.cancelled + {id});
    if id in b.cancelled {
      assert b.cancelled + {id} == b.cancelled;
    }
  }

  // ---- the scheduler object --------------------------------------------------------------------

  class Scheduler {
    const capacity: nat
    var high: seq<Request>
    var normal: seq<Request>
    var low: seq<Request>
    var cancelled: set<RequestId>
    var known: set<RequestId>
    var shuttingDown: bool

    function Snapshot(): State
      reads this
    {
      State(View(), shuttingDown, capacity)
    }

    function View(): Buckets
      reads this
    {
      Buckets(high, normal, low, cancelled, known)
    }

    ghost predicate Valid()
      reads this
    {
      Inv(View(), capacity)
    }

    constructor (capacity: nat)
      ensures Valid() && this.capacity == capacity && View() == EMPTY && !shuttingDown
    {
      this.capacity := capacity;
      high, normal, low, cancelled, known, shuttingDown := [], [], [], {}, {}, false;
    }

    /** The number of requests a full drain still returns; the saturating subtraction
        never saturates. */
    method Length() returns (n: nat)
      requires Valid()
      ensures n == |Pending(View())| == |All(View())| - |cancelled|
    {
      LengthIsPending(View(), capacity);
      n := Len(View());
    }

    /** Accepted exactly while open and below capacity in live requests; then appended to
        the bucket of its priority. A rejected request changes nothing. */
    method Submit(req: Request) returns (r: Outcome)
      requires Valid()
      modifies this
      ensures Valid()
      ensures r == (if old(shuttingDown) then Err(ShuttingDown)
                    else if |Pending(old(View()))| >= capacity then Err(QueueFull(capacity)) else Ok)
      ensures Snapshot() == Step(old(Snapshot()), Call.Submit(req)).after && shuttingDown == old(shuttingDown)
      ensures View() == if r == Ok then Enqueue(old(View()), req) else old(View())
    {
      if shuttingDown {
        return Err(ShuttingDown);
      }
      var n := Length();
      if n >= capacity {
        return Err(QueueFull(capacity));
      }
      EnqueueKeepsInv(View(), req, capacity);
      known := known + {req.id};
      match req.priority {
        case High => high := high + [req];
        case Normal => normal := normal + [req];
        case Low => low := low + [req];
      }
      return Ok;
    }

    /** Pops one bucket front until a live item is found, clearing tombstones on the way. */
    method PopBucket(q: seq<Request>) returns (item: Option<Request>, rest: seq<Request>)
      modifies this`cancelled, this`known
      ensures var p := PopFrom(q, old(cancelled), old(known));
              item == p.item && rest == p.rest && cancelled == p.cancelled && known == p.known
    {
      rest := q;
      item := None;
      while rest != []
        invariant item == None
        invariant var p, p0 := PopFrom(rest, cancelled, known), PopFrom(q, old(cancelled), old(known));
                  p.item == p0.item && p.rest == p0.rest && p.cancelled == p0.cancelled && p.known == p0.known
      {
        var front := rest[0];
        rest := rest[1..];
        if front.id in cancelled {
          cancelled := cancelled - {front.id};
          known := known - {front.id};
        } else {
          known := known - {front.id};
          item := Some(front);
          return;
        }
      }
    }

    method PopNextItem() returns (item: Option<Request>)
      requires Valid()
      modifies this`high, this`normal, this`low, this`cancelled, this`known
      ensures item == PopNext(old(View())).item && View() == PopNext(old(View())).after
    {
      hide PopFrom;
      PopFromConserves(high, cancelled, known);
      item, high := PopBucket(high);
      if item.Some? {
        return;
      }
      PopFromConserves(normal, cancelled, known);
      item, normal := PopBucket(normal);
      if item.Some? {
        return;
      }
      item, low := PopBucket(low);
    }

    /** The locked section of next(): an item, or the end of the drain, or park. */
    method PollNext() returns (p: Poll)
      requires Valid()
      modifies this
      ensures Valid() && shuttingDown == old(shuttingDown)
      ensures Step(old(Snapshot()), Next) == Effect(Snapshot(), Polled(p), PopNext(old(View())).dropped)
      ensures p == if Pending(old(View())) != [] then Item(Pending(old(View()))[0])
                   else if shuttingDown then Drained else Wait
    {
      PopNextIsHead(View(), capacity);
      var item := PopNextItem();
      if item.Some? {
        return Item(item.value);
      }
      if shuttingDown {
        return Drained;
      }
      return Wait;
    }

    method Cancel(id: RequestId) returns (r: Outcome)
      requires Valid()
      modifies this`cancelled
      ensures Valid()
      ensures r == (if shuttingDown then Err(ShuttingDown) else if id !in known then Err(NotFound(id)) else Ok)
      ensures Step(old(Snapshot()), Call.Cancel(id)) == Effect(Snapshot(), Returned(r), [])
      ensures View() == if r == Ok then Tombstone(old(View()), id) else old(View())
    {
      if shuttingDown {
        return Err(ShuttingDown);
      }
      if id !in known {
        return Err(NotFound(id));
      }
      TombstoneKeepsInv(View(), id, capacity);
      cancelled := cancelled + {id};
      return Ok;
    }

    method Shutdown()
      requires Valid()
      modifies this`shuttingDown
      ensures Valid() && shuttingDown && View() == old(View())
    {
      shuttingDown := true;
    }
  }
}
