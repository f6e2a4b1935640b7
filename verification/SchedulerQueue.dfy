/** The scheduler against one stable priority queue: what each call does to the pending
    requests, when the two agree, and what holds over whole runs. */
module SchedulerQueue {
  import opened Scheduler

  // ---- the reference queue -------------------------------------------------------------------

  /** Behind everything of its own priority or above, in front of everything below. */
  function Insert(q: seq<Request>, r: Request): seq<Request> {
    if q == [] then [r]
    else if Rank(q[0].priority) < Rank(r.priority) then [r] + q
    else [q[0]] + Insert(q[1..], r)
  }

  /** Removes the first copy of id. */
  function Remove(q: seq<Request>, id: RequestId): seq<Request> {
    if q == [] then [] else if q[0].id == id then q[1..] else [q[0]] + Remove(q[1..], id)
  }

  function Copies(q: seq<Request>, id: RequestId): nat {
    if q == [] then 0 else (if q[0].id == id then 1 else 0) + Copies(q[1..], id)
  }

  lemma {:induction false} InsertSplits(p: seq<Request>, q: seq<Request>, r: Request)
    requires forall x :: x in p ==> Rank(x.priority) >= Rank(r.priority)
    requires forall x :: x in q ==> Rank(x.priority) < Rank(r.priority)
    ensures Insert(p + q, r) == p + [r] + q
  {
    if p == [] {
      assert p + q == q && [] + [r] + q == [r] + q;
      if q == [] {
        assert [r] + q == [r];
      }
    } else {
      assert (p + q)[0] == p[0] && (p + q)[1..] == p[1..] + q;
      InsertSplits(p[1..], q, r);
      assert [p[0]] + (p[1..] + [r] + q) == p + [r] + q;
    }
  }

  lemma {:induction false} CopiesConcat(p: seq<Request>, q: seq<Request>, id: RequestId)
    ensures Copies(p + q, id) == Copies(p, id) + Copies(q, id)
  {
    if p == [] {
      assert p + q == q;
    } else {
      assert (p + q)[0] == p[0] && (p + q)[1..] == p[1..] + q;
      CopiesConcat(p[1..], q, id);
    }
  }

  lemma {:induction false} CopiesPositive(q: seq<Request>, id: RequestId)
    ensures Copies(q, id) > 0 <==> id in Ids(q)
  {
    if q != [] {
      assert q == [q[0]] + q[1..];
      IdsOfConcat([q[0]], q[1..]);
      CopiesPositive(q[1..], id);
    }
  }

  // ---- what is pending -----------------------------------------------------------------------

  /** Of each id, as many copies are still to be returned as are queued, less one if the id is
      cancelled. */
  lemma {:induction false} PendingCopies(q: seq<Request>, c: set<RequestId>, id: RequestId)
    requires c <= Ids(q)
    ensures Copies(Live(q, c), id) == Copies(q, id) - (if id in c then 1 else 0)
  {
    if q != [] {
      assert q == [q[0]] + q[1..];
      IdsOfConcat([q[0]], q[1..]);
      if q[0].id in c {
        PendingCopies(q[1..], c - {q[0].id}, id);
      } else {
        PendingCopies(q[1..], c, id);
        assert ([q[0]] + Live(q[1..], c))[1..] == Live(q[1..], c);
      }
    }
  }

  lemma {:induction false} PendingSplit(b: Buckets, p: Priority)
    ensures All(b) == AtLeast(b, p) + Below(b, p)
    ensures Pending(b) == Live(AtLeast(b, p), b.cancelled) + Live(Below(b, p), b.cancelled - Ids(AtLeast(b, p)))
  {
    assert All(b) == AtLeast(b, p) + Below(b, p);
    LiveSplit(AtLeast(b, p), Below(b, p), b.cancelled);
  }

  lemma {:induction false} LevelsAround(b: Buckets, p: Priority)
    requires Sorted(b)
    ensures forall x :: x in AtLeast(b, p) ==> Rank(x.priority) >= Rank(p)
    ensures forall x :: x in Below(b, p) ==> Rank(x.priority) < Rank(p)
  {
  }

  // ---- submit ---------------------------------------------------------------------------------

  /** The new request itself takes the tombstone meant for an older copy: its id is cancelled
      and every queued copy sits at a lower priority. */
  ghost predicate Swallowed(b: Buckets, r: Request) {
    r.id in b.cancelled && r.id !in Ids(AtLeast(b, r.priority))
  }

  /** The pending requests at the new request's level and above, then the rest behind r. */
  lemma {:induction false} EnqueueAround(b: Buckets, r: Request, capacity: nat)
    requires Inv(b, capacity) && |Pending(b)| < capacity
    ensures var p, q, c := AtLeast(b, r.priority), Below(b, r.priority), b.cancelled;
            Pending(Enqueue(b, r)) == Live(p, c) + Live([r] + q, c - Ids(p))
  {
    var p, q, c := AtLeast(b, r.priority), Below(b, r.priority), b.cancelled;
    EnqueuePlace(b, r);
    assert Enqueue(b, r).cancelled == c;
    hide Live, Ids, Enqueue, AtLeast, Below, Inv, All;
    assert p + [r] + q == p + ([r] + q);
    LiveSplit(p, [r] + q, c);
  }

  lemma {:induction false} InsertAround(b: Buckets, r: Request)
    requires Sorted(b)
    ensures var p, q, c := AtLeast(b, r.priority), Below(b, r.priority), b.cancelled;
            Insert(Pending(b), r) == Live(p, c) + ([r] + Live(q, c - Ids(p)))
  {
    var p, q, c := AtLeast(b, r.priority), Below(b, r.priority), b.cancelled;
    LevelsAround(b, r.priority);
    PendingSplit(b, r.priority);
    hide Live, Ids, AtLeast, Below, Sorted, All, Pending;
    LiveSubset(p, c);
    LiveSubset(q, c - Ids(p));
    InsertSplits(Live(p, c), Live(q, c - Ids(p)), r);
    assert Live(p, c) + [r] + Live(q, c - Ids(p)) == Live(p, c) + ([r] + Live(q, c - Ids(p)));
  }

  lemma {:induction false} LiveCons(r: Request, q: seq<Request>, c: set<RequestId>)
    ensures Live([r] + q, c) == if r.id in c then Live(q, c - {r.id}) else [r] + Live(q, c)
  {
  }

  /** submit is a stable priority insert exactly when the new request is not swallowed. */
  lemma {:induction false} SubmitInserts(b: Buckets, r: Request, capacity: nat)
    requires Inv(b, capacity) && |Pending(b)| < capacity
    ensures Pending(Enqueue(b, r)) == Insert(Pending(b), r) <==> !Swallowed(b, r)
  {
    var p, q, c := AtLeast(b, r.priority), Below(b, r.priority), b.cancelled;
    EnqueueAround(b, r, capacity);
    InsertAround(b, r);
    LiveCons(r, q, c - Ids(p));
    LevelsAround(b, r.priority);
    LiveSubset(q, c - Ids(p) - {r.id});
    hide Live, Ids, Enqueue, Insert, AtLeast, Below, Pending, Inv;
    var x := Live(q, c - Ids(p) - {r.id});
    if Swallowed(b, r) && Live(p, c) + x == Live(p, c) + ([r] + Live(q, c - Ids(p))) {
      SuffixEqual(Live(p, c), x, [r] + Live(q, c - Ids(p)));
      HeadIn(x, r, Live(q, c - Ids(p)));
    }
  }

  lemma {:induction false} SuffixEqual(p: seq<Request>, x: seq<Request>, y: seq<Request>)
    requires p + x == p + y
    ensures x == y
  {
    assert x == (p + x)[|p|..] && y == (p + y)[|p|..];
  }

  lemma {:induction false} HeadIn(x: seq<Request>, r: Request, y: seq<Request>)
    requires x == [r] + y
    ensures r in x
  {
  }

  /** Withdrawing a tombstone brings back the first copy of its id. */
  lemma {:induction false} LiveUncancel(q: seq<Request>, c: set<RequestId>, id: RequestId) returns (x: Request)
    requires id in c && id in Ids(q)
    ensures x in q && x.id == id
    ensures multiset(Live(q, c - {id})) == multiset(Live(q, c)) + multiset{x}
  {
    assert q == [q[0]] + q[1..];
    IdsOfConcat([q[0]], q[1..]);
    if q[0].id == id {
      x := q[0];
    } else if q[0].id in c {
      x := LiveUncancel(q[1..], c - {q[0].id}, id);
      assert c - {id} - {q[0].id} == c - {q[0].id} - {id};
    } else {
      x := LiveUncancel(q[1..], c, id);
    }
  }

  /** A swallowed submission is accepted, yet what becomes pending is the cancelled older copy,
      at its own lower priority. */
  lemma {:induction false} SwallowedRevives(b: Buckets, r: Request, capacity: nat) returns (x: Request)
    requires Inv(b, capacity) && |Pending(b)| < capacity && Swallowed(b, r)
    ensures x in All(b) && x.id == r.id && Rank(x.priority) < Rank(r.priority)
    ensures multiset(Pending(Enqueue(b, r))) == multiset(Pending(b)) + multiset{x}
  {
    var p, q, c := AtLeast(b, r.priority), Below(b, r.priority), b.cancelled;
    EnqueueAround(b, r, capacity);
    LiveCons(r, q, c - Ids(p));
    PendingSplit(b, r.priority);
    LevelsAround(b, r.priority);
    IdsOfConcat(p, q);
    x := LiveUncancel(q, c - Ids(p), r.id);
  }

  // ---- cancel ---------------------------------------------------------------------------------

  /** A new tombstone takes the first pending copy of the id out of the queue; a second
      cancel of the same id changes nothing. */
  lemma {:induction false} CancelRemoves(q: seq<Request>, c: set<RequestId>, id: RequestId)
    requires id in Ids(q)
    ensures Live(q, c + {id}) == if id in c then Live(q, c) else Remove(Live(q, c), id)
  {
    if id in c {
      assert c + {id} == c;
      return;
    }
    assert q == [q[0]] + q[1..];
    IdsOfConcat([q[0]], q[1..]);
    if q[0].id == id {
      assert c + {id} - {id} == c;
      assert ([q[0]] + Live(q[1..], c))[1..] == Live(q[1..], c);
    } else if q[0].id in c {
      CancelRemoves(q[1..], c - {q[0].id}, id);
      assert c + {id} - {q[0].id} == c - {q[0].id} + {id};
    } else {
      CancelRemoves(q[1..], c, id);
      assert ([q[0]] + Live(q[1..], c))[1..] == Live(q[1..], c);
    }
  }

  /** After a successful cancel the id is gone from the pending requests exactly when at most
      one copy of it was queued. */
  lemma {:induction false} CancelErases(b: Buckets, id: RequestId, capacity: nat)
    requires Inv(b, capacity) && id in b.known
    ensures id !in Ids(Pending(Tombstone(b, id))) <==> Copies(All(b), id) <= 1
  {
    TombstoneKeepsInv(b, id, capacity);
    PendingCopies(All(b), b.cancelled + {id}, id);
    CopiesPositive(Pending(Tombstone(b, id)), id);
  }

  // ---- runs -----------------------------------------------------------------------------------

  function Start(capacity: nat): State {
    State(EMPTY, false, capacity)
  }

  ghost predicate Valid(s: State) {
    Inv(s.buckets, s.capacity)
  }

  function Run(s: State, calls: seq<Call>): State
    decreases |calls|
  {
    if calls == [] then s else Run(Step(s, calls[0]).after, calls[1..])
  }

  function Replies(s: State, calls: seq<Call>): seq<Reply>
    decreases |calls|
  {
    if calls == [] then [] else [Step(s, calls[0]).reply] + Replies(Step(s, calls[0]).after, calls[1..])
  }

  lemma {:induction false} RunCons(s: State, call: Call, calls: seq<Call>)
    ensures Run(s, [call] + calls) == Run(Step(s, call).after, calls)
    ensures Replies(s, [call] + calls) == [Step(s, call).reply] + Replies(Step(s, call).after, calls)
  {
    assert ([call] + calls)[1..] == calls;
  }

  lemma {:induction false} StepKeepsValid(s: State, call: Call)
    requires Valid(s)
    ensures Valid(Step(s, call).after)
    ensures Step(s, call).after.capacity == s.capacity
    ensures s.shuttingDown ==> Step(s, call).after.shuttingDown
  {
    LengthIsPending(s.buckets, s.capacity);
    match call
    case Submit(r) =>
      if SubmitOutcome(s) == Ok { EnqueueKeepsInv(s.buckets, r, s.capacity); }
    case Next => PopNextIsHead(s.buckets, s.capacity);
    case Cancel(id) =>
      if CancelOutcome(s, id) == Ok { TombstoneKeepsInv(s.buckets, id, s.capacity); }
    case Shutdown =>
  }

  /** Over every run from an empty scheduler, duplicates included: never more live requests than
      the capacity, len() is what a drain still returns, and no tombstone outlives its item. */
  lemma {:induction false} RunKeepsValid(s: State, calls: seq<Call>)
    requires Valid(s)
    ensures var t := Run(s, calls);
            && Valid(t)
            && Len(t.buckets) == |Pending(t.buckets)| == |All(t.buckets)| - |t.buckets.cancelled| <= s.capacity
            && t.buckets.cancelled <= t.buckets.known <= Ids(All(t.buckets))
            && t.capacity == s.capacity
    decreases |calls|
  {
    LengthIsPending(s.buckets, s.capacity);
    if calls != [] {
      StepKeepsValid(s, calls[0]);
      RunKeepsValid(Step(s, calls[0]).after, calls[1..]);
    }
  }

  function Items(q: seq<Request>): seq<Reply> {
    seq(|q|, i requires 0 <= i < |q| => Polled(Item(q[i])))
  }

  function Nexts(n: nat): seq<Call> {
    seq(n, _ => Next)
  }

  /** Calling next() once more than len() returns every pending request in order, then reports the
      end, and leaves nothing behind: no item, no tombstone, no known id. */
  lemma {:induction false} DrainReturnsPending(s: State)
    requires Valid(s)
    ensures var n := |Pending(s.buckets)| + 1;
            && Replies(s, Nexts(n)) == Items(Pending(s.buckets)) + [Polled(if s.shuttingDown then Drained else Wait)]
            && Run(s, Nexts(n)) == s.(buckets := EMPTY)
    decreases |Pending(s.buckets)|
  {
    var q := Pending(s.buckets);
    var t := Step(s, Next).after;
    StepKeepsValid(s, Next);
    NextTakesHead(s);
    hide Step, Pending, Inv;
    if q == [] {
      DrainEmpty(s);
    } else {
      DrainReturnsPending(t);
      hide Nexts, Items, Replies, Run;
      DrainCons(s, q, Polled(if s.shuttingDown then Drained else Wait));
    }
  }

  lemma {:induction false} DrainEmpty(s: State)
    ensures Replies(s, Nexts(1)) == Items([]) + [Step(s, Next).reply] && Run(s, Nexts(1)) == Step(s, Next).after
  {
  }

  lemma {:induction false} DrainCons(s: State, q: seq<Request>, end: Reply)
    requires q != [] && Step(s, Next).reply == Polled(Item(q[0]))
    requires Replies(Step(s, Next).after, Nexts(|q|)) == Items(q[1..]) + [end]
    ensures Replies(s, Nexts(|q| + 1)) == Items(q) + [end]
    ensures Run(s, Nexts(|q| + 1)) == Run(Step(s, Next).after, Nexts(|q|))
  {
    NextsCons(|q|);
    RunCons(s, Next, Nexts(|q|));
    ItemsCons(q);
    hide Step, Nexts, Items, Replies, Run;
  }

  /** next() returns the pending head and leaves the rest, or reports that nothing is pending. */
  lemma {:induction false} NextTakesHead(s: State)
    requires Valid(s)
    ensures var q, e := Pending(s.buckets), Step(s, Next);
            && e.after.shuttingDown == s.shuttingDown && e.after.capacity == s.capacity
            && e.reply == Polled(if q != [] then Item(q[0]) else if s.shuttingDown then Drained else Wait)
            && (if q != [] then Pending(e.after.buckets) == q[1..] else e.after.buckets == EMPTY)
  {
    PopNextIsHead(s.buckets, s.capacity);
    hide PopNext, Pending, Inv;
  }

  lemma {:induction false} NextsCons(n: nat)
    ensures Nexts(n + 1) == [Next] + Nexts(n)
  {
  }

  lemma {:induction false} ItemsCons(q: seq<Request>)
    requires q != []
    ensures Items(q) == [Polled(Item(q[0]))] + Items(q[1..])
  {
  }
}
