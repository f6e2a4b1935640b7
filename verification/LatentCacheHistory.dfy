/** What each page of the latent cache says about the operations so far: its allocation, the latest touch
    of it, and whether it was unpinned. Read off the list of operations alone. */
module LatentCacheHistory {
  import opened LatentCache
  import opened LatentCacheRuns

  ghost function Before(capacity: nat, ops: seq<Op>, i: nat): Cache
    requires i <= |ops|
  {
    Run(Start(capacity), ops[..i])
  }

  /** Operation i is the successful allocation that was given id. */
  ghost predicate AllocatedAt(capacity: nat, ops: seq<Op>, i: nat, id: PageId) {
    && i < |ops| && ops[i].Allocate? && Before(capacity, ops, i).nextId == id
    && !Refused(Before(capacity, ops, i), ops[i])
  }

  /** The step of the latest touch of id, or the given one. */
  function LatestTouch(ops: seq<Op>, id: PageId, step: Int64): Int64 {
    if ops == [] then step
    else
      var op := ops[|ops| - 1];
      if op.Touch? && op.id == id then op.step else LatestTouch(ops[..|ops| - 1], id, step)
  }

  /** The page that the allocation and the operations after it make. */
  function PageSince(alloc: Op, later: seq<Op>, id: PageId): Page
    requires alloc.Allocate?
  {
    Page(id, alloc.owner, alloc.frame, LatestTouch(later, id, alloc.step), Op.Unpin(id) !in later)
  }

  /** Operation i takes id out: its owner releases, or a full cache makes room with it. */
  ghost predicate TakesOut(capacity: nat, ops: seq<Op>, i: nat, id: PageId)
    requires i < |ops|
  {
    var c := Before(capacity, ops, i);
    match ops[i]
    case Release(owner) => id in c.pages && c.pages[id].owner == owner
    case Allocate(_, _, _, current) => Full(c) && IsVictim(c.pages, current, id)
    case _ => false
  }

  // ---- growing a run at its end ------------------------------------------------------------------------

  lemma {:induction false} RunSnoc(c: Cache, ops: seq<Op>)
    requires ops != []
    ensures Run(c, ops) == Apply(Run(c, ops[..|ops| - 1]), ops[|ops| - 1])
    decreases |ops|
  {
    hide Apply;
    var n := |ops| - 1;
    if n == 0 {
      assert ops[..0] == [] && ops[1..] == [];
    } else {
      assert ops[1..][..n - 1] == ops[..n][1..];
      RunSnoc(Apply(c, ops[0]), ops[1..]);
    }
  }

  lemma {:induction false} PrefixValid(capacity: nat, ops: seq<Op>, i: nat)
    requires capacity >= 1 && i <= |ops|
    ensures Valid(Before(capacity, ops, i))
  {
    RunAccounts(Start(capacity), ops[..i]);
  }

  /** The same operation, found in a longer run. */
  lemma {:induction false} Extends(capacity: nat, ops: seq<Op>, n: nat, i: nat, id: PageId)
    requires i < n <= |ops|
    ensures Before(capacity, ops[..n], i) == Before(capacity, ops, i)
    ensures AllocatedAt(capacity, ops[..n], i, id) <==> AllocatedAt(capacity, ops, i, id)
  {
    assert ops[..n][..i] == ops[..i];
  }

  lemma {:induction false} SinceSnoc(alloc: Op, later: seq<Op>, op: Op, id: PageId)
    requires alloc.Allocate?
    ensures var p := PageSince(alloc, later, id);
            PageSince(alloc, later + [op], id)
            == (if op.Touch? && op.id == id then p.(lastUsed := op.step)
                else if op == Op.Unpin(id) then p.(inUse := false) else p)
  {
    assert (later + [op])[..|later|] == later;
  }

  /** One operation on a page that is resident before and after it. */
  lemma {:induction false} StepOnPage(c: Cache, op: Op, id: PageId)
    requires Valid(c) && id in c.pages && id in Apply(c, op).pages
    ensures Apply(c, op).pages[id]
         == (if op.Touch? && op.id == id then c.pages[id].(lastUsed := op.step)
             else if op == Op.Unpin(id) then c.pages[id].(inUse := false) else c.pages[id])
  {
    hide VictimOf;
  }

  lemma {:induction false} StepArrives(c: Cache, op: Op, id: PageId)
    requires Valid(c) && id !in c.pages && id in Apply(c, op).pages
    ensures op.Allocate? && !Refused(c, op) && id == c.nextId
    ensures Apply(c, op).pages[id] == PageSince(op, [], id)
  {
    hide VictimOf;
  }

  // ---- the law --------------------------------------------------------------------------------------------

  /** Over every run: a resident page has an allocation, whose owner and frame it carries; its last use is the
      latest touch since, or else the allocation's step; and it is pinned exactly if no unpin of it came since. */
  lemma {:induction false} PageTellsHistory(capacity: nat, ops: seq<Op>, id: PageId) returns (a: nat)
    requires capacity >= 1 && id in Run(Start(capacity), ops).pages
    ensures AllocatedAt(capacity, ops, a, id)
    ensures var page := Run(Start(capacity), ops).pages[id];
            && page.owner == ops[a].owner && page.frame == ops[a].frame
            && page.lastUsed == LatestTouch(ops[a + 1..], id, ops[a].step)
            && (page.inUse <==> Op.Unpin(id) !in ops[a + 1..])
            && page == PageSince(ops[a], ops[a + 1..], id)
    decreases |ops|
  {
    var n := |ops| - 1;
    assert ops != [];
    RunSnoc(Start(capacity), ops);
    PrefixValid(capacity, ops, n);
    var c := Before(capacity, ops, n);
    if id in c.pages {
      a := PageTellsHistory(capacity, ops[..n], id);
      AllocatedEarlier(capacity, ops[..n], a, id);
      Extends(capacity, ops, n, a, id);
      StepOnPage(c, ops[n], id);
      SinceSnoc(ops[a], ops[a + 1..n], ops[n], id);
      SplitLater(ops, a);
    } else {
      StepArrives(c, ops[n], id);
      a := n;
      assert ops[n + 1..] == [];
    }
    hide Run, Apply, Refused;
  }

  lemma {:induction false} SplitLater(ops: seq<Op>, a: nat)
    requires a < |ops| - 1
    ensures ops[..|ops| - 1][a + 1..] == ops[a + 1..|ops| - 1]
    ensures ops[a + 1..] == ops[a + 1..|ops| - 1] + [ops[|ops| - 1]]
  {
  }

  /** No two operations are given the same id. */
  lemma {:induction false} AllocationIsUnique(capacity: nat, ops: seq<Op>, a: nat, b: nat, id: PageId)
    requires capacity >= 1 && AllocatedAt(capacity, ops, a, id) && AllocatedAt(capacity, ops, b, id)
    ensures a == b
  {
    if a < b {
      NextIdGrows(capacity, ops, a, b);
    } else if b < a {
      NextIdGrows(capacity, ops, b, a);
    }
  }

  lemma {:induction false} NextIdGrows(capacity: nat, ops: seq<Op>, a: nat, b: nat)
    requires capacity >= 1 && a < b <= |ops| && ops[a].Allocate? && !Refused(Before(capacity, ops, a), ops[a])
    ensures Before(capacity, ops, b).nextId > Before(capacity, ops, a).nextId
    decreases b
  {
    assert ops[..b][..b - 1] == ops[..b - 1];
    RunSnoc(Start(capacity), ops[..b]);
    PrefixValid(capacity, ops, b - 1);
    StepAccounts(Before(capacity, ops, b - 1), ops[b - 1]);
    if a < b - 1 {
      NextIdGrows(capacity, ops, a, b - 1);
    }
    hide Run, Apply, Refused, Valid;
  }

  /** Nothing after operation a takes id out. */
  ghost predicate KeptSince(capacity: nat, ops: seq<Op>, a: nat, id: PageId) {
    forall j: nat :: a < j < |ops| ==> !TakesOut(capacity, ops, j, id)
  }

  lemma {:induction false} KeptSnoc(capacity: nat, ops: seq<Op>, a: nat, id: PageId)
    requires ops != [] && a < |ops| - 1
    ensures KeptSince(capacity, ops, a, id)
       <==> KeptSince(capacity, ops[..|ops| - 1], a, id) && !TakesOut(capacity, ops, |ops| - 1, id)
  {
    var n := |ops| - 1;
    forall j: nat | j < n
      ensures TakesOut(capacity, ops[..n], j, id) <==> TakesOut(capacity, ops, j, id)
    {
      Extends(capacity, ops, n, j, id);
    }
    hide TakesOut;
  }

  lemma {:induction false} ResidentWasKept(capacity: nat, ops: seq<Op>, id: PageId) returns (a: nat)
    requires capacity >= 1 && id in Run(Start(capacity), ops).pages
    ensures AllocatedAt(capacity, ops, a, id) && KeptSince(capacity, ops, a, id)
    decreases |ops|
  {
    assert ops != [];
    var n := |ops| - 1;
    RunSnoc(Start(capacity), ops);
    PrefixValid(capacity, ops, n);
    StepResident(Before(capacity, ops, n), capacity, ops, n, id);
    hide Run, Apply, TakesOut, AllocatedAt;
    if AllocatedAt(capacity, ops, n, id) {
      a := n;
    } else {
      a := ResidentWasKept(capacity, ops[..n], id);
      AllocatedEarlier(capacity, ops[..n], a, id);
      Extends(capacity, ops, n, a, id);
      KeptSnoc(capacity, ops, a, id);
    }
  }

  lemma {:induction false} AllocatedEarlier(capacity: nat, ops: seq<Op>, a: nat, id: PageId)
    requires AllocatedAt(capacity, ops, a, id)
    ensures a < |ops|
  {
  }

  lemma {:induction false} KeptIsResident(capacity: nat, ops: seq<Op>, a: nat, id: PageId)
    requires capacity >= 1 && AllocatedAt(capacity, ops, a, id) && KeptSince(capacity, ops, a, id)
    ensures id in Run(Start(capacity), ops).pages
    decreases |ops|
  {
    AllocatedEarlier(capacity, ops, a, id);
    var n := |ops| - 1;
    RunSnoc(Start(capacity), ops);
    PrefixValid(capacity, ops, n);
    StepResident(Before(capacity, ops, n), capacity, ops, n, id);
    hide Run, Apply, TakesOut, AllocatedAt;
    if a < n {
      Extends(capacity, ops, n, a, id);
      KeptSnoc(capacity, ops, a, id);
      KeptIsResident(capacity, ops[..n], a, id);
    }
  }

  /** A page is resident exactly if it was allocated and nothing since has taken it out. */
  lemma {:induction false} ResidentIff(capacity: nat, ops: seq<Op>, id: PageId)
    requires capacity >= 1
    ensures id in Run(Start(capacity), ops).pages
       <==> exists a :: AllocatedAt(capacity, ops, a, id) && KeptSince(capacity, ops, a, id)
  {
    hide Run, AllocatedAt, KeptSince;
    if id in Run(Start(capacity), ops).pages {
      var a := ResidentWasKept(capacity, ops, id);
    }
    if a :| AllocatedAt(capacity, ops, a, id) && KeptSince(capacity, ops, a, id) {
      KeptIsResident(capacity, ops, a, id);
    }
  }

  lemma {:induction false} StepResident(c: Cache, capacity: nat, ops: seq<Op>, n: nat, id: PageId)
    requires capacity >= 1 && n < |ops| && c == Before(capacity, ops, n) && Valid(c)
    ensures id in Apply(c, ops[n]).pages
       <==> (id in c.pages && !TakesOut(capacity, ops, n, id)) || AllocatedAt(capacity, ops, n, id)
  {
    hide Run, Before;
    if ops[n].Allocate? {
      AllocateResident(c, ops[n], id);
    }
  }

  lemma {:induction false} AllocateResident(c: Cache, op: Op, id: PageId)
    requires Valid(c) && op.Allocate?
    ensures id in Apply(c, op).pages
       <==> (id in c.pages && !(Full(c) && IsVictim(c.pages, op.current, id))) || (id == c.nextId && !Refused(c, op))
  {
    LostIsChosen(c, op);
    if IsVictim(c.pages, op.current, id) {
      TheVictim(c, op.current, id);
    }
    hide VictimOf, IsVictim;
  }

  /** Hence an allocation on a full cache succeeds exactly if some resident page has been unpinned since it was
      allocated. */
  lemma {:induction false} FullAllocationSucceedsIff(capacity: nat, ops: seq<Op>, op: Op)
    requires capacity >= 1 && op.Allocate? && Full(Run(Start(capacity), ops))
    ensures !Refused(Run(Start(capacity), ops), op)
       <==> exists id, a :: id in Run(Start(capacity), ops).pages && AllocatedAt(capacity, ops, a, id)
                            && Op.Unpin(id) in ops[a + 1..]
  {
    var c := Run(Start(capacity), ops);
    RunAccounts(Start(capacity), ops);
    RefusedIff(c, op);
    if AllPinned(c.pages) {
      forall id, a | id in c.pages && AllocatedAt(capacity, ops, a, id)
        ensures Op.Unpin(id) !in ops[a + 1..]
      {
        var b := PageTellsHistory(capacity, ops, id);
        AllocationIsUnique(capacity, ops, a, b, id);
      }
    } else {
      var id :| id in c.pages && !c.pages[id].inUse;
      var a := PageTellsHistory(capacity, ops, id);
      assert AllocatedAt(capacity, ops, a, id) && Op.Unpin(id) in ops[a + 1..];
    }
  }
}
