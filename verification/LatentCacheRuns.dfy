/** Whole runs of the latent cache: bounds, accounting of every page ever handed out, ids that are
    never reused, and pages that stay. */
module LatentCacheRuns {
  import opened LatentCache

  function Start(capacity: nat): Cache {
    Cache(capacity, map[], 0)
  }

  ghost function Run(c: Cache, ops: seq<Op>): Cache
    decreases |ops|
  {
    if ops == [] then c else Run(Apply(c, ops[0]), ops[1..])
  }

  // ---- counts over a run -----------------------------------------------------------------------

  ghost function AllocatedBy(c: Cache, op: Op): nat {
    if op.Allocate? && !Refused(c, op) then 1 else 0
  }

  /** The pages that are resident before the operation and not after it. */
  ghost function Lost(c: Cache, op: Op): set<PageId> {
    c.pages.Keys - Apply(c, op).pages.Keys
  }

  ghost function EvictedBy(c: Cache, op: Op): set<PageId> {
    if op.Allocate? then Lost(c, op) else {}
  }

  ghost function ReleasedBy(c: Cache, op: Op): nat {
    if op.Release? then |Lost(c, op)| else 0
  }

  ghost function Allocated(c: Cache, ops: seq<Op>): nat
    decreases |ops|
  {
    if ops == [] then 0 else AllocatedBy(c, ops[0]) + Allocated(Apply(c, ops[0]), ops[1..])
  }

  ghost function Evicted(c: Cache, ops: seq<Op>): nat
    decreases |ops|
  {
    if ops == [] then 0 else |EvictedBy(c, ops[0])| + Evicted(Apply(c, ops[0]), ops[1..])
  }

  ghost function Released(c: Cache, ops: seq<Op>): nat
    decreases |ops|
  {
    if ops == [] then 0 else ReleasedBy(c, ops[0]) + Released(Apply(c, ops[0]), ops[1..])
  }

  lemma {:induction false} LostIsChosen(c: Cache, op: Op)
    requires Valid(c) && op.Allocate?
    ensures EvictedBy(c, op) == Chosen(c, op)
    ensures Chosen(c, op) <= c.pages.Keys && (Full(c) && !Refused(c, op) ==> |Chosen(c, op)| == 1)
    ensures forall id :: id in Chosen(c, op) ==> IsVictim(c.pages, op.current, id)
  {
  }

  lemma {:induction false} AllocateAccounts(c: Cache, op: Op)
    requires Valid(c) && op.Allocate? && !Refused(c, op)
    ensures Valid(Apply(c, op))
    ensures |Apply(c, op).pages| + |EvictedBy(c, op)| == |c.pages| + 1
    ensures Apply(c, op).nextId == c.nextId + 1
  {
    LostIsChosen(c, op);
    RemoveCount(c.pages, Chosen(c, op));
    hide EvictedBy, Chosen, Refused;
    InsertValid(c.(pages := c.pages - Chosen(c, op)), op.owner, op.frame, op.step);
  }

  lemma {:induction false} ReleaseAccounts(c: Cache, op: Op)
    requires Valid(c) && op.Release?
    ensures Valid(Apply(c, op)) && |Apply(c, op).pages| + ReleasedBy(c, op) == |c.pages|
  {
    RemoveCount(c.pages, OwnedBy(c.pages, op.owner));
    assert Lost(c, op) == OwnedBy(c.pages, op.owner);
  }

  lemma {:induction false} UpdateAccounts(c: Cache, op: Op)
    requires Valid(c) && (op.Touch? || op.Unpin?)
    ensures Valid(Apply(c, op)) && |Apply(c, op).pages| == |c.pages|
  {
    assert Apply(c, op).pages.Keys == c.pages.Keys;
  }

  lemma {:induction false} StepAccounts(c: Cache, op: Op)
    requires Valid(c)
    ensures Valid(Apply(c, op)) && Apply(c, op).capacity == c.capacity
    ensures |Apply(c, op).pages| + |EvictedBy(c, op)| + ReleasedBy(c, op) == |c.pages| + AllocatedBy(c, op)
    ensures Apply(c, op).nextId == c.nextId + AllocatedBy(c, op)
  {
    match op
    case Allocate(_, _, _, _) =>
      if Refused(c, op) {
        assert Lost(c, op) == {};
      } else {
        AllocateAccounts(c, op);
      }
      hide VictimOf, Lost, Valid;
    case Release(owner) =>
      ReleaseAccounts(c, op);
      hide Lost, Valid;
    case _ =>
      UpdateAccounts(c, op);
      hide Lost, Valid;
  }

  /** Over every run: each resident page is filed under its own id below the next one, at most
      capacity pages are resident, and every page handed out is resident, evicted or released. */
  lemma {:induction false} RunAccounts(c: Cache, ops: seq<Op>)
    requires Valid(c)
    ensures var c' := Run(c, ops);
            && Valid(c') && |c'.pages| <= c.capacity
            && (forall id :: id in c'.pages ==> c'.pages[id].id == id < c'.nextId)
            && |c'.pages| + Evicted(c, ops) + Released(c, ops) == |c.pages| + Allocated(c, ops)
            && c'.nextId == c.nextId + Allocated(c, ops)
    decreases |ops|
  {
    if ops != [] {
      StepAccounts(c, ops[0]);
      hide Apply, EvictedBy, ReleasedBy, AllocatedBy;
      RunAccounts(Apply(c, ops[0]), ops[1..]);
    }
  }

  // ---- refusal and eviction ---------------------------------------------------------------------

  /** allocate fails exactly when the cache is full and every page is pinned, and then changes
      nothing. */
  lemma {:induction false} RefusedIff(c: Cache, op: Op)
    requires Valid(c) && op.Allocate?
    ensures Refused(c, op) <==> Full(c) && AllPinned(c.pages)
    ensures Refused(c, op) ==> Apply(c, op) == c
  {
    if Full(c) && !AllPinned(c.pages) {
      var id :| id in c.pages && !c.pages[id].inUse;
      var victim := VictimExists(c.pages, c.nextId, op.current, id);
      assert IsVictim(c.pages, op.current, victim);
    }
  }

  /** A successful allocation evicts nothing while there is room; from a full cache it evicts one
      unpinned page, and that is the least by (frame, last use, id), whatever the current frame,
      exactly when the unpinned pages' distances all overflow 64 bits or none does. */
  lemma {:induction false} EvictsOldestIff(c: Cache, op: Op)
    requires Valid(c) && op.Allocate? && !Refused(c, op)
    ensures !Full(c) ==> EvictedBy(c, op) == {}
    ensures Full(c) ==> |EvictedBy(c, op)| == 1 && forall id :: id in EvictedBy(c, op) ==> Evictable(c.pages, id)
    ensures Full(c) ==>
              ((forall id :: id in EvictedBy(c, op) ==> IsOldest(c.pages, id)) <==> !Mixed(c.pages, op.current))
  {
    LostIsChosen(c, op);
    if Full(c) {
      var id := VictimOf(c.pages, op.current).value;
      assert Chosen(c, op) == {id};
      VictimIsOldestIff(c.pages, c.nextId, op.current, id);
    }
    hide EvictedBy, Apply;
  }

  /** The wrap-around does bite: a page 2^63 frames behind is spared and a newer one evicted. */
  lemma {:induction false} WrapEvictsNewer(owner: RequestId)
    ensures var far, near := Page(0, owner, -TWO_63, 0, false), Page(1, owner, 0, 0, false);
            var pages := map[0 := far, 1 := near];
            IsVictim(pages, 1, 1) && IsOldest(pages, 0)
  {
  }

  // ---- ids and residence ------------------------------------------------------------------------

  /** A page id that has left the cache never comes back: ids are not reissued. */
  lemma {:induction false} GoneStaysGone(c: Cache, ops: seq<Op>, id: PageId)
    requires Valid(c) && id < c.nextId && id !in c.pages
    ensures id !in Run(c, ops).pages
    decreases |ops|
  {
    if ops != [] {
      StepAccounts(c, ops[0]);
      GoneStep(c, ops[0], id);
      hide Apply;
      GoneStaysGone(Apply(c, ops[0]), ops[1..], id);
    }
  }

  lemma {:induction false} GoneStep(c: Cache, op: Op, id: PageId)
    requires id < c.nextId && id !in c.pages
    ensures id !in Apply(c, op).pages && id < Apply(c, op).nextId
  {
  }

  /** A pinned page stays resident and pinned, its owner and frame unchanged, until it is unpinned
      or its owner releases; nobody else's allocation or release touches it. */
  lemma {:induction false} PinnedStays(c: Cache, ops: seq<Op>, id: PageId)
    requires Valid(c) && id in c.pages && c.pages[id].inUse
    requires Op.Unpin(id) !in ops && Op.Release(c.pages[id].owner) !in ops
    ensures var pages := Run(c, ops).pages;
            id in pages && pages[id].inUse && pages[id].owner == c.pages[id].owner &&
                pages[id].frame == c.pages[id].frame
    decreases |ops|
  {
    if ops != [] {
      assert ops[0] in ops;
      StepAccounts(c, ops[0]);
      PinnedStep(c, ops[0], id);
      hide Apply;
      PinnedStays(Apply(c, ops[0]), ops[1..], id);
    }
  }

  lemma {:induction false} PinnedStep(c: Cache, op: Op, id: PageId)
    requires Valid(c) && id in c.pages && c.pages[id].inUse
    requires op != Op.Unpin(id) && op != Op.Release(c.pages[id].owner)
    ensures var pages := Apply(c, op).pages;
            id in pages && pages[id].inUse && pages[id].owner == c.pages[id].owner &&
                pages[id].frame == c.pages[id].frame
  {
  }

  /** release_request frees exactly the pages of its owner. */
  lemma {:induction false} ReleaseFreesOwner(c: Cache, owner: RequestId, id: PageId)
    requires Valid(c)
    ensures var pages := Apply(c, Op.Release(owner)).pages;
            && (id in pages <==> id in c.pages && c.pages[id].owner != owner)
            && (id in pages ==> pages[id] == c.pages[id])
            && |pages| == |c.pages| - |OwnedBy(c.pages, owner)|
  {
  }
}
