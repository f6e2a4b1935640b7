/** The paged latent cache: a bounded page table with frame-aware eviction. Frame distances are
    64-bit differences and wrap around. */
module LatentCache {

  const TWO_63: int := 0x8000_0000_0000_0000

  type Int64 = x: int | -TWO_63 <= x < TWO_63 witness 0

  type PageId = nat

  type RequestId = string

  datatype Option<T> = None | Some(value: T)

  datatype Page = Page(id: PageId, owner: RequestId, frame: Int64, lastUsed: Int64, inUse: bool)

  /** The difference of two 64-bit integers as 64-bit arithmetic computes it. */
  function WrappingSub(a: Int64, b: Int64): (d: Int64)
    ensures d == a - b || d == a - b - 2 * TWO_63 || d == a - b + 2 * TWO_63
  {
    if a - b >= TWO_63 then a - b - 2 * TWO_63 else if a - b < -TWO_63 then a - b + 2 * TWO_63 else a - b
  }

  predicate Overflows(p: Page, current: Int64) {
    !(-TWO_63 <= p.frame - current < TWO_63)
  }

  // ---- the eviction order -------------------------------------------------------------------

  predicate LessKey(d1: int, u1: int, id1: PageId, d2: int, u2: int, id2: PageId) {
    d1 < d2 || (d1 == d2 && (u1 < u2 || (u1 == u2 && id1 < id2)))
  }

  /** The order the eviction scan uses: wrapped distance, last use, page id. */
  predicate Sooner(p: Page, q: Page, current: Int64) {
    LessKey(WrappingSub(p.frame, current), p.lastUsed, p.id, WrappingSub(q.frame, current), q.lastUsed, q.id)
  }

  /** The intended order, with no reference frame: frame, last use, page id. */
  predicate Older(p: Page, q: Page) {
    || p.frame < q.frame
    || (p.frame == q.frame && p.lastUsed < q.lastUsed)
    || (p.frame == q.frame && p.lastUsed == q.lastUsed && p.id < q.id)
  }

  predicate Evictable(pages: map<PageId, Page>, id: PageId) {
    id in pages && !pages[id].inUse
  }

  /** First among the unpinned pages in the scan's order. */
  ghost predicate IsVictim(pages: map<PageId, Page>, current: Int64, id: PageId) {
    Evictable(pages, id) && forall x :: Evictable(pages, x) && x != id ==> Sooner(pages[id], pages[x], current)
  }

  /** First among the unpinned pages in the intended order. */
  ghost predicate IsOldest(pages: map<PageId, Page>, id: PageId) {
    Evictable(pages, id) && forall x :: Evictable(pages, x) && x != id ==> Older(pages[id], pages[x])
  }

  ghost predicate Keyed(pages: map<PageId, Page>, bound: nat) {
    forall id :: id in pages ==> id < bound && pages[id].id == id
  }

  lemma {:induction false} SoonerIsTotal(p: Page, q: Page, current: Int64)
    requires p.id != q.id
    ensures Sooner(p, q, current) != Sooner(q, p, current)
  {
  }

  lemma {:induction false} SoonerChains(p: Page, q: Page, r: Page, current: Int64)
    requires Sooner(p, q, current) && Sooner(q, r, current)
    ensures Sooner(p, r, current)
  {
  }

  // ---- the scan ------------------------------------------------------------------------------------

  ghost predicate Ascending(s: seq<Page>) {
    forall i, j :: 0 <= i < j < |s| ==> s[i].id < s[j].id
  }

  /** The pages in key order, as the ordered map iterates them. */
  method Snapshot(pages: map<PageId, Page>, bound: nat) returns (s: seq<Page>)
    requires Keyed(pages, bound)
    ensures Ascending(s)
    ensures forall p :: p in s <==> p.id in pages && pages[p.id] == p
  {
    s := [];
    for n := 0 to bound
      invariant Ascending(s)
      invariant forall p :: p in s <==> p.id < n && p.id in pages && pages[p.id] == p
    {
      if n in pages {
        s := s + [pages[n]];
      }
    }
  }

  /** One pass, replacing the best page only by a strictly smaller key. */
  method Victim(s: seq<Page>, current: Int64) returns (best: Option<Page>)
    requires Ascending(s)
    ensures best == None <==> forall p :: p in s ==> p.inUse
    ensures best.Some? ==> best.value in s && !best.value.inUse
    ensures best.Some? ==> forall q :: q in s && !q.inUse && q.id != best.value.id ==> Sooner(best.value, q, current)
  {
    best := None;
    for i := 0 to |s|
      invariant best == None <==> forall p :: p in s[..i] ==> p.inUse
      invariant best.Some? ==> best.value in s[..i] && !best.value.inUse
      invariant best.Some? ==> forall q :: q in s[..i] && !q.inUse && q.id != best.value.id ==>
          Sooner(best.value, q, current)
    {
      var p := s[i];
      assert s[..i + 1] == s[..i] + [p];
      if !p.inUse {
        match best {
          case None => best := Some(p);
          case Some(cur) =>
            var dp, dc := WrappingSub(p.frame, current), WrappingSub(cur.frame, current);
            assert cur.id < p.id;
            if dp < dc || (dp == dc && p.lastUsed < cur.lastUsed) {
              forall q | q in s[..i] && !q.inUse && q.id != p.id
                ensures Sooner(p, q, current)
              {
                if q.id != cur.id {
                  SoonerChains(p, cur, q, current);
                } else {
                  SameId(s, q, cur);
                }
              }
              best := Some(p);
            }
        }
      }
    }
    assert s[..|s|] == s;
  }

  lemma {:induction false} SameId(s: seq<Page>, p: Page, q: Page)
    requires Ascending(s) && p in s && q in s && p.id == q.id
    ensures p == q
  {
  }

  // ---- when the wrapped order is the intended one -----------------------------------------------------

  /** Some unpinned page overflows and some does not. */
  ghost predicate Mixed(pages: map<PageId, Page>, current: Int64) {
    exists x, y :: Evictable(pages, x) && Evictable(pages, y) && Overflows(pages[x], current) &&
        !Overflows(pages[y], current)
  }

  lemma {:induction false} SameSideSameOrder(p: Page, q: Page, current: Int64)
    requires Overflows(p, current) <==> Overflows(q, current)
    ensures Sooner(p, q, current) <==> Older(p, q)
  {
  }

  lemma {:induction false} AcrossReversed(p: Page, q: Page, current: Int64)
    requires Overflows(p, current) && !Overflows(q, current)
    ensures Sooner(p, q, current) <==> Older(q, p)
    ensures Sooner(q, p, current) <==> Older(p, q)
  {
  }

  /** The scan's victim is the oldest unpinned page, whatever current is, exactly when the
      distances of the unpinned pages all overflow or none does. */
  lemma {:induction false} VictimIsOldestIff(pages: map<PageId, Page>, bound: nat, current: Int64, id: PageId)
    requires Keyed(pages, bound) && IsVictim(pages, current, id)
    ensures IsOldest(pages, id) <==> !Mixed(pages, current)
  {
    if Mixed(pages, current) {
      var x, y :| Evictable(pages, x) && Evictable(pages, y) && Overflows(pages[x], current) &&
          !Overflows(pages[y], current);
      if Overflows(pages[id], current) {
        AcrossReversed(pages[id], pages[y], current);
      } else {
        AcrossReversed(pages[x], pages[id], current);
      }
      assert !IsOldest(pages, id) by {
        var z := if Overflows(pages[id], current) then y else x;
        assert Sooner(pages[id], pages[z], current);
      }
    } else {
      forall x | Evictable(pages, x) && x != id
        ensures Older(pages[id], pages[x])
      {
        SameSideSameOrder(pages[id], pages[x], current);
      }
    }
  }

  // ---- releasing ---------------------------------------------------------------------------------------

  function OwnedBy(pages: map<PageId, Page>, owner: RequestId): set<PageId> {
    set id | id in pages && pages[id].owner == owner
  }

  function OwnedBelow(pages: map<PageId, Page>, owner: RequestId, n: nat): set<PageId> {
    set id | id in pages && pages[id].owner == owner && id < n
  }

  lemma {:induction false} OwnedBelowStep(pages: map<PageId, Page>, owner: RequestId, n: nat)
    ensures var s := OwnedBelow(pages, owner, n);
            && n !in s
            && OwnedBelow(pages, owner, n + 1) == s + (if n in pages && pages[n].owner == owner then {n} else {})
            && pages - s - {n} == pages - (s + {n})
  {
  }

  /** Removes the pages of one owner, id by id, and counts them. */
  method RemoveOwned(pages: map<PageId, Page>, bound: nat, owner: RequestId) returns (rest: map<PageId, Page>,
      count: nat)
    requires Keyed(pages, bound)
    ensures rest == pages - OwnedBy(pages, owner) && count == |OwnedBy(pages, owner)|
  {
    rest, count := pages, 0;
    for n := 0 to bound
      invariant rest == pages - OwnedBelow(pages, owner, n)
      invariant count == |OwnedBelow(pages, owner, n)|
    {
      OwnedBelowStep(pages, owner, n);
      hide OwnedBelow;
      if n in rest && rest[n].owner == owner {
        rest := rest - {n};
        count := count + 1;
      }
    }
    assert OwnedBelow(pages, owner, bound) == OwnedBy(pages, owner);
  }

  // ---- one operation as a transition ------------------------------------------------------------

  datatype Result<T> = Ok(value: T) | FullyPinned

  datatype Cache = Cache(capacity: nat, pages: map<PageId, Page>, nextId: PageId)

  ghost predicate Valid(c: Cache) {
    c.capacity >= 1 && Keyed(c.pages, c.nextId) && |c.pages| <= c.capacity
  }

  function Full(c: Cache): bool {
    |c.pages| >= c.capacity
  }

  ghost predicate AllPinned(pages: map<PageId, Page>) {
    forall id :: id in pages ==> pages[id].inUse
  }

  ghost function VictimOf(pages: map<PageId, Page>, current: Int64): Option<PageId> {
    if exists id :: IsVictim(pages, current, id) then
      var id :| IsVictim(pages, current, id); Some(id)
    else None
  }

  function Insert(c: Cache, owner: RequestId, frame: Int64, step: Int64): Cache {
    c.(pages := c.pages[c.nextId := Page(c.nextId, owner, frame, step, true)], nextId := c.nextId + 1)
  }

  function Pinned(pages: map<PageId, Page>): set<PageId> {
    set id | id in pages && pages[id].inUse
  }

  datatype Op =
    | Allocate(owner: RequestId, frame: Int64, step: Int64, current: Int64)
    | Touch(id: PageId, step: Int64)
    | Unpin(id: PageId)
    | Release(owner: RequestId)

  /** An allocation with nothing to evict is refused. */
  ghost predicate Refused(c: Cache, op: Op) {
    op.Allocate? && Full(c) && VictimOf(c.pages, op.current) == None
  }

  /** What an allocation makes room with. */
  ghost function Chosen(c: Cache, op: Op): set<PageId> {
    if op.Allocate? && Full(c) && VictimOf(c.pages, op.current).Some? then {VictimOf(c.pages, op.current).value} else {}
  }

  ghost function Apply(c: Cache, op: Op): Cache {
    match op
    case Allocate(owner, frame, step, _) =>
      if Refused(c, op) then c else Insert(c.(pages := c.pages - Chosen(c, op)), owner, frame, step)
    case Touch(id, step) =>
      if id in c.pages then c.(pages := c.pages[id := c.pages[id].(lastUsed := step)]) else c
    case Unpin(id) =>
      if id in c.pages then c.(pages := c.pages[id := c.pages[id].(inUse := false)]) else c
    case Release(owner) => c.(pages := c.pages - OwnedBy(c.pages, owner))
  }

  // ---- lemmas about single steps ---------------------------------------------------------------------------

  lemma {:induction false} NoVictim(pages: map<PageId, Page>, current: Int64)
    requires AllPinned(pages)
    ensures VictimOf(pages, current) == None
  {
  }

  lemma {:induction false} TheVictim(c: Cache, current: Int64, id: PageId)
    requires Valid(c) && IsVictim(c.pages, current, id)
    ensures VictimOf(c.pages, current) == Some(id)
  {
  }

  /** An unpinned page means there is a victim. */
  lemma {:induction false} VictimExists(pages: map<PageId, Page>, bound: nat, current: Int64,
                                        id: PageId) returns (victim: PageId)
    requires Keyed(pages, bound) && Evictable(pages, id)
    ensures IsVictim(pages, current, victim)
    decreases |pages|
  {
    var rest := pages - {id};
    RemoveCount(pages, {id});
    if x :| Evictable(rest, x) {
      var best := VictimExists(rest, bound, current, x);
      SoonerIsTotal(pages[id], pages[best], current);
      if Sooner(pages[id], pages[best], current) {
        victim := id;
        forall y | Evictable(pages, y) && y != id
          ensures Sooner(pages[id], pages[y], current)
        {
          if y != best {
            assert Evictable(rest, y);
            SoonerChains(pages[id], pages[best], pages[y], current);
          }
        }
      } else {
        victim := best;
        assert forall y :: Evictable(pages, y) && y != id ==> Evictable(rest, y) && rest[y] == pages[y];
      }
    } else {
      victim := id;
      assert forall y :: Evictable(pages, y) && y != id ==> Evictable(rest, y);
    }
  }

  lemma {:induction false} RemoveCount(pages: map<PageId, Page>, ids: set<PageId>)
    requires ids <= pages.Keys
    ensures |pages - ids| == |pages| - |ids|
  {
  }

  lemma {:induction false} PinnedWithin(pages: map<PageId, Page>)
    ensures |Pinned(pages)| <= |pages|
  {
    RemoveCount(pages, Pinned(pages));
  }

  lemma {:induction false} InsertValid(c: Cache, owner: RequestId, frame: Int64, step: Int64)
    requires c.capacity >= 1 && Keyed(c.pages, c.nextId) && |c.pages| < c.capacity
    ensures Valid(Insert(c, owner, frame, step))
    ensures |Insert(c, owner, frame, step).pages| == |c.pages| + 1
  {
  }

  // ---- the cache object ------------------------------------------------------------------------

  class PagedLatentCache {
    const capacity: nat
    var pages: map<PageId, Page>
    var nextId: PageId

    function View(): Cache
      reads this
    {
      Cache(capacity, pages, nextId)
    }

    /** Sizes below one are refused by Open. */
    constructor (numPages: nat)
      requires numPages >= 1
      ensures Valid(View()) && View() == Cache(numPages, map[], 0)
    {
      capacity := numPages;
      pages, nextId := map[], 0;
    }

    static method Open(numPages: int) returns (cache: PagedLatentCache?)
      ensures cache == null <==> numPages < 1
      ensures cache != null ==> fresh(cache) && Valid(cache.View()) && cache.View() == Cache(numPages, map[], 0)
    {
      if numPages < 1 {
        return null;
      }
      cache := new PagedLatentCache(numPages);
    }

    /** Drops the policy's victim, if there is one. */
    method Evict(current: Int64) returns (evicted: bool)
      requires Valid(View())
      modifies this`pages
      ensures evicted <==> !AllPinned(old(pages))
      ensures evicted <==> VictimOf(old(pages), current).Some?
      ensures if evicted then pages == old(pages) - {VictimOf(old(pages), current).value} && |pages| == |old(pages)| - 1
              else pages == old(pages)
    {
      var s := Snapshot(pages, nextId);
      var best := Victim(s, current);
      assert forall id :: id in pages ==> pages[id] in s;
      if best == None {
        NoVictim(pages, current);
        return false;
      }
      var victim := best.value.id;
      assert IsVictim(pages, current, victim);
      TheVictim(View(), current, victim);
      RemoveCount(pages, {victim});
      pages := pages - {victim};
      return true;
    }

    /** Refused exactly when the cache is full and every page pinned, changing nothing; otherwise a
        full cache loses exactly the victim, and the next id, never used before, is handed out. */
    method Allocate(owner: RequestId, frame: Int64, step: Int64, current: Int64) returns (r: Result<PageId>)
      requires Valid(View())
      modifies this`pages, this`nextId
      ensures Valid(View())
      ensures View() == Apply(old(View()), Op.Allocate(owner, frame, step, current))
      ensures r == FullyPinned <==> Full(old(View())) && AllPinned(old(pages))
      ensures r == FullyPinned <==> Refused(old(View()), Op.Allocate(owner, frame, step, current))
      ensures r.Ok? ==> r.value == old(nextId)
    {
      hide VictimOf, AllPinned;
      if |pages| >= capacity {
        var evicted := Evict(current);
        if !evicted {
          return FullyPinned;
        }
      }
      InsertValid(View(), owner, frame, step);
      pages := pages[nextId := Page(nextId, owner, frame, step, true)];
      nextId := nextId + 1;
      return Ok(nextId - 1);
    }

    method Touch(id: PageId, step: Int64)
      requires Valid(View())
      modifies this`pages
      ensures Valid(View()) && View() == Apply(old(View()), Op.Touch(id, step))
    {
      if id in pages {
        assert pages.Keys + {id} == pages.Keys;
        pages := pages[id := pages[id].(lastUsed := step)];
        assert pages.Keys == old(pages.Keys);
      }
    }

    method Unpin(id: PageId)
      requires Valid(View())
      modifies this`pages
      ensures Valid(View()) && View() == Apply(old(View()), Op.Unpin(id))
    {
      if id in pages {
        pages := pages[id := pages[id].(inUse := false)];
        assert pages.Keys == old(pages.Keys);
      }
    }

    /** Frees exactly the pages of owner and reports how many. */
    method ReleaseRequest(owner: RequestId) returns (count: nat)
      requires Valid(View())
      modifies this`pages
      ensures Valid(View()) && View() == Apply(old(View()), Op.Release(owner))
      ensures count == |OwnedBy(old(pages), owner)| == |old(pages)| - |pages|
    {
      RemoveCount(pages, OwnedBy(pages, owner));
      pages, count := RemoveOwned(pages, nextId, owner);
    }

    method Stats() returns (total: nat, resident: nat, free: nat, pinned: nat)
      requires Valid(View())
      ensures total == capacity && resident == |pages| && free + resident == total
      ensures pinned == |Pinned(pages)| <= resident
    {
      PinnedWithin(pages);
      return capacity, |pages|, capacity - |pages|, |Pinned(pages)|;
    }
  }
}
