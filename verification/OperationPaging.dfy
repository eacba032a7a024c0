/** Listing operations page by page while the reader itself changes them. */
module OperationPaging {
  import opened Wrappers
  import opened Operations

  type Store = map<nat, Status>

  /** The rows behind a cursor: those with the status asked for and a greater id. */
  predicate Listed(store: Store, status: Status, after: int, id: nat) {
    id in store && store[id] == status && id > after
  }

  ghost predicate Ascending(ids: seq<nat>) {
    forall i, j | 0 <= i < j < |ids| :: ids[i] < ids[j]
  }

  /** A page is the first `limit` rows behind the cursor; the next cursor is its last id, and is
      given exactly if rows remain. */
  ghost predicate IsPage(store: Store, status: Status, after: int, limit: nat, page: seq<nat>, next: Option<nat>) {
    && Ascending(page) && |page| <= limit
    && (forall id | id in page :: Listed(store, status, after, id))
    && (next.None? ==> forall id: nat | Listed(store, status, after, id) :: id in page)
    && (next.Some? ==>
          && page != [] && next.value == page[|page| - 1]
          && forall id: nat | Listed(store, status, after, id) :: id in page || id > next.value)
  }

  /** Nothing behind the cursor has changed. */
  ghost predicate Unmoved(store: Store, store': Store, status: Status, after: int) {
    forall id: nat | id > after :: Listed(store, status, after, id) <==> Listed(store', status, after, id)
  }

  function Flat(pages: seq<seq<nat>>): seq<nat> {
    if pages == [] then [] else pages[0] + Flat(pages[1..])
  }

  /** Pages fetched one after the other, each from the store as it then is. */
  ghost predicate LiveChain(stores: seq<Store>, status: Status, after: int, limit: nat, pages: seq<seq<nat>>)
    decreases |pages|
  {
    && |stores| == |pages| > 0
    && if |pages| == 1 then IsPage(stores[0], status, after, limit, pages[0], None)
       else
         && pages[0] != []
         && var next := pages[0][|pages[0]| - 1];
            && IsPage(stores[0], status, after, limit, pages[0], Some(next))
            && Unmoved(stores[0], stores[1], status, next)
            && LiveChain(stores[1..], status, next, limit, pages[1..])
  }

  /** Timing out an operation that was already handed out, or that is on the other list, moves
      nothing behind the cursor. */
  lemma TimingOutMovesNothing(store: Store, id: nat, status: Status, after: int)
    requires id in store && (id <= after || store[id] != status) && status != TimedOut
    ensures Unmoved(store, store[id := TimedOut], status, after)
  {
  }

  /** Nor do any number of such changes between two fetches. */
  lemma {:induction false} UnmovedChains(stores: seq<Store>, i: nat, j: nat, status: Status, after: int)
    requires i <= j < |stores| && forall k | i <= k < j :: Unmoved(stores[k], stores[k + 1], status, after)
    ensures Unmoved(stores[i], stores[j], status, after)
    decreases j
  {
    if i < j {
      UnmovedChains(stores, i, j - 1, status, after);
    }
  }

  /** The pages together list every operation of the first store exactly once. */
  lemma {:induction false} ChainCovers(stores: seq<Store>, status: Status, after: int, limit: nat, pages: seq<seq<nat>>)
    requires LiveChain(stores, status, after, limit, pages)
    ensures Ascending(Flat(pages))
    ensures forall id: nat :: id in Flat(pages) <==> Listed(stores[0], status, after, id)
    decreases |pages|
  {
    if |pages| == 1 {
      assert Flat(pages) == pages[0];
    } else {
      var next := pages[0][|pages[0]| - 1];
      assert next in pages[0] && next > after;
      ChainCovers(stores[1..], status, next, limit, pages[1..]);
      var rest := Flat(pages[1..]);
      assert stores[1..][0] == stores[1];
      forall id: nat ensures id in rest <==> Listed(stores[0], status, after, id) && id > next {
        assert Listed(stores[1], status, next, id) <==> id in rest;
      }
      forall k | 0 <= k < |rest| ensures rest[k] > next {
        assert rest[k] in rest;
      }
      forall id: nat ensures id in pages[0] + rest <==> Listed(stores[0], status, after, id) {
        assert id in pages[0] ==> id <= next;
      }
    }
  }
}
