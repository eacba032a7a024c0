/** The reconciler on a live store: pages are fetched, when needed, from the very rows that it is
    timing out. */
module OperationTimeouts {
  import opened Wrappers
  import opened Operations
  import opened OperationPaging

  datatype Row = Row(status: Status, deadline: Option<nat>, revision: nat) {
    predicate Due(now: nat) { status in {Pending, Running} && deadline.Some? && now >= deadline.value }

    function Expired(): Row { this.(status := TimedOut, revision := revision + 1) }
  }

  type Rows = map<nat, Row>

  datatype Copy = Copy(id: nat, row: Row)

  function Statuses(rows: Rows): Store { map id | id in rows :: rows[id].status }

  // ---------------------------------------------------------------- the repository

  class Repository {
    var rows: Rows

    constructor (rows: Rows)
      ensures this.rows == rows
    {
      this.rows := rows;
    }

    /** The first row behind the cursor. */
    method First(status: Status, after: int) returns (r: Option<nat>)
      ensures r.Some? ==> Listed(Statuses(rows), status, after, r.value)
      ensures forall id: nat | Listed(Statuses(rows), status, after, id) :: r.Some? && r.value <= id
    {
      r := None;
      var rest := rows.Keys;
      while rest != {}
        invariant rest <= rows.Keys
        invariant r.Some? ==> Listed(Statuses(rows), status, after, r.value)
        invariant forall id: nat | Listed(Statuses(rows), status, after, id) && id !in rest :: r.Some? && r.value <= id
        decreases |rest|
      {
        var id :| id in rest;
        if rows[id].status == status && id > after && (r.None? || id < r.value) {
          r := Some(id);
        }
        rest := rest - {id};
      }
    }

    /** `list`: one row more than asked for tells whether there is a next page. */
    method List(status: Status, after: int, limit: nat) returns (page: seq<nat>, next: Option<nat>)
      requires limit >= 1
      ensures IsPage(Statuses(rows), status, after, limit, page, next)
      ensures next.Some? ==> exists id: nat :: Listed(Statuses(rows), status, after, id) && id !in page
    {
      page := [];
      var last := after;
      var id: Option<nat> := First(status, last);
      while id.Some? && |page| < limit
        invariant |page| <= limit && Ascending(page) && last >= after && (page == [] ==> last == after)
        invariant page != [] ==> last == page[|page| - 1]
        invariant forall x | x in page :: Listed(Statuses(rows), status, after, x) && x <= last
        invariant forall x: nat | Listed(Statuses(rows), status, after, x) :: x in page || x > last
        invariant id.Some? ==> Listed(Statuses(rows), status, last, id.value)
        invariant forall x: nat | Listed(Statuses(rows), status, last, x) :: id.Some? && id.value <= x
        decreases limit - |page|
      {
        assert forall x: nat | Listed(Statuses(rows), status, after, x) && x > last ::
                 Listed(Statuses(rows), status, last, x);
        page, last := page + [id.value], id.value;
        id := First(status, last);
      }
      assert forall x: nat | Listed(Statuses(rows), status, after, x) && x > last ::
               Listed(Statuses(rows), status, last, x);
      assert id.Some? ==> Listed(Statuses(rows), status, after, id.value) && id.value !in page;
      next := if id.Some? then Some(page[|page| - 1]) else None;
    }

    /** `save` with its revision guard. */
    method Save(id: nat, row: Row) returns (ok: bool)
      modifies this
      ensures ok <==> id !in old(rows) || row.revision == old(rows)[id].revision + 1
      ensures rows == if ok then old(rows)[id := row] else old(rows)
    {
      ok := id !in rows || row.revision == rows[id].revision + 1;
      if ok {
        rows := rows[id := row];
      }
    }
  }

  // ---------------------------------------------------------------- one listing

  /** Exactly the rows in `expired` have been timed out since `rows0`. */
  ghost predicate Since(rows0: Rows, rows: Rows, expired: set<nat>) {
    && rows.Keys == rows0.Keys && expired <= rows0.Keys
    && forall id | id in rows0 :: rows[id] == if id in expired then rows0[id].Expired() else rows0[id]
  }

  ghost predicate Buffered(buffer: seq<Copy>, id: nat) { exists k :: 0 <= k < |buffer| && buffer[k].id == id }

  /** The buffer holds rows of the listing as they were and still are to be examined. */
  ghost predicate Holds(rows0: Rows, status: Status, after: int, more: bool, buffer: seq<Copy>, examined: set<nat>) {
    && (forall k | 0 <= k < |buffer| ::
          && buffer[k].id in rows0 && rows0[buffer[k].id] == buffer[k].row && buffer[k].row.status == status
          && buffer[k].id !in examined && (more ==> buffer[k].id <= after))
    && (forall j, k | 0 <= j < k < |buffer| :: buffer[j].id != buffer[k].id)
  }

  /** Every row that had the status at first has been examined, is buffered or lies behind the cursor. */
  ghost predicate Covers(rows0: Rows, status: Status, after: int, more: bool, buffer: seq<Copy>, examined: set<nat>) {
    && (forall id | id in examined :: id in rows0 && rows0[id].status == status && (more ==> id <= after))
    && (forall id: nat | id in rows0 && rows0[id].status == status ::
          id in examined || Buffered(buffer, id) || (more && id > after))
  }

  ghost predicate Tracks(rows0: Rows, status: Status, after: int, more: bool, buffer: seq<Copy>, examined: set<nat>) {
    Holds(rows0, status, after, more, buffer, examined) && Covers(rows0, status, after, more, buffer, examined)
  }

  /** All rows that had the status at first. */
  ghost function All(rows0: Rows, status: Status): set<nat> { set id | id in rows0 && rows0[id].status == status }

  function Copies(rows: Rows, ids: seq<nat>): seq<Copy>
    requires forall id | id in ids :: id in rows
  {
    seq(|ids|, k requires 0 <= k < |ids| => Copy(ids[k], rows[ids[k]]))
  }

  /** What has been timed out was examined before, so a fetch behind the cursor finds what was there at
      first. */
  lemma BehindCursor(rows0: Rows, rows: Rows, expired: set<nat>, status: Status, after: int, examined: set<nat>,
                     id: nat)
    requires Since(rows0, rows, expired) && status != TimedOut && id > after
    requires forall x | x in examined :: x <= after
    requires forall x | x in expired && rows0[x].status == status :: x in examined
    ensures Listed(Statuses(rows), status, after, id) <==> id in rows0 && rows0[id].status == status
    ensures Listed(Statuses(rows), status, after, id) ==> rows[id] == rows0[id]
  {
  }

  lemma FetchTracks(rows0: Rows, rows: Rows, expired: set<nat>, status: Status, after: int, examined: set<nat>,
                    limit: nat, page: seq<nat>, next: Option<nat>)
    requires Since(rows0, rows, expired) && status != TimedOut
    requires Tracks(rows0, status, after, true, [], examined)
    requires forall x | x in expired && rows0[x].status == status :: x in examined
    requires IsPage(Statuses(rows), status, after, limit, page, next)
    ensures forall id | id in page :: id in rows
    ensures Tracks(rows0, status, if next.Some? then next.value else after, next.Some?, Copies(rows, page), examined)
  {
    var buffer := Copies(rows, page);
    forall id: nat | id > after
      ensures Listed(Statuses(rows), status, after, id) <==> id in rows0 && rows0[id].status == status
      ensures Listed(Statuses(rows), status, after, id) ==> rows[id] == rows0[id]
    {
      BehindCursor(rows0, rows, expired, status, after, examined, id);
    }
    forall k | 0 <= k < |page| ensures page[k] > after && (next.Some? ==> page[k] <= next.value) {
      assert page[k] in page;
    }
    forall id | id in page ensures Buffered(buffer, id) {
      var k :| 0 <= k < |page| && page[k] == id;
      assert buffer[k].id == id;
    }
    forall id: nat | id in rows0 && rows0[id].status == status && id !in examined
      ensures Buffered(buffer, id) || (next.Some? && id > next.value)
    {
      assert Listed(Statuses(rows), status, after, id);
    }
  }

  lemma PopTracks(rows0: Rows, status: Status, after: int, more: bool, buffer: seq<Copy>, examined: set<nat>)
    requires Tracks(rows0, status, after, more, buffer, examined) && buffer != []
    ensures
      var n := |buffer| - 1;
      Tracks(rows0, status, after, more, buffer[..n], examined + {buffer[n].id})
  {
    var n := |buffer| - 1;
    forall id | Buffered(buffer, id) && id != buffer[n].id ensures Buffered(buffer[..n], id) {
      var k :| 0 <= k < |buffer| && buffer[k].id == id;
      assert buffer[..n][k].id == id;
    }
  }

  lemma AllExamined(rows0: Rows, status: Status, after: int, examined: set<nat>)
    requires Tracks(rows0, status, after, false, [], examined)
    ensures examined == All(rows0, status)
  {
  }

  class StatusCursor {
    const status: Status
    var after: int
    var more: bool
    var buffer: seq<Copy>
    ghost var examined: set<nat>

    constructor (status: Status)
      ensures this.status == status && after == -1 && more && buffer == [] && examined == {}
    {
      this.status, after, more, buffer, examined := status, -1, true, [], {};
    }

    predicate Exhausted()
      reads this
    {
      !more && buffer == []
    }

    /** How far the cursor is from the end of a listing of `total` rows. */
    ghost function Left(total: nat): int
      reads this
    {
      total - |examined| + if more then 1 else 0
    }

    ghost predicate On(rows0: Rows)
      reads this
    {
      Tracks(rows0, status, after, more, buffer, examined)
    }

    /** `next_operation`: the last row of the page at hand, or of the next page. Nothing is handed out
        only when the listing is at its end. */
    method Next(repository: Repository, limit: nat, ghost rows0: Rows, ghost expired: set<nat>)
      returns (r: Option<Copy>)
      requires limit >= 1 && status != TimedOut && On(rows0) && Since(rows0, repository.rows, expired)
      requires forall x | x in expired && rows0[x].status == status :: x in examined
      modifies this
      ensures On(rows0)
      ensures r.None? ==> Exhausted() && examined == old(examined) && examined == All(rows0, status)
      ensures r.Some? ==>
        && r.value.id in rows0 && r.value.row == rows0[r.value.id] && r.value.row.status == status
        && r.value.id !in old(examined) && examined == old(examined) + {r.value.id}
      ensures more ==> old(more)
      ensures r.None? && old(!Exhausted()) ==> old(more)
    {
      if buffer == [] {
        if !more {
          AllExamined(rows0, status, after, examined);
          return None;
        }
        Fetch(repository, limit, rows0, expired);
        if buffer == [] {
          AllExamined(rows0, status, after, examined);
          return None;
        }
      }
      PopTracks(rows0, status, after, more, buffer, examined);
      var n := |buffer| - 1;
      r := Some(buffer[n]);
      buffer, examined := buffer[..n], examined + {buffer[n].id};
    }

    method Fetch(repository: Repository, limit: nat, ghost rows0: Rows, ghost expired: set<nat>)
      requires limit >= 1 && status != TimedOut && On(rows0) && Since(rows0, repository.rows, expired)
      requires forall x | x in expired && rows0[x].status == status :: x in examined
      requires buffer == [] && more
      modifies this`after, this`more, this`buffer
      ensures On(rows0) && (more ==> buffer != [])
    {
      var page, next := repository.List(status, after, limit);
      FetchTracks(rows0, repository.rows, expired, status, after, examined, limit, page, next);
      buffer := Copies(repository.rows, page);
      more := next.Some?;
      if more {
        after := next.value;
      }
    }
  }

  // ---------------------------------------------------------------- the run

  /** Of the rows examined, on one listing or the other, exactly the due ones have been timed out. */
  ghost predicate Settled(rows0: Rows, now: nat, a: set<nat>, b: set<nat>, expired: set<nat>) {
    && expired <= a + b <= rows0.Keys
    && forall id | id in a + b :: id in expired <==> rows0[id].Due(now)
  }

  lemma SettledMore(rows0: Rows, now: nat, a: set<nat>, b: set<nat>, expired: set<nat>, id: nat)
    requires Settled(rows0, now, a, b, expired) && id in rows0 && id !in a + b
    ensures Settled(rows0, now, a + {id}, b, if rows0[id].Due(now) then expired + {id} else expired)
  {
    assert a + {id} + b == a + b + {id};
  }

  /** Two cursors stand on different listings of the first rows, and the rows are what the timeouts of
      the examined ones make of these. */
  ghost predicate Standing(repository: Repository, c: StatusCursor, d: StatusCursor, rows0: Rows, now: nat,
                           expired: set<nat>)
    reads repository, c, d
  {
    && c.status != d.status && c.status in {Pending, Running} && d.status in {Pending, Running}
    && c.On(rows0) && d.On(rows0)
    && Since(rows0, repository.rows, expired) && Settled(rows0, now, c.examined, d.examined, expired)
  }

  lemma StandingSwaps(repository: Repository, c: StatusCursor, d: StatusCursor, rows0: Rows, now: nat,
                      expired: set<nat>)
    requires Standing(repository, c, d, rows0, now, expired)
    ensures Standing(repository, d, c, rows0, now, expired)
  {
    assert d.examined + c.examined == c.examined + d.examined;
  }

  /** A row that was due is saved as timed out; its revision is still the one read. */
  method Expire(repository: Repository, copy: Copy, ghost rows0: Rows, ghost expired: set<nat>) returns (ok: bool)
    requires Since(rows0, repository.rows, expired) && copy.id in rows0 && copy.id !in expired
    requires copy.row == rows0[copy.id]
    modifies repository
    ensures ok && Since(rows0, repository.rows, expired + {copy.id})
  {
    ok := repository.Save(copy.id, copy.row.Expired());
  }

  /** What a turn of `c` leaves: one more row examined, or the end of its listing. */
  twostate predicate Turned(c: StatusCursor, scanned: nat, scanned': nat)
    reads c
  {
    && (c.more ==> old(c.more))
    && if c.examined == old(c.examined)
       then c.Exhausted() && scanned' == scanned && (old(c.Exhausted()) || old(c.more))
       else |c.examined| == |old(c.examined)| + 1 && scanned' == scanned + 1
  }

  /** One turn of the cursor `c`, the other one being `d`. */
  method Turn(repository: Repository, c: StatusCursor, d: StatusCursor, limit: nat, now: nat,
              scanned: nat, timedOut: nat, ghost rows0: Rows, ghost expired: set<nat>)
    returns (ok: bool, scanned': nat, timedOut': nat, ghost expired': set<nat>)
    requires limit >= 1 && Standing(repository, c, d, rows0, now, expired) && timedOut == |expired|
    modifies repository, c
    ensures ok && Standing(repository, c, d, rows0, now, expired')
    ensures timedOut' == |expired'| <= timedOut + 1
    ensures Turned(c, scanned, scanned')
  {
    ok, scanned', timedOut', expired' := true, scanned, timedOut, expired;
    ghost var before := c.examined;
    SettledBefore(repository, c, d, rows0, now, expired);
    var r := c.Next(repository, limit, rows0, expired);
    if r.None? {
      return;
    }
    var copy := r.value;
    scanned' := scanned + 1;
    SettledMore(rows0, now, before, d.examined, expired, copy.id);
    if copy.row.status.Terminal() || copy.row.status != c.status {
      return;
    }
    if copy.row.Due(now) {
      ok := Expire(repository, copy, rows0, expired);
      timedOut', expired' := timedOut + 1, expired + {copy.id};
    }
  }

  /** What was timed out on a cursor's listing was examined by this cursor, and nothing it examined is
      on the other listing. */
  lemma SettledBefore(repository: Repository, c: StatusCursor, d: StatusCursor, rows0: Rows, now: nat,
                      expired: set<nat>)
    requires Standing(repository, c, d, rows0, now, expired)
    ensures forall x | x in expired && rows0[x].status == c.status :: x in c.examined
    ensures forall x | x in d.examined :: x in rows0 && rows0[x].status != c.status
  {
  }

  /** A turn for each side, or for the first alone if it uses up the budget. */
  method Round(repository: Repository, p: StatusCursor, q: StatusCursor, limit: nat, budget: nat, now: nat,
               scanned: nat, timedOut: nat, ghost rows0: Rows, ghost expired: set<nat>)
    returns (ok: bool, scanned': nat, timedOut': nat, ghost expired': set<nat>)
    requires limit >= 1 && Standing(repository, p, q, rows0, now, expired) && timedOut == |expired| < budget
    requires !(p.Exhausted() && q.Exhausted())
    modifies repository, p, q
    ensures ok && Standing(repository, p, q, rows0, now, expired') && timedOut' == |expired'| <= budget
    ensures scanned' - scanned == |p.examined| + |q.examined| - old(|p.examined| + |q.examined|)
    ensures timedOut' < budget ==> p.Left(|rows0|) + q.Left(|rows0|) < old(p.Left(|rows0|) + q.Left(|rows0|))
    ensures timedOut' == budget ==> p.Left(|rows0|) + q.Left(|rows0|) <= old(p.Left(|rows0|) + q.Left(|rows0|))
  {
    ok, scanned', timedOut', expired' := Turn(repository, p, q, limit, now, scanned, timedOut, rows0, expired);
    if timedOut' < budget {
      StandingSwaps(repository, p, q, rows0, now, expired');
      ok, scanned', timedOut', expired' := Turn(repository, q, p, limit, now, scanned', timedOut', rows0, expired');
      StandingSwaps(repository, q, p, rows0, now, expired');
    }
  }

  /** Every row that was due when the run began. */
  ghost function AllDue(rows0: Rows, now: nat): set<nat> { set id | id in rows0 && rows0[id].Due(now) }

  lemma DueAmongExamined(rows0: Rows, now: nat, a: set<nat>, b: set<nat>, expired: set<nat>)
    requires Settled(rows0, now, a, b, expired)
    ensures expired <= AllDue(rows0, now)
    ensures a == All(rows0, Pending) && b == All(rows0, Running) ==> expired == AllDue(rows0, now)
  {
  }

  /** `reconcile` on the rows it changes. It ends and no save is refused. Only rows that were due when
      the run began are timed out, and no other row changes: all of them if there are no more than the
      budget allows, and as many as it allows otherwise. With budget to spare every pending and running
      row is examined exactly once. */
  method Reconcile(repository: Repository, limit: nat, budget: nat, now: nat)
    returns (ok: bool, scanned: nat, timedOut: nat, ghost expired: set<nat>)
    requires limit >= 1
    modifies repository
    ensures ok && Since(old(repository.rows), repository.rows, expired) && timedOut == |expired| <= budget
    ensures expired <= AllDue(old(repository.rows), now)
    ensures EachRow(old(repository.rows), repository.rows, now) && (timedOut < budget ==> NoneDue(repository.rows, now))
    ensures timedOut < budget ==>
      && expired == AllDue(old(repository.rows), now)
      && scanned == |All(old(repository.rows), Pending)| + |All(old(repository.rows), Running)|
  {
    ghost var rows0 := repository.rows;
    ok, scanned, timedOut, expired := true, 0, 0, {};
    var p := new StatusCursor(Pending);
    var q := new StatusCursor(Running);
    while timedOut < budget && !(p.Exhausted() && q.Exhausted())
      invariant ok && p.status == Pending && q.status == Running && fresh(p) && fresh(q)
      invariant Standing(repository, p, q, rows0, now, expired) && timedOut == |expired| <= budget
      invariant scanned == |p.examined| + |q.examined|
      decreases p.Left(|rows0|) + q.Left(|rows0|), budget - timedOut
    {
      Bounds(rows0, p, q);
      ok, scanned, timedOut, expired := Round(repository, p, q, limit, budget, now, scanned, timedOut, rows0, expired);
    }
    if timedOut < budget {
      AllExamined(rows0, Pending, p.after, p.examined);
      AllExamined(rows0, Running, q.after, q.examined);
    }
    DueAmongExamined(rows0, now, p.examined, q.examined, expired);
    SpeltOut(rows0, repository.rows, expired, now);
  }

  /** What the set of timed-out rows says about every row. */
  lemma SpeltOut(rows0: Rows, rows: Rows, expired: set<nat>, now: nat)
    requires Since(rows0, rows, expired) && expired <= AllDue(rows0, now)
    ensures EachRow(rows0, rows, now)
    ensures expired == AllDue(rows0, now) ==> NoneDue(rows, now)
  {
  }

  /** A row is as it was, or it was pending or running beyond its deadline and has timed out. */
  ghost predicate EachRow(rows0: Rows, rows: Rows, now: nat) {
    && rows.Keys == rows0.Keys
    && forall id | id in rows0 ::
         var row := rows0[id];
         || rows[id] == row
         || (&& (row.status == Pending || row.status == Running) && row.deadline.Some? && now >= row.deadline.value
             && rows[id] == Row(TimedOut, row.deadline, row.revision + 1))
  }

  /** No pending or running row is beyond its deadline. */
  ghost predicate NoneDue(rows: Rows, now: nat) {
    forall id | id in rows && (rows[id].status == Pending || rows[id].status == Running) ::
      rows[id].deadline.Some? ==> now < rows[id].deadline.value
  }

  lemma Bounds(rows0: Rows, p: StatusCursor, q: StatusCursor)
    requires p.On(rows0) && q.On(rows0)
    ensures |p.examined| <= |rows0| && |q.examined| <= |rows0|
  {
    SubsetSize(p.examined, rows0.Keys);
    SubsetSize(q.examined, rows0.Keys);
  }
}
