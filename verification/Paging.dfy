/** Listing bookings page by page. */
module Paging {
  import opened Domain
  import opened Listing
  import opened Rules
  import opened Sessions
  import B = BookingSpec

  /** The WHERE clause of the list query. */
  predicate Selects(b: Booking, user: User, filter: Option<Status>) {
    && (match user.role
        case Customer => b.customer == user.id
        case Provider => b.provider == user.id
        case Admin => true)
    && (filter.Some? ==> b.status == filter.value)
  }

  /** ORDER BY start_time, id. */
  predicate Before(a: Booking, b: Booking) {
    a.start < b.start || (a.start == b.start && a.id < b.id)
  }

  function SelectedIds(bookings: map<Id, Booking>, user: User, filter: Option<Status>): set<Id> {
    set i | i in bookings && Selects(bookings[i], user, filter)
  }

  ghost predicate Ascending(rows: seq<Booking>) {
    forall m, n :: 0 <= m < n < |rows| ==> Before(rows[m], rows[n])
  }

  ghost predicate Shows(rows: seq<Booking>, i: Id) {
    exists n :: 0 <= n < |rows| && rows[n].id == i
  }

  /** `rows` are the bookings with ids in `ids`, in the order of the query. */
  ghost predicate Ordered(rows: seq<Booking>, bookings: map<Id, Booking>, ids: set<Id>) {
    && Ascending(rows)
    && (forall n :: 0 <= n < |rows| ==> rows[n].id in bookings && bookings[rows[n].id] == rows[n] && rows[n].id in ids)
    && (forall i :: i in ids ==> Shows(rows, i))
  }

  // ---------- There is one such list ----------

  lemma TailOrdered(rows: seq<Booking>, bookings: map<Id, Booking>, ids: set<Id>)
    requires Ordered(rows, bookings, ids) && rows != []
    ensures Ordered(rows[1..], bookings, ids - {rows[0].id})
  {
    forall i | i in ids - {rows[0].id}
      ensures Shows(rows[1..], i)
    {
      assert Shows(rows, i);
      var n :| 0 <= n < |rows| && rows[n].id == i;
      assert rows[1..][n - 1].id == i;
    }
    forall n | 0 <= n < |rows[1..]|
      ensures rows[1..][n].id in ids - {rows[0].id}
    {
      assert Before(rows[0], rows[n + 1]);
    }
  }

  lemma EmptyTogether(a: seq<Booking>, b: seq<Booking>, bookings: map<Id, Booking>, ids: set<Id>)
    requires Ordered(a, bookings, ids) && Ordered(b, bookings, ids)
    ensures a == [] <==> b == []
  {
    if a != [] {
      assert Shows(b, a[0].id);
    }
    if b != [] {
      assert Shows(a, b[0].id);
    }
  }

  lemma {:induction false} OrderIsUnique(a: seq<Booking>, b: seq<Booking>, bookings: map<Id, Booking>, ids: set<Id>)
    requires Ordered(a, bookings, ids) && Ordered(b, bookings, ids)
    ensures a == b
  {
    EmptyTogether(a, b, bookings, ids);
    if a != [] {
      SameHead(a, b, bookings, ids);
      TailOrdered(a, bookings, ids);
      TailOrdered(b, bookings, ids);
      OrderIsUnique(a[1..], b[1..], bookings, ids - {a[0].id});
      assert a == [a[0]] + a[1..] && b == [b[0]] + b[1..];
    }
  }

  lemma SameHead(a: seq<Booking>, b: seq<Booking>, bookings: map<Id, Booking>, ids: set<Id>)
    requires Ordered(a, bookings, ids) && Ordered(b, bookings, ids) && a != [] && b != []
    ensures a[0] == b[0]
  {
    assert Shows(b, a[0].id) && Shows(a, b[0].id);
    var m :| 0 <= m < |b| && b[m].id == a[0].id;
    var n :| 0 <= n < |a| && a[n].id == b[0].id;
    assert b[m] == a[0] && a[n] == b[0];
    HeadFirst(a, n);
    HeadFirst(b, m);
  }

  lemma HeadFirst(rows: seq<Booking>, n: nat)
    requires Ascending(rows) && n < |rows|
    ensures n == 0 || Before(rows[0], rows[n])
  {
  }

  // ---------- Sorting ----------

  function Insert(rows: seq<Booking>, b: Booking): seq<Booking> {
    if rows == [] || Before(b, rows[0]) then [b] + rows else [rows[0]] + Insert(rows[1..], b)
  }

  ghost predicate Has(rows: seq<Booking>, x: Booking) {
    exists n :: 0 <= n < |rows| && rows[n] == x
  }

  lemma HasCons(head: Booking, tail: seq<Booking>, x: Booking)
    ensures Has([head] + tail, x) <==> x == head || Has(tail, x)
  {
    var whole := [head] + tail;
    if x == head {
      assert whole[0] == x;
    }
    if Has(tail, x) {
      var n :| 0 <= n < |tail| && tail[n] == x;
      assert whole[n + 1] == x;
    }
    if Has(whole, x) && x != head {
      var n :| 0 <= n < |whole| && whole[n] == x;
      assert tail[n - 1] == x;
    }
  }

  lemma {:induction false} InsertMembers(rows: seq<Booking>, b: Booking, x: Booking)
    ensures Has(Insert(rows, b), x) <==> x == b || Has(rows, x)
  {
    if rows == [] || Before(b, rows[0]) {
      HasCons(b, rows, x);
    } else {
      InsertMembers(rows[1..], b, x);
      HasCons(rows[0], Insert(rows[1..], b), x);
      HasCons(rows[0], rows[1..], x);
      assert rows == [rows[0]] + rows[1..];
    }
  }

  lemma {:induction false} InsertAscending(rows: seq<Booking>, b: Booking)
    requires Ascending(rows)
    requires forall n :: 0 <= n < |rows| ==> rows[n].id != b.id
    ensures Ascending(Insert(rows, b))
  {
    if rows != [] && !Before(b, rows[0]) {
      InsertAscending(rows[1..], b);
      var rest := Insert(rows[1..], b);
      forall n | 0 <= n < |rest|
        ensures Before(rows[0], rest[n])
      {
        InsertMembers(rows[1..], b, rest[n]);
        assert Has(rest, rest[n]);
        if rest[n] != b {
          var m :| 0 <= m < |rows[1..]| && rows[1..][m] == rest[n];
          assert Before(rows[0], rows[m + 1]);
        }
      }
    }
  }

  lemma InsertOrdered(rows: seq<Booking>, bookings: map<Id, Booking>, ids: set<Id>, i: Id)
    requires Ordered(rows, bookings, ids) && i in bookings && bookings[i].id == i && i !in ids
    ensures Ordered(Insert(rows, bookings[i]), bookings, ids + {i})
  {
    var after := Insert(rows, bookings[i]);
    InsertAscending(rows, bookings[i]);
    forall n | 0 <= n < |after|
      ensures after[n].id in bookings && bookings[after[n].id] == after[n] && after[n].id in ids + {i}
    {
      InsertMembers(rows, bookings[i], after[n]);
      assert Has(after, after[n]);
    }
    forall j | j in ids + {i}
      ensures Shows(after, j)
    {
      InsertMembers(rows, bookings[i], bookings[i]);
      if j != i {
        assert Shows(rows, j);
        var n :| 0 <= n < |rows| && rows[n].id == j;
        InsertMembers(rows, bookings[i], rows[n]);
        assert Has(rows, rows[n]);
        assert Has(after, rows[n]);
      }
    }
  }

  /** The rows of the query, before OFFSET and LIMIT. */
  method Sorted(bookings: map<Id, Booking>, ids: set<Id>) returns (rows: seq<Booking>)
    requires ids <= bookings.Keys
    requires forall i :: i in bookings ==> bookings[i].id == i
    ensures Ordered(rows, bookings, ids)
  {
    rows := [];
    var order := List(ids);
    ghost var taken: set<Id> := {};
    for n := 0 to |order|
      invariant forall i :: i in taken <==> exists m :: 0 <= m < n && order[m] == i
      invariant Ordered(rows, bookings, taken)
    {
      InsertOrdered(rows, bookings, taken, order[n]);
      rows, taken := Insert(rows, bookings[order[n]]), taken + {order[n]};
    }
    forall i
      ensures i in taken <==> i in ids
    {
      if i in ids {
        var m :| 0 <= m < |order| && order[m] == i;
      }
    }
    SameMembers(taken, ids);
  }

  // ---------- Pages ----------

  function Page(rows: seq<Booking>, skip: nat, limit: nat): seq<Booking> {
    var from := if skip < |rows| then skip else |rows|;
    var upTo := if skip + limit < |rows| then skip + limit else |rows|;
    rows[from..upTo]
  }

  method ListBookings(db: Session, user: User, filter: Option<Status>, skip: nat, limit: nat)
    returns (r: Result<seq<Booking>>, ghost all: seq<Booking>)
    requires BookingTables(db.tx)
    modifies db`budget
    ensures Ordered(all, db.tx.bookings, SelectedIds(db.tx.bookings, user, filter))
    ensures r == if old(db.budget) == 0 then Failure(Unavailable) else Success(Page(all, skip, limit))
  {
    var rows := Sorted(db.tx.bookings, SelectedIds(db.tx.bookings, user, filter));
    all := rows;
    var answered := db.RoundTrip();
    if answered.Failure? {
      return Failure(Unavailable), all;
    }
    return Success(Page(rows, skip, limit)), all;
  }

  /** The pages at `skip`, `skip` + `limit`, and so on, one after the other. */
  function PagesFrom(rows: seq<Booking>, skip: nat, limit: nat): seq<Booking>
    requires limit >= 1
    decreases |rows| - skip
  {
    if skip >= |rows| then [] else Page(rows, skip, limit) + PagesFrom(rows, skip + limit, limit)
  }

  lemma {:induction false} PagesJoin(rows: seq<Booking>, skip: nat, limit: nat)
    requires limit >= 1 && skip <= |rows|
    ensures PagesFrom(rows, skip, limit) == rows[skip..]
    decreases |rows| - skip
  {
    if skip + limit <= |rows| && skip < |rows| {
      PagesJoin(rows, skip + limit, limit);
    }
  }

  /** A page is the window of at most `limit` rows that starts at `skip`. */
  lemma PageIsWindow(rows: seq<Booking>, skip: nat, limit: nat)
    ensures var page := Page(rows, skip, limit);
            && |page| == (if skip >= |rows| then 0 else if |rows| - skip < limit then |rows| - skip else limit)
            && forall k :: 0 <= k < |page| ==> page[k] == rows[skip + k]
  {
  }

  /** On one state, for every caller and status filter and every page size: the pages joined together
      are the one list in (start, id) order whose bookings are exactly those with the status that
      the caller may open one by one, each appearing once. */
  lemma PagesShowExactlyTheVisible(s: Store, user: User, filter: Option<Status>, limit: nat, all: seq<Booking>)
    requires BookingTables(s) && limit >= 1
    requires Ordered(all, s.bookings, SelectedIds(s.bookings, user, filter))
    ensures PagesFrom(all, 0, limit) == all
    ensures forall m, n :: 0 <= m < n < |all| ==> all[m].id != all[n].id
    ensures forall m, n :: 0 <= m < n < |all| ==>
                             all[m].start < all[n].start || (all[m].start == all[n].start && all[m].id < all[n].id)
    ensures forall i :: Shows(all, i) <==>
                          B.GetById(s, i, user).Success? && (filter.Some? ==> s.bookings[i].status == filter.value)
    ensures forall rows :: Ordered(rows, s.bookings, SelectedIds(s.bookings, user, filter)) ==> rows == all
  {
    PagesJoin(all, 0, limit);
    forall m, n | 0 <= m < n < |all|
      ensures all[m].id != all[n].id
      ensures all[m].start < all[n].start || (all[m].start == all[n].start && all[m].id < all[n].id)
    {
      assert Before(all[m], all[n]);
    }
    forall i
      ensures Shows(all, i) <==>
                B.GetById(s, i, user).Success? && (filter.Some? ==> s.bookings[i].status == filter.value)
    {
      if Shows(all, i) {
        var n :| 0 <= n < |all| && all[n].id == i;
        assert i in SelectedIds(s.bookings, user, filter);
      }
    }
    forall rows | Ordered(rows, s.bookings, SelectedIds(s.bookings, user, filter))
      ensures rows == all
    {
      OrderIsUnique(rows, all, s.bookings, SelectedIds(s.bookings, user, filter));
    }
  }
}
