/**
 * The `orders` table behind the admin server (admin/server.js) and the
 * handlers that change it: create, status update, delete, the listing with
 * its lazy photo resolution (`findPetPhoto`, `savePhotoUrlToDatabase`) and
 * the statistics. The table is a map from id to row plus the ids in
 * insertion order, which stands for the `created_at` order.
 */
module OrderStore {
  import opened Wrappers
  import opened Text
  import opened Orders
  import opened Photos

  datatype Created = Created(orderId: String, orderNumber: String)
  datatype Deleted = Deleted(id: String, order_number: String)
  datatype Pagination = Pagination(page: int, limit: int, total: nat, pages: nat)
  datatype OrderPage = OrderPage(orders: seq<Order>, pagination: Pagination)

  predicate HasPhoto(o: Order)
  {
    Truthy(o.pet_photo_url)
  }

  /** `findPetPhoto(order)` as a value: the stored URL when set, otherwise the bucket lookup. */
  function ResolvePhoto(o: Order, cfg: Config, listing: Listing): (r: Option<String>)
    ensures HasPhoto(o) ==> r == o.pet_photo_url
    ensures !HasPhoto(o) && (listing.ListFailed? || o.id == "") ==> r.None?
  {
    if HasPhoto(o) then o.pet_photo_url else BucketPhoto(cfg, o.id, listing)
  }

  /** The row after `savePhotoUrlToDatabase(id, url)`. */
  function WithPhoto(o: Order, url: String, now: String): Order
  {
    o.(pet_photo_url := Some(url), updated_at := now)
  }

  /** The row `o` once its photo has been resolved and, on a bucket hit, written back. */
  function Backfill(o: Order, cfg: Config, listing: Listing, now: String): Order
  {
    if !HasPhoto(o) && BucketPhoto(cfg, o.id, listing).Some?
    then WithPhoto(o, BucketPhoto(cfg, o.id, listing).value, now)
    else o
  }

  /**
   * Once an order's photo has been resolved, the backfilled row carries it:
   * a later resolution gives the same URL from the row itself, whatever the
   * bucket then holds, and so never lists the bucket again.
   */
  lemma SecondResolutionShortCircuits(o: Order, cfg: Config, listing: Listing, later: Listing, now: String)
    requires ResolvePhoto(o, cfg, listing).Some?
    ensures var b := Backfill(o, cfg, listing, now);
      && HasPhoto(b)
      && ResolvePhoto(b, cfg, later) == ResolvePhoto(o, cfg, listing)
  {
    var hit := BucketPhoto(cfg, o.id, listing);
    if !HasPhoto(o) && hit.Some? {
      BucketPhotoSpec(cfg, o.id, listing);
      assert |hit.value| > 0;
    }
  }

  /** Only the photo URL and `updated_at` of a backfilled row change, and a set photo is kept. */
  lemma BackfillTouchesOnlyPhoto(o: Order, cfg: Config, listing: Listing, now: String)
    ensures var b := Backfill(o, cfg, listing, now);
      && b.(pet_photo_url := o.pet_photo_url, updated_at := o.updated_at) == o
      && (HasPhoto(o) ==> b == o)
  {
  }

  /** What resolving the listed row `o` writes into the table. */
  function BackfillStep(rows: map<String, Order>, o: Order, cfg: Config, listing: Listing, now: String): map<String, Order>
  {
    var hit := BucketPhoto(cfg, o.id, listing);
    if !HasPhoto(o) && hit.Some? && o.id in rows then rows[o.id := WithPhoto(rows[o.id], hit.value, now)] else rows
  }

  /** The table after resolving the listed rows one after the other. */
  function BackfillRows(rows: map<String, Order>, page: seq<Order>, cfg: Config, listing: Listing, now: String): map<String, Order>
    decreases |page|
  {
    if page == [] then rows
    else BackfillStep(BackfillRows(rows, page[..|page| - 1], cfg, listing, now), page[|page| - 1], cfg, listing, now)
  }

  /** Resolving one more row of a page is one more backfill step. */
  lemma BackfillRowsSnoc(rows: map<String, Order>, page: seq<Order>, i: nat, cfg: Config, listing: Listing, now: String)
    requires i < |page|
    ensures BackfillRows(rows, page[..i + 1], cfg, listing, now)
      == BackfillStep(BackfillRows(rows, page[..i], cfg, listing, now), page[i], cfg, listing, now)
  {
    assert page[..i + 1][..i] == page[..i];
  }

  /** Resolving one row of the table backfills that row and no other. */
  lemma BackfillStepSpec(rows: map<String, Order>, o: Order, cfg: Config, listing: Listing, now: String)
    requires o.id in rows && rows[o.id] == o
    ensures BackfillStep(rows, o, cfg, listing, now).Keys == rows.Keys
    ensures BackfillStep(rows, o, cfg, listing, now)[o.id] == Backfill(o, cfg, listing, now)
    ensures forall k :: k in rows && k != o.id ==> BackfillStep(rows, o, cfg, listing, now)[k] == rows[k]
  {
  }

  /** Resolving rows never adds or drops a key, and leaves the rows not listed as they were. */
  lemma {:induction false} BackfillRowsFrame(rows: map<String, Order>, page: seq<Order>, cfg: Config, listing: Listing, now: String)
    ensures BackfillRows(rows, page, cfg, listing, now).Keys == rows.Keys
    ensures forall k :: k in rows && k !in Ids(page) ==> BackfillRows(rows, page, cfg, listing, now)[k] == rows[k]
    decreases |page|
  {
    if page != [] {
      var init := page[..|page| - 1];
      var last := page[|page| - 1];
      BackfillRowsFrame(rows, init, cfg, listing, now);
      assert Ids(init) <= Ids(page) by {
        forall x | x in Ids(init) ensures x in Ids(page) {
          var i :| 0 <= i < |init| && init[i].id == x;
          assert page[i] == init[i];
        }
      }
      assert last.id in Ids(page);
    }
  }

  /** Resolving a page of distinct rows of the table backfills each of them as `Backfill` says. */
  lemma {:induction false} BackfillRowsPage(rows: map<String, Order>, page: seq<Order>, cfg: Config, listing: Listing, now: String)
    requires RowsOfTable(rows, page) && DistinctIds(page)
    ensures forall i :: 0 <= i < |page| ==>
      page[i].id in BackfillRows(rows, page, cfg, listing, now)
      && BackfillRows(rows, page, cfg, listing, now)[page[i].id] == Backfill(page[i], cfg, listing, now)
    decreases |page|
  {
    if page != [] {
      var init := page[..|page| - 1];
      var last := page[|page| - 1];
      assert RowsOfTable(rows, init) && DistinctIds(init) by {
        forall i | 0 <= i < |init| ensures init[i] == page[i] {
        }
      }
      BackfillRowsPage(rows, init, cfg, listing, now);
      BackfillRowsFrame(rows, init, cfg, listing, now);
      var mid := BackfillRows(rows, init, cfg, listing, now);
      assert last.id !in Ids(init) by {
        forall i | 0 <= i < |init| ensures init[i].id != last.id {
          assert init[i] == page[i];
        }
      }
      assert mid[last.id] == last;
      BackfillStepSpec(mid, last, cfg, listing, now);
      forall i | 0 <= i < |page| - 1
        ensures BackfillRows(rows, page, cfg, listing, now)[page[i].id] == Backfill(page[i], cfg, listing, now)
      {
        assert page[i] == init[i];
      }
    }
  }

  /**
   * Resolving a page of distinct rows of the table backfills exactly those
   * rows, each as `Backfill` says, and leaves every other row as it was.
   */
  lemma BackfillRowsSpec(rows: map<String, Order>, page: seq<Order>, cfg: Config, listing: Listing, now: String)
    requires RowsOfTable(rows, page) && DistinctIds(page)
    ensures BackfillRows(rows, page, cfg, listing, now).Keys == rows.Keys
    ensures forall i :: 0 <= i < |page| ==>
      BackfillRows(rows, page, cfg, listing, now)[page[i].id] == Backfill(page[i], cfg, listing, now)
    ensures forall k :: k in rows && k !in Ids(page) ==> BackfillRows(rows, page, cfg, listing, now)[k] == rows[k]
  {
    BackfillRowsFrame(rows, page, cfg, listing, now);
    BackfillRowsPage(rows, page, cfg, listing, now);
  }

  function Ids(page: seq<Order>): set<String>
  {
    set i | 0 <= i < |page| :: page[i].id
  }

  // ---------------------------------------------------------------------------
  // The table invariant and its views

  predicate Distinct(ids: seq<String>)
  {
    forall i, j :: 0 <= i < j < |ids| ==> ids[i] != ids[j]
  }

  /** Every row is keyed by its own id, listed once in `ids`, and has one of the four statuses. */
  ghost predicate TableInv(rows: map<String, Order>, ids: seq<String>)
  {
    && Distinct(ids)
    && (forall k :: k in rows ==> k in ids)
    && (forall i :: 0 <= i < |ids| ==> ids[i] in rows)
    && (forall k :: k in rows ==> rows[k].id == k && IsValidStatus(rows[k].status))
  }

  /** The rows newest first: `order('created_at', { ascending: false })`. */
  function Newest(rows: map<String, Order>, ids: seq<String>): (r: seq<Order>)
    requires forall i :: 0 <= i < |ids| ==> ids[i] in rows
    ensures |r| == |ids|
    ensures forall i :: 0 <= i < |ids| ==> r[i] == rows[ids[|ids| - 1 - i]]
    decreases |ids|
  {
    if ids == [] then [] else [rows[ids[|ids| - 1]]] + Newest(rows, ids[..|ids| - 1])
  }

  function Statuses(os: seq<Order>): (r: seq<String>)
    ensures |r| == |os| && forall i :: 0 <= i < |os| ==> r[i] == os[i].status
  {
    seq(|os|, i requires 0 <= i < |os| => os[i].status)
  }

  /** A sequence without repetitions has as many distinct elements as entries. */
  lemma {:induction false} DistinctSize(ids: seq<String>)
    requires Distinct(ids)
    ensures |set x | x in ids| == |ids|
    decreases |ids|
  {
    if ids != [] {
      var init := ids[..|ids| - 1];
      var last := ids[|ids| - 1];
      DistinctSize(init);
      assert (set x | x in ids) == (set x | x in init) + {last};
      assert last !in init;
    }
  }

  /** The table holds as many rows as ids. */
  lemma TableSize(rows: map<String, Order>, ids: seq<String>)
    requires TableInv(rows, ids)
    ensures |rows| == |ids|
  {
    DistinctSize(ids);
    assert rows.Keys == set x | x in ids;
  }

  /**
   * The statistics of the table: the total is the number of orders and the
   * four per-status counts add up to it, since every stored status is one
   * of the four.
   */
  lemma TableStats(rows: map<String, Order>, ids: seq<String>, now: String)
    requires TableInv(rows, ids)
    ensures var st := StatsOf(Statuses(Newest(rows, ids)), now);
      st.total == |rows| && CountSum(st) == st.total
  {
    TableSize(rows, ids);
    var ss := Statuses(Newest(rows, ids));
    assert forall i :: 0 <= i < |ss| ==> IsValidStatus(ss[i]);
    StatsBounds(ss, now);
  }

  /** Each of the listed rows is the table's row under its own id. */
  predicate RowsOfTable(rows: map<String, Order>, listed: seq<Order>)
  {
    forall i :: 0 <= i < |listed| ==> listed[i].id in rows && rows[listed[i].id] == listed[i]
  }

  /** No two listed rows share an id. */
  predicate DistinctIds(listed: seq<Order>)
  {
    forall i, j :: 0 <= i < j < |listed| ==> listed[i].id != listed[j].id
  }

  /** The newest-first listing holds the table's rows, each once. */
  lemma NewestRowsOfTable(rows: map<String, Order>, ids: seq<String>)
    requires TableInv(rows, ids)
    ensures RowsOfTable(rows, Newest(rows, ids)) && DistinctIds(Newest(rows, ids))
  {
    var all := Newest(rows, ids);
    forall i | 0 <= i < |all| ensures all[i].id == ids[|ids| - 1 - i] {
    }
  }

  /** A slice of a listing of table rows with distinct ids is one too. */
  lemma SliceKeepsRows(rows: map<String, Order>, all: seq<Order>, a: nat, b: nat)
    requires RowsOfTable(rows, all) && DistinctIds(all) && a <= b <= |all|
    ensures RowsOfTable(rows, all[a..b]) && DistinctIds(all[a..b])
  {
    var p := all[a..b];
    forall i, j | 0 <= i < j < |p| ensures p[i].id != p[j].id {
      assert p[i] == all[a + i] && p[j] == all[a + j];
    }
  }

  /** A page of a listing of table rows with distinct ids is one too. */
  lemma PageKeepsRows(rows: map<String, Order>, all: seq<Order>, page: int, limit: int)
    requires RowsOfTable(rows, all) && DistinctIds(all) && page >= 1 && limit >= 1
    ensures RowsOfTable(rows, PageOf(all, page, limit)) && DistinctIds(PageOf(all, page, limit))
  {
    var from := RangeFrom(page, limit);
    if from >= |all| {
      assert PageOf(all, page, limit) == [];
    } else if from + limit <= |all| {
      assert PageOf(all, page, limit) == all[from..from + limit];
      SliceKeepsRows(rows, all, from, from + limit);
    } else {
      assert PageOf(all, page, limit) == all[from..|all|];
      SliceKeepsRows(rows, all, from, |all|);
    }
  }

  /** The rows of any listed page are rows of the table, with distinct ids. */
  lemma PageRowsOfTable(rows: map<String, Order>, ids: seq<String>, page: int, limit: int)
    requires TableInv(rows, ids) && page >= 1 && limit >= 1
    ensures RowsOfTable(rows, PageOf(Newest(rows, ids), page, limit))
    ensures DistinctIds(PageOf(Newest(rows, ids), page, limit))
  {
    NewestRowsOfTable(rows, ids);
    PageKeepsRows(rows, Newest(rows, ids), page, limit);
  }

  /** Adding a row under a new id, with a valid status, keeps the invariant. */
  lemma InsertKeepsInv(rows: map<String, Order>, ids: seq<String>, o: Order)
    requires TableInv(rows, ids) && o.id !in rows && IsValidStatus(o.status)
    ensures TableInv(rows[o.id := o], ids + [o.id])
  {
    assert o.id !in ids;
  }

  /** Replacing a row by one with the same id and a valid status keeps the invariant. */
  lemma ReplaceKeepsInv(rows: map<String, Order>, ids: seq<String>, o: Order)
    requires TableInv(rows, ids) && o.id in rows && IsValidStatus(o.status)
    ensures TableInv(rows[o.id := o], ids)
  {
  }

  /** Removing a row and its id keeps the invariant. */
  lemma RemoveKeepsInv(rows: map<String, Order>, ids: seq<String>, id: String)
    requires TableInv(rows, ids)
    ensures TableInv(rows - {id}, Without(ids, id))
  {
    var r := Without(ids, id);
    forall i | 0 <= i < |r| ensures r[i] in rows - {id} {
      assert r[i] in r;
    }
  }

  /** `ids` without `id`, in the same order. */
  function Without(ids: seq<String>, id: String): (r: seq<String>)
    ensures forall x :: x in r <==> x in ids && x != id
    ensures Distinct(ids) ==> Distinct(r)
    decreases |ids|
  {
    if ids == [] then []
    else
      var rest := Without(ids[1..], id);
      assert Distinct(ids) ==> ids[0] !in ids[1..];
      if ids[0] == id then rest else [ids[0]] + rest
  }

  // ---------------------------------------------------------------------------

  class OrderTable {
    var rows: map<String, Order>
    /** The ids in insertion order, oldest first. */
    var ids: seq<String>
    /** How many times the bucket has been listed. */
    ghost var lookups: nat

    ghost predicate Valid()
      reads this
    {
      TableInv(rows, ids)
    }

    constructor ()
      ensures Valid() && rows == map[] && ids == [] && lookups == 0
    {
      rows := map[];
      ids := [];
      lookups := 0;
    }

    /** `GET /admin/api/stats`. */
    function Stats(now: String): (st: Stats)
      reads this
      requires Valid()
      ensures st.total == |rows|
      ensures CountSum(st) == st.total
    {
      TableStats(rows, ids, now);
      StatsOf(Statuses(Newest(rows, ids)), now)
    }

    /**
     * `POST /api/orders`: a request missing a required field is rejected,
     * an insert under a taken key fails in the store, and otherwise exactly
     * the new row is added.
     */
    method Create(req: OrderRequest, newId: String, nowMs: nat, randomText: String, createdAt: String, updatedAt: String)
      returns (res: Result<Created, OrderError>)
      requires Valid()
      modifies this
      ensures Valid() && lookups == old(lookups)
      ensures res.Err? ==> unchanged(this)
      ensures MissingRequired(req) ==> res == Err(MissingRequiredFields)
      ensures !MissingRequired(req) && newId in old(rows) ==> res == Err(StoreError)
      ensures !MissingRequired(req) && newId !in old(rows) ==>
        var o := NewOrder(req, newId, nowMs, randomText, createdAt, updatedAt).value;
        && res == Ok(Created(newId, o.order_number))
        && rows == old(rows)[newId := o]
        && ids == old(ids) + [newId]
    {
      var r := NewOrder(req, newId, nowMs, randomText, createdAt, updatedAt);
      if r.Err? {
        return Err(r.error);
      }
      if newId in rows {
        return Err(StoreError);
      }
      NewOrderState(req, newId, nowMs, randomText, createdAt, updatedAt);
      InsertKeepsInv(rows, ids, r.value);
      rows := rows[newId := r.value];
      ids := ids + [newId];
      res := Ok(Created(newId, r.value.order_number));
    }

    /**
     * `PATCH /admin/api/orders/:id`: the status is checked before the store
     * is touched, an unknown id is not found, and otherwise only the status
     * and `updated_at` of that row change.
     */
    method UpdateStatus(id: String, status: Option<String>, now: String) returns (res: Result<Order, OrderError>)
      requires Valid()
      modifies this
      ensures Valid() && lookups == old(lookups) && ids == old(ids)
      ensures CheckStatus(status).Err? ==> res == Err(CheckStatus(status).error) && unchanged(this)
      ensures CheckStatus(status).Ok? && id !in old(rows) ==> res == Err(NotFound(id)) && unchanged(this)
      ensures CheckStatus(status).Ok? && id in old(rows) ==>
        && res == Ok(old(rows)[id].(status := status.value, updated_at := now))
        && rows == old(rows)[id := res.value]
    {
      var checked := CheckStatus(status);
      if checked.Err? {
        return Err(checked.error);
      }
      if id !in rows {
        return Err(NotFound(id));
      }
      var updated := rows[id].(status := checked.value, updated_at := now);
      ReplaceKeepsInv(rows, ids, updated);
      rows := rows[id := updated];
      res := Ok(updated);
    }

    /**
     * `DELETE /admin/api/orders/:id`: an unknown id is not found and nothing
     * is removed; otherwise exactly that row goes and its order number is
     * reported.
     */
    method Delete(id: String) returns (res: Result<Deleted, OrderError>)
      requires Valid()
      modifies this
      ensures Valid() && lookups == old(lookups)
      ensures id !in old(rows) ==> res == Err(NotFound(id)) && unchanged(this)
      ensures id in old(rows) ==>
        && res == Ok(Deleted(id, old(rows)[id].order_number))
        && rows == old(rows) - {id}
        && ids == Without(old(ids), id)
    {
      if id !in rows {
        return Err(NotFound(id));
      }
      var orderNumber := rows[id].order_number;
      RemoveKeepsInv(rows, ids, id);
      rows := rows - {id};
      ids := Without(ids, id);
      res := Ok(Deleted(id, orderNumber));
    }

    /** `savePhotoUrlToDatabase(id, url)`: overwrites the photo URL and `updated_at` of that row, if it exists. */
    method SavePhotoUrl(id: String, url: String, now: String)
      requires Valid()
      modifies this
      ensures Valid() && ids == old(ids) && lookups == old(lookups)
      ensures rows == if id in old(rows) then old(rows)[id := WithPhoto(old(rows)[id], url, now)] else old(rows)
    {
      if id in rows {
        ReplaceKeepsInv(rows, ids, WithPhoto(rows[id], url, now));
        rows := rows[id := WithPhoto(rows[id], url, now)];
      }
    }

    /**
     * `findPetPhoto(order)`: a stored URL is returned without listing the
     * bucket; otherwise the bucket is listed once and a hit is written back
     * onto that order's row only.
     */
    method FindPetPhoto(order: Order, cfg: Config, listing: Listing, now: String) returns (url: Option<String>)
      requires Valid()
      modifies this
      ensures Valid() && ids == old(ids)
      ensures url == ResolvePhoto(order, cfg, listing)
      ensures rows == BackfillStep(old(rows), order, cfg, listing, now)
      ensures HasPhoto(order) ==> unchanged(this)
      ensures !HasPhoto(order) ==> lookups == old(lookups) + 1
    {
      if HasPhoto(order) {
        return order.pet_photo_url;
      }
      lookups := lookups + 1;
      var bucketPhoto := BucketPhoto(cfg, order.id, listing);
      if bucketPhoto.Some? {
        SavePhotoUrl(order.id, bucketPhoto.value, now);
        return bucketPhoto;
      }
      return None;
    }

    /**
     * The photo pass of the listing: each listed order gets its resolved
     * photo, in listing order, and bucket hits are written back.
     */
    method ResolvePage(snapshot: seq<Order>, cfg: Config, listing: Listing, now: String) returns (out: seq<Order>)
      requires Valid()
      modifies this
      ensures Valid() && ids == old(ids)
      ensures |out| == |snapshot|
      ensures forall j :: 0 <= j < |snapshot| ==>
        out[j] == snapshot[j].(pet_photo_url := ResolvePhoto(snapshot[j], cfg, listing))
      ensures rows == BackfillRows(old(rows), snapshot, cfg, listing, now)
    {
      out := [];
      var i := 0;
      while i < |snapshot|
        invariant 0 <= i <= |snapshot|
        invariant Valid() && ids == old(ids)
        invariant |out| == i
        invariant forall j :: 0 <= j < i ==>
          out[j] == snapshot[j].(pet_photo_url := ResolvePhoto(snapshot[j], cfg, listing))
        invariant rows == BackfillRows(old(rows), snapshot[..i], cfg, listing, now)
      {
        var url := FindPetPhoto(snapshot[i], cfg, listing, now);
        out := out + [snapshot[i].(pet_photo_url := url)];
        BackfillRowsSnoc(old(rows), snapshot, i, cfg, listing, now);
        i := i + 1;
      }
      assert snapshot[..|snapshot|] == snapshot;
    }

    /**
     * `GET /admin/api/orders?page=&limit=`: the rows `from..to` of the
     * newest-first listing, each with its resolved photo, the total number
     * of orders and the page count; resolving writes bucket hits back.
     */
    method ListOrders(page: int, limit: int, cfg: Config, listing: Listing, now: String)
      returns (res: Result<OrderPage, OrderError>)
      requires Valid()
      modifies this
      ensures Valid() && ids == old(ids)
      ensures page < 1 || limit < 1 ==> res == Err(StoreError) && unchanged(this)
      ensures page >= 1 && limit >= 1 ==>
        var snapshot := PageOf(Newest(old(rows), old(ids)), page, limit);
        && res.Ok?
        && |res.value.orders| == |snapshot| <= limit
        && (forall i :: 0 <= i < |snapshot| ==>
              res.value.orders[i] == snapshot[i].(pet_photo_url := ResolvePhoto(snapshot[i], cfg, listing)))
        && res.value.pagination == Pagination(page, limit, |old(rows)|, PageCount(|old(rows)|, limit))
        && rows == BackfillRows(old(rows), snapshot, cfg, listing, now)
    {
      if page < 1 || limit < 1 {
        return Err(StoreError);
      }
      TableSize(rows, ids);
      var total := |ids|;
      var snapshot := PageOf(Newest(rows, ids), page, limit);
      var out := ResolvePage(snapshot, cfg, listing, now);
      res := Ok(OrderPage(out, Pagination(page, limit, total, PageCount(total, limit))));
    }
  }

  /**
   * A listing changes only the listed orders that had no photo and whose
   * photo the bucket holds: those get the photo URL and `updated_at`, and a
   * photo URL once stored is never cleared.
   */
  lemma ListingBackfillSpec(rows: map<String, Order>, ids: seq<String>, page: int, limit: int, cfg: Config, listing: Listing, now: String)
    requires TableInv(rows, ids) && page >= 1 && limit >= 1
    ensures var snapshot := PageOf(Newest(rows, ids), page, limit);
      var after := BackfillRows(rows, snapshot, cfg, listing, now);
      && after.Keys == rows.Keys
      && (forall k :: k in rows ==> after[k] == Backfill(rows[k], cfg, listing, now) || after[k] == rows[k])
      && (forall k :: k in rows && k !in Ids(snapshot) ==> after[k] == rows[k])
      && (forall k :: k in rows && HasPhoto(rows[k]) ==> after[k] == rows[k])
  {
    var snapshot := PageOf(Newest(rows, ids), page, limit);
    PageRowsOfTable(rows, ids, page, limit);
    BackfillRowsSpec(rows, snapshot, cfg, listing, now);
    var after := BackfillRows(rows, snapshot, cfg, listing, now);
    forall k | k in rows
      ensures after[k] == Backfill(rows[k], cfg, listing, now) || after[k] == rows[k]
      ensures HasPhoto(rows[k]) ==> after[k] == rows[k]
    {
      if k in Ids(snapshot) {
        var i :| 0 <= i < |snapshot| && snapshot[i].id == k;
        assert after[k] == Backfill(snapshot[i], cfg, listing, now);
      }
    }
  }
}
