/**
 * Orders as the admin server (admin/server.js) handles them: the request
 * body of `POST /api/orders`, the row written to the `orders` table, the
 * validation and defaulting of a new order, its order number, the status
 * check of `PATCH /admin/api/orders/:id`, the counts of
 * `GET /admin/api/stats` and the page arithmetic of `GET /admin/api/orders`.
 */
module Orders {
  import opened Wrappers
  import opened Text

  /** The placeholder stored for a breed, colour or address field left blank. */
  const NotInformed: String := "Não informado"
  const NoTeam: String := "nenhum_time"
  const NoBackgrounds: String := "{}"
  const UnknownSession: String := "unknown"
  const OrderPrefix: String := "RG-PET-"

  const Pending: String := "pending"
  const Processing: String := "processing"
  const Completed: String := "completed"
  const Cancelled: String := "cancelled"

  /** The four statuses an order may have. */
  predicate IsValidStatus(s: String)
  {
    s == Pending || s == Processing || s == Completed || s == Cancelled
  }

  /** The JSON body of `POST /api/orders`; a field may be absent. */
  datatype OrderRequest = OrderRequest(
    pet_name: Option<String>, pet_gender: Option<String>, pet_breed: Option<String>,
    pet_color: Option<String>, pet_birth_date: Option<String>,
    owner_name: Option<String>, owner_contact: Option<String>,
    address_state: Option<String>, address_city: Option<String>,
    address_neighborhood: Option<String>, address_street: Option<String>,
    address_number: Option<String>, preferences_team: Option<String>,
    selected_backgrounds: Option<String>, session_id: Option<String>,
    user_agent: Option<String>)

  /** A row of the `orders` table. */
  datatype Order = Order(
    id: String, order_number: String,
    pet_name: String, pet_gender: String, pet_breed: String, pet_color: String,
    pet_birth_date: String, owner_name: String, owner_contact: String,
    address_state: String, address_city: String, address_neighborhood: String,
    address_street: String, address_number: String,
    preferences_team: String, selected_backgrounds: String,
    session_id: String, user_agent: String,
    status: String, pet_photo_url: Option<String>,
    created_at: String, updated_at: String)

  /** The error responses of the order routes. */
  datatype OrderError =
    | MissingRequiredFields   // 400 "Dados incompletos"
    | MissingStatus           // 400 "Status é obrigatório"
    | InvalidStatus           // 400 "Status inválido"
    | NotFound(id: String)    // 404 "Pedido não encontrado"
    | StoreError              // 500: the database call failed

  function HttpStatus(e: OrderError): (code: int)
    ensures code == 404 <==> e.NotFound?
    ensures code == 500 <==> e.StoreError?
  {
    match e
    case MissingRequiredFields => 400
    case MissingStatus => 400
    case InvalidStatus => 400
    case NotFound(_) => 404
    case StoreError => 500
  }

  // ---------------------------------------------------------------------------
  // POST /api/orders

  /** `!pet_name || !pet_gender || !owner_name || !owner_contact`, on the raw values. */
  predicate MissingRequired(req: OrderRequest)
  {
    !Truthy(req.pet_name) || !Truthy(req.pet_gender) || !Truthy(req.owner_name) || !Truthy(req.owner_contact)
  }

  /** `(value || 'Não informado').trim()`. */
  function InformedOrDefault(value: Option<String>): String
  {
    Trim(OrElse(value, NotInformed))
  }

  predicate IsBase36Lower(c: char)
  {
    ('0' <= c <= '9') || ('a' <= c <= 'z')
  }

  predicate IsBase36Upper(c: char)
  {
    ('0' <= c <= '9') || ('A' <= c <= 'Z')
  }

  /** `Math.random().toString(36).substr(2, 5).toUpperCase()`, given the random number's text. */
  function OrderSuffix(randomText: String): String
  {
    Upper(Substr(randomText, 2, 5))
  }

  /** `` `RG-PET-${Date.now()}-${suffix}` ``. */
  function OrderNumber(nowMs: nat, randomText: String): String
  {
    OrderPrefix + Decimal(nowMs) + "-" + OrderSuffix(randomText)
  }

  /** The row inserted for an accepted request. */
  function BuildOrder(req: OrderRequest, id: String, orderNumber: String, createdAt: String, updatedAt: String): Order
    requires !MissingRequired(req)
  {
    Order(
      id := id,
      order_number := orderNumber,
      pet_name := Trim(req.pet_name.value),
      pet_gender := req.pet_gender.value,
      pet_breed := InformedOrDefault(req.pet_breed),
      pet_color := InformedOrDefault(req.pet_color),
      pet_birth_date := OrElse(req.pet_birth_date, ""),
      owner_name := Trim(req.owner_name.value),
      owner_contact := Trim(req.owner_contact.value),
      address_state := InformedOrDefault(req.address_state),
      address_city := InformedOrDefault(req.address_city),
      address_neighborhood := InformedOrDefault(req.address_neighborhood),
      address_street := InformedOrDefault(req.address_street),
      address_number := InformedOrDefault(req.address_number),
      preferences_team := OrElse(req.preferences_team, NoTeam),
      selected_backgrounds := OrElse(req.selected_backgrounds, NoBackgrounds),
      session_id := OrElse(req.session_id, UnknownSession),
      user_agent := OrElse(req.user_agent, ""),
      status := Pending,
      pet_photo_url := None,
      created_at := createdAt,
      updated_at := updatedAt)
  }

  /**
   * The create route up to the insert: the validation error, or the row
   * to write. `id` is the key the database assigns, `nowMs` is `Date.now()`,
   * `randomText` is `Math.random().toString(36)`, `createdAt` and
   * `updatedAt` the two readings of `new Date().toISOString()`.
   */
  function NewOrder(req: OrderRequest, id: String, nowMs: nat, randomText: String, createdAt: String, updatedAt: String): (r: Result<Order, OrderError>)
    ensures r.Err? <==> MissingRequired(req)
    ensures r.Err? ==> r.error == MissingRequiredFields
    ensures r.Ok? ==> r.value.id == id && r.value.status == Pending && r.value.pet_photo_url.None?
  {
    if MissingRequired(req) then Err(MissingRequiredFields)
    else Ok(BuildOrder(req, id, OrderNumber(nowMs, randomText), createdAt, updatedAt))
  }

  /** A breed, colour or address field is stored trimmed, or as the placeholder when blank. */
  predicate Defaulted(stored: String, raw: Option<String>)
  {
    if Truthy(raw) then stored == Trim(raw.value) else stored == NotInformed
  }

  /** The placeholder has no white space at either end, so trimming keeps it. */
  lemma NotInformedTrimmed()
    ensures Trim(NotInformed) == NotInformed
  {
    assert !IsSpace(NotInformed[0]) && !IsSpace(NotInformed[|NotInformed| - 1]);
  }

  lemma DefaultedField(raw: Option<String>)
    ensures Defaulted(InformedOrDefault(raw), raw)
  {
    NotInformedTrimmed();
  }

  /** A request is accepted exactly when its four required fields are present and non-empty. */
  lemma NewOrderAcceptance(req: OrderRequest, id: String, nowMs: nat, randomText: String, createdAt: String, updatedAt: String)
    ensures var r := NewOrder(req, id, nowMs, randomText, createdAt, updatedAt);
      && (r.Err? <==> (req.pet_name.None? || req.pet_name.value == ""
                       || req.pet_gender.None? || req.pet_gender.value == ""
                       || req.owner_name.None? || req.owner_name.value == ""
                       || req.owner_contact.None? || req.owner_contact.value == ""))
      && (r.Err? ==> r.error == MissingRequiredFields)
  {
  }

  /**
   * An accepted order is pending, has no photo, carries both timestamps,
   * the assigned id and the generated order number.
   */
  lemma NewOrderState(req: OrderRequest, id: String, nowMs: nat, randomText: String, createdAt: String, updatedAt: String)
    requires NewOrder(req, id, nowMs, randomText, createdAt, updatedAt).Ok?
    ensures var o := NewOrder(req, id, nowMs, randomText, createdAt, updatedAt).value;
      && o.id == id && o.order_number == OrderNumber(nowMs, randomText)
      && o.status == Pending && IsValidStatus(o.status) && o.pet_photo_url.None?
      && o.created_at == createdAt && o.updated_at == updatedAt
  {
  }

  /** An accepted order stores its required fields trimmed, except the gender, stored as given. */
  lemma NewOrderRequired(req: OrderRequest, id: String, nowMs: nat, randomText: String, createdAt: String, updatedAt: String)
    requires NewOrder(req, id, nowMs, randomText, createdAt, updatedAt).Ok?
    ensures var o := NewOrder(req, id, nowMs, randomText, createdAt, updatedAt).value;
      && o.pet_name == Trim(req.pet_name.value) && o.pet_gender == req.pet_gender.value
      && o.owner_name == Trim(req.owner_name.value) && o.owner_contact == Trim(req.owner_contact.value)
  {
  }

  /** An accepted order stores its breed, colour and address trimmed, or as "Não informado" when blank. */
  lemma NewOrderDefaults(req: OrderRequest, id: String, nowMs: nat, randomText: String, createdAt: String, updatedAt: String)
    requires NewOrder(req, id, nowMs, randomText, createdAt, updatedAt).Ok?
    ensures var o := NewOrder(req, id, nowMs, randomText, createdAt, updatedAt).value;
      && Defaulted(o.pet_breed, req.pet_breed) && Defaulted(o.pet_color, req.pet_color)
      && Defaulted(o.address_state, req.address_state) && Defaulted(o.address_city, req.address_city)
      && Defaulted(o.address_neighborhood, req.address_neighborhood)
      && Defaulted(o.address_street, req.address_street)
      && Defaulted(o.address_number, req.address_number)
  {
    var o := NewOrder(req, id, nowMs, randomText, createdAt, updatedAt).value;
    assert o == BuildOrder(req, id, OrderNumber(nowMs, randomText), createdAt, updatedAt);
    DefaultedField(req.pet_breed);
    DefaultedField(req.pet_color);
    DefaultedField(req.address_state);
    DefaultedField(req.address_city);
    DefaultedField(req.address_neighborhood);
    DefaultedField(req.address_street);
    DefaultedField(req.address_number);
  }

  /** An accepted order stores the team, backgrounds and session id as given, or as their sentinels when blank. */
  lemma NewOrderSentinels(req: OrderRequest, id: String, nowMs: nat, randomText: String, createdAt: String, updatedAt: String)
    requires NewOrder(req, id, nowMs, randomText, createdAt, updatedAt).Ok?
    ensures var o := NewOrder(req, id, nowMs, randomText, createdAt, updatedAt).value;
      && o.preferences_team == (if Truthy(req.preferences_team) then req.preferences_team.value else NoTeam)
      && o.selected_backgrounds == (if Truthy(req.selected_backgrounds) then req.selected_backgrounds.value else NoBackgrounds)
      && o.session_id == (if Truthy(req.session_id) then req.session_id.value else UnknownSession)
  {
  }

  /** Every trimmed or defaulted field of a new order is already trimmed. */
  lemma NewOrderFieldsTrimmed(req: OrderRequest, id: String, nowMs: nat, randomText: String, createdAt: String, updatedAt: String)
    requires NewOrder(req, id, nowMs, randomText, createdAt, updatedAt).Ok?
    ensures var o := NewOrder(req, id, nowMs, randomText, createdAt, updatedAt).value;
      && Trim(o.pet_name) == o.pet_name && Trim(o.owner_name) == o.owner_name
      && Trim(o.owner_contact) == o.owner_contact && Trim(o.pet_breed) == o.pet_breed
      && Trim(o.pet_color) == o.pet_color && Trim(o.address_state) == o.address_state
      && Trim(o.address_city) == o.address_city && Trim(o.address_neighborhood) == o.address_neighborhood
      && Trim(o.address_street) == o.address_street && Trim(o.address_number) == o.address_number
  {
    var o := NewOrder(req, id, nowMs, randomText, createdAt, updatedAt).value;
    TrimIdempotent(req.pet_name.value);
    TrimIdempotent(req.owner_name.value);
    TrimIdempotent(req.owner_contact.value);
    TrimIdempotent(OrElse(req.pet_breed, NotInformed));
    TrimIdempotent(OrElse(req.pet_color, NotInformed));
    TrimIdempotent(OrElse(req.address_state, NotInformed));
    TrimIdempotent(OrElse(req.address_city, NotInformed));
    TrimIdempotent(OrElse(req.address_neighborhood, NotInformed));
    TrimIdempotent(OrElse(req.address_street, NotInformed));
    TrimIdempotent(OrElse(req.address_number, NotInformed));
  }

  /**
   * The required-field check looks at the raw values: a name made of
   * white space only is accepted, and the stored name is then empty.
   */
  lemma WhitespaceNameAccepted(req: OrderRequest, id: String, nowMs: nat, randomText: String, createdAt: String, updatedAt: String)
    requires !MissingRequired(req)
    requires AllSpace(req.pet_name.value)
    ensures NewOrder(req, id, nowMs, randomText, createdAt, updatedAt).Ok?
    ensures NewOrder(req, id, nowMs, randomText, createdAt, updatedAt).value.pet_name == ""
  {
    TrimEmptyIff(req.pet_name.value);
  }

  /** The order number is `RG-PET-`, the decimal timestamp, `-`, and at most five upper-case base-36 digits. */
  lemma OrderNumberShape(nowMs: nat, randomText: String)
    ensures StartsWith(OrderNumber(nowMs, randomText), OrderPrefix)
    ensures |OrderSuffix(randomText)| <= 5
    ensures (forall i :: 2 <= i < |randomText| ==> IsBase36Lower(randomText[i])) ==>
      forall i :: 0 <= i < |OrderSuffix(randomText)| ==> IsBase36Upper(OrderSuffix(randomText)[i])
  {
    var sub := Substr(randomText, 2, 5);
    if 2 <= |randomText| && forall i :: 2 <= i < |randomText| ==> IsBase36Lower(randomText[i]) {
      forall i | 0 <= i < |sub| ensures IsBase36Lower(sub[i]) {
        assert sub[i] == randomText[2 + i];
      }
    }
  }

  /** Reads the timestamp and the suffix back out of an order number. */
  function ParseOrderNumber(s: String): Option<(nat, String)>
  {
    if !StartsWith(s, OrderPrefix) then None
    else
      var parts := Split(s[|OrderPrefix|..], '-');
      if |parts| != 2 || parts[0] == [] || exists i :: 0 <= i < |parts[0]| && !IsDigit(parts[0][i]) then None
      else Some((DecimalValue(parts[0]), parts[1]))
  }

  /**
   * The order number keeps its timestamp and suffix recoverable: parsing it
   * gives back `Date.now()` and the suffix, for any random text whose
   * fraction digits are base-36 (as `toString(36)` produces them).
   */
  lemma OrderNumberRoundTrip(nowMs: nat, randomText: String)
    requires forall i :: 2 <= i < |randomText| ==> IsBase36Lower(randomText[i])
    ensures ParseOrderNumber(OrderNumber(nowMs, randomText)) == Some((nowMs, OrderSuffix(randomText)))
  {
    var d := Decimal(nowMs);
    var x := OrderSuffix(randomText);
    var s := OrderNumber(nowMs, randomText);
    OrderNumberShape(nowMs, randomText);
    assert s[|OrderPrefix|..] == d + ['-'] + x;
    assert '-' !in d;
    assert '-' !in x;
    SplitCons(d, x, '-');
    SplitSingle(x, '-');
    DecimalRoundTrip(nowMs);
  }

  // ---------------------------------------------------------------------------
  // PATCH /admin/api/orders/:id

  /** The status check made before the store is touched. */
  function CheckStatus(status: Option<String>): (r: Result<String, OrderError>)
    ensures r.Ok? <==> status.Some? && IsValidStatus(status.value)
    ensures r.Ok? ==> r.value == status.value
    ensures r.Err? && Truthy(status) ==> r.error == InvalidStatus
    ensures !Truthy(status) ==> r == Err(MissingStatus)
  {
    if !Truthy(status) then Err(MissingStatus)
    else if !IsValidStatus(status.value) then Err(InvalidStatus)
    else Ok(status.value)
  }

  // ---------------------------------------------------------------------------
  // GET /admin/api/stats

  datatype Stats = Stats(total: nat, pending: nat, processing: nat, completed: nat, cancelled: nat, updated_at: String)

  /** `data.filter(o => o.status === s).length`. */
  function CountStatus(statuses: seq<String>, s: String): (n: nat)
    ensures n <= |statuses|
    decreases |statuses|
  {
    if statuses == [] then 0
    else CountStatus(statuses[..|statuses| - 1], s) + (if statuses[|statuses| - 1] == s then 1 else 0)
  }

  function StatsOf(statuses: seq<String>, now: String): Stats
  {
    Stats(|statuses|, CountStatus(statuses, Pending), CountStatus(statuses, Processing),
          CountStatus(statuses, Completed), CountStatus(statuses, Cancelled), now)
  }

  function CountSum(st: Stats): nat
  {
    st.pending + st.processing + st.completed + st.cancelled
  }

  /**
   * The four per-status counts never exceed the total, nor does their sum;
   * the sum equals the total when every status is one of the four.
   */
  lemma {:induction false} StatsBounds(statuses: seq<String>, now: String)
    ensures var st := StatsOf(statuses, now);
      && st.total == |statuses|
      && st.pending <= st.total && st.processing <= st.total
      && st.completed <= st.total && st.cancelled <= st.total
      && CountSum(st) <= st.total
      && ((forall i :: 0 <= i < |statuses| ==> IsValidStatus(statuses[i])) ==> CountSum(st) == st.total)
    decreases |statuses|
  {
    if statuses != [] {
      var init := statuses[..|statuses| - 1];
      StatsBounds(init, now);
      assert forall i :: 0 <= i < |init| ==> init[i] == statuses[i];
    }
  }

  // ---------------------------------------------------------------------------
  // GET /admin/api/orders?page=&limit=

  /** `from = (page - 1) * limit`: the index of the first requested row. */
  function RangeFrom(page: int, limit: int): int
  {
    (page - 1) * limit
  }

  /** `to = from + limit - 1`: the index of the last requested row. */
  function RangeTo(page: int, limit: int): int
  {
    RangeFrom(page, limit) + limit - 1
  }

  /** `Math.ceil(total / limit)`. */
  function PageCount(total: nat, limit: int): nat
    requires limit >= 1
  {
    (total + limit - 1) / limit
  }

  /** `PageCount` is the least number of pages of `limit` rows that hold `total` rows. */
  lemma PageCountIsCeiling(total: nat, limit: int)
    requires limit >= 1
    ensures PageCount(total, limit) * limit >= total
    ensures total > 0 ==> (PageCount(total, limit) - 1) * limit < total
    ensures total == 0 <==> PageCount(total, limit) == 0
  {
    var p := PageCount(total, limit);
    var q := total + limit - 1;
    assert q == p * limit + q % limit;
  }

  /** The rows `range(from, to)` returns from rows in listing order. */
  function PageOf<T>(rows: seq<T>, page: int, limit: int): (r: seq<T>)
    requires page >= 1 && limit >= 1
    ensures |r| <= limit
    ensures forall i :: 0 <= i < |r| ==> RangeFrom(page, limit) + i < |rows| && r[i] == rows[RangeFrom(page, limit) + i]
    ensures RangeFrom(page, limit) < |rows| ==> |r| == (if RangeTo(page, limit) < |rows| then limit else |rows| - RangeFrom(page, limit))
  {
    var from := RangeFrom(page, limit);
    if from >= |rows| then [] else if from + limit <= |rows| then rows[from..from + limit] else rows[from..]
  }

  lemma ScaleMonotone(a: int, b: int, limit: int)
    requires limit >= 1 && a * limit > b * limit
    ensures a > b
  {
  }

  /** Each row lies on page `i / limit + 1`, which is one of the reported pages. */
  lemma RowOnItsPage<T>(rows: seq<T>, limit: int, i: nat)
    requires limit >= 1 && i < |rows|
    ensures var page := i / limit + 1;
      && page <= PageCount(|rows|, limit)
      && i % limit < |PageOf(rows, page, limit)|
      && PageOf(rows, page, limit)[i % limit] == rows[i]
  {
    var q, r := i / limit, i % limit;
    var page := q + 1;
    assert i == q * limit + r;
    assert RangeFrom(page, limit) == q * limit;
    var p := PageCount(|rows|, limit);
    PageCountIsCeiling(|rows|, limit);
    ScaleMonotone(p, q, limit);
    var pg := PageOf(rows, page, limit);
    assert |pg| > r;
    assert pg[r] == rows[q * limit + r];
  }
}
