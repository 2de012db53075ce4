/**
 * The order controller: the HTTP handlers store, show, update, destroy and
 * getOrdersByUser over the orders table and the job queue. The table is a map
 * from id to row, the auto-increment key a counter, and the queue the
 * sequence of jobs dispatched so far. The clock and the failures of the
 * database and of the queue are parameters.
 */
module Controllers {
  import opened Values
  import opened Validation
  import opened Models
  import opened Jobs

  /** The statuses update() accepts. */
  const STATUSES: set<string> := {"Processing", "Shipped", "Completed", "Cancelled"}

  /** The columns of the orders table. */
  const COLUMNS: set<string> :=
    {"id", "user_id", "order_date", "product_list", "status", "total_amount", "created_at", "updated_at"}

  /** What a handler puts under `data` in its JSON reply. */
  datatype Body =
    | OrderBody(order: Attributes)
    | OrderList(orders: seq<Attributes>)
    | StatusBody(status: string)
    | Message(text: string)
    | Errors(fields: set<string>)

  /**
   * A reply: either the handler's own `{status, data}` JSON with an HTTP code,
   * or the reply the framework's exception handler renders (outside debug
   * mode) for an error nothing caught.
   */
  datatype Response =
    | Reply(code: int, status: bool, data: Body)
    | Uncaught(code: int, message: string)

  const NOT_FOUND: Response := Reply(404, false, Message("Order not found"))

  /**
   * How the outside world fails while a handler runs: not at all, when the
   * handler's write to the table throws (the database refuses the insert,
   * update or delete), or when a dispatch throws (the queue refuses the job)
   * after the write. The message is the exception's.
   */
  datatype Fault = NoFault | WriteFails(message: string) | DispatchFails(message: string)

  /** What the framework's exception handler renders, outside debug mode, for an error no handler catches. */
  const SERVER_ERROR: Response := Uncaught(500, "Server Error")

  // ---------------------------------------------------------------------
  // Validation of the two request bodies

  /** The fields that break store()'s rules: user_id required, product_list required|array, total_amount required|numeric. */
  function StoreErrors(request: Attributes): (failed: set<string>)
    ensures failed <= {"user_id", "product_list", "total_amount"}
  {
    var userId := Input(request, "user_id");
    var products := Input(request, "product_list");
    var total := Input(request, "total_amount");
    (if Required(userId) then {} else {"user_id"}) +
    (if Required(products) && IsArray(products) then {} else {"product_list"}) +
    (if Required(total) && IsNumeric(total) then {} else {"total_amount"})
  }

  /** The fields that break update()'s rule: status required|in:Processing,Shipped,Completed,Cancelled. */
  function StatusErrors(request: Attributes): (failed: set<string>)
    ensures failed <= {"status"}
  {
    var status := Input(request, "status");
    if Required(status) && InList(status, STATUSES) then {} else {"status"}
  }

  /** The status string of an update request (meaningful once the request has passed validation). */
  function RequestedStatus(request: Attributes): string {
    match Input(request, "status")
    case Str(s) => s
    case _ => ""
  }

  /** A field store() requires, when missing from the request, is reported as failing. */
  lemma MissingStoreFieldRejected(request: Attributes, field: string)
    requires field in {"user_id", "product_list", "total_amount"}
    requires field !in request
    ensures field in StoreErrors(request)
  {
  }

  /**
   * A request store() accepts has a user id, a product list that is a PHP
   * array with at least one element, and a total that is a number or a
   * string holding a digit.
   */
  lemma StoreAcceptsOnlyCompleteOrders(request: Attributes)
    requires StoreErrors(request) == {}
    ensures Input(request, "user_id") != Null
    ensures Input(request, "product_list").Arr? ==> |Input(request, "product_list").items| > 0
    ensures Input(request, "product_list").Obj? ==> |Input(request, "product_list").fields| > 0
    ensures Input(request, "product_list").Arr? || Input(request, "product_list").Obj?
    ensures Input(request, "total_amount").Str? ==>
      exists k :: 0 <= k < |Input(request, "total_amount").s| && IsDigit(Input(request, "total_amount").s[k])
    ensures Input(request, "total_amount").Int? || Input(request, "total_amount").Float? || Input(request, "total_amount").Str?
  {
  }

  /** A request with an integer user id, a non-empty list of products and a number or digit string as total passes store()'s rules. */
  lemma StoreAcceptsWellFormedOrder(request: Attributes)
    requires Input(request, "user_id").Int?
    requires Input(request, "product_list").Arr? && |Input(request, "product_list").items| > 0
    requires Input(request, "total_amount").Int? || Input(request, "total_amount").Float? ||
             (Input(request, "total_amount").Str? && |Input(request, "total_amount").s| > 0 &&
              forall k :: 0 <= k < |Input(request, "total_amount").s| ==> IsDigit(Input(request, "total_amount").s[k]))
    ensures StoreErrors(request) == {}
  {
    var total := Input(request, "total_amount");
    assert Required(Input(request, "user_id"));
    assert Required(Input(request, "product_list")) && IsArray(Input(request, "product_list"));
    if total.Str? {
      DigitsAreNumeric(total.s);
      assert !Blank(total.s) by {
        assert IsDigit(total.s[0]);
      }
    }
    assert Required(total) && IsNumeric(total);
  }

  /** update()'s rule passes exactly for a string that names one of the four statuses. */
  lemma StatusRuleExact(request: Attributes)
    ensures StatusErrors(request) == {} <==> Input(request, "status") == Str(RequestedStatus(request)) && RequestedStatus(request) in STATUSES
    ensures StatusErrors(request) != {} ==> StatusErrors(request) == {"status"}
  {
    var status := Input(request, "status");
    if status.Str? && status.s in STATUSES {
      assert status.s[0] in {'P', 'S', 'C'};
      assert !Blank(status.s);
    }
    if status.Int? {
      DecimalStringHead(status.i);
      var d := DecimalString(status.i);
      assert d !in STATUSES by {
        assert d[0] != 'P' && d[0] != 'S' && d[0] != 'C';
      }
    }
  }

  // ---------------------------------------------------------------------
  // Rows

  /** The attributes store() hands to Order::create: the request's fields, the product list JSON-encoded, and the time of the order. */
  function CreateAttributes(request: Attributes, now: int): (attrs: Attributes)
    ensures attrs.Keys == {"user_id", "order_date", "product_list", "total_amount"}
    ensures Fillable(attrs) == attrs
  {
    map[
      "user_id" := Input(request, "user_id"),
      "order_date" := Stamp(now),
      "product_list" := JsonText(Input(request, "product_list")),
      "total_amount" := Input(request, "total_amount")
    ]
  }

  /**
   * The row Order::create writes under the new id: the fillable attributes,
   * both timestamps set to now, and the id. The status is not set.
   */
  function CreatedRow(id: int, request: Attributes, now: int): (row: Attributes)
    ensures row.Keys == {"id", "user_id", "order_date", "product_list", "total_amount", "created_at", "updated_at"}
    ensures row["id"] == Int(id)
    ensures row["user_id"] == Input(request, "user_id")
    ensures row["product_list"] == JsonText(Input(request, "product_list"))
    ensures row["total_amount"] == Input(request, "total_amount")
    ensures row["order_date"] == Stamp(now)
    ensures row["created_at"] == Stamp(now) && row["updated_at"] == Stamp(now)
    ensures "status" !in row
  {
    Fill(map[], CreateAttributes(request, now))["created_at" := Stamp(now)]["updated_at" := Stamp(now)]["id" := Int(id)]
  }

  /**
   * The row after `$item->update(['status' => s])`: the status is filled in
   * and, when that changed the row, updated_at is set to now.
   */
  function StatusUpdated(row: Attributes, s: string, now: int): (updated: Attributes)
    ensures "status" in updated && updated["status"] == Str(s)
    ensures forall k :: k != "status" && k != "updated_at" ==>
      (k in updated <==> k in row) && (k in row ==> updated[k] == row[k])
    ensures ToArray(updated) == ToArray(row)["status" := Str(s)]
    ensures updated == row <==> "status" in row && row["status"] == Str(s)
  {
    StatusIsMassAssignable(row, Str(s));
    var filled := Fill(row, map["status" := Str(s)]);
    ToArraySetVisible(row, "status", Str(s));
    ToArrayIgnoresHidden(filled, "updated_at", Stamp(now));
    if filled == row then row else filled["updated_at" := Stamp(now)]
  }

  /** A stored row: its id column holds its key, it has only the table's columns, and a status it has is one of the four. */
  ghost predicate WellFormedRow(id: int, row: Attributes) {
    && "id" in row && row["id"] == Int(id)
    && row.Keys <= COLUMNS
    && ("status" in row ==> row["status"].Str? && row["status"].s in STATUSES)
  }

  // ---------------------------------------------------------------------
  // The status switch of update()

  /** The cases of a switch on a string, in the order they are written: a label and the job its branch dispatches. */
  type SwitchCases = seq<(string, JobName)>

  /** The switch of update() as written: the third case repeats the label "Shipped". */
  const UPDATE_CASES: SwitchCases :=
    [("Shipped", OrderShipped), ("Completed", OrderCompleted), ("Shipped", OrderCancelled)]

  /** The switch of update() as its third branch intends it: "Cancelled" dispatches OrderCancelled. */
  const INTENDED_CASES: SwitchCases :=
    [("Shipped", OrderShipped), ("Completed", OrderCompleted), ("Cancelled", OrderCancelled)]

  /** The job a switch runs for `subject`: PHP tries the cases in order and runs the first whose label matches. */
  function Select(cases: SwitchCases, subject: string): (job: Option<JobName>)
    ensures job.Some? ==> exists i :: 0 <= i < |cases| && cases[i] == (subject, job.value)
  {
    if cases == [] then None
    else if cases[0].0 == subject then Some(cases[0].1)
    else Select(cases[1..], subject)
  }

  /** Case m is the first case labelled `subject`. */
  ghost predicate FirstMatch(cases: SwitchCases, subject: string, m: int) {
    && 0 <= m < |cases|
    && cases[m].0 == subject
    && forall i :: 0 <= i < m ==> cases[i].0 != subject
  }

  /** A switch runs the branch of the first case whose label matches, and none when no label does. */
  lemma {:induction false} SelectIsFirstMatch(cases: SwitchCases, subject: string)
    ensures Select(cases, subject).None? <==> forall i :: 0 <= i < |cases| ==> cases[i].0 != subject
    ensures Select(cases, subject).Some? ==>
      exists m :: FirstMatch(cases, subject, m) && Select(cases, subject).value == cases[m].1
  {
    if cases != [] && cases[0].0 != subject {
      SelectIsFirstMatch(cases[1..], subject);
      if Select(cases[1..], subject).Some? {
        var m :| FirstMatch(cases[1..], subject, m) && Select(cases[1..], subject).value == cases[1..][m].1;
        assert FirstMatch(cases, subject, m + 1);
      } else {
        forall i | 0 <= i < |cases|
          ensures cases[i].0 != subject
        {
          if i > 0 {
            assert cases[i] == cases[1..][i - 1];
          }
        }
      }
    } else if cases != [] {
      assert FirstMatch(cases, subject, 0);
    }
  }

  /** A case whose label an earlier case already carries never runs. */
  lemma ShadowedCaseNeverRuns(cases: SwitchCases, subject: string, earlier: int, later: int)
    requires 0 <= earlier < later < |cases|
    requires cases[earlier].0 == cases[later].0
    requires forall i :: 0 <= i < |cases| && i != later ==> cases[i].1 != cases[later].1
    ensures Select(cases, subject) != Some(cases[later].1)
  {
    SelectIsFirstMatch(cases, subject);
  }

  /** As written, update() never dispatches OrderCancelled, whatever the status. */
  lemma CancelledNeverDispatched(subject: string)
    ensures Select(UPDATE_CASES, subject) != Some(OrderCancelled)
  {
    ShadowedCaseNeverRuns(UPDATE_CASES, subject, 0, 2);
  }

  /** As written: Shipped dispatches OrderShipped, Completed OrderCompleted, and Processing and Cancelled nothing. */
  lemma UpdateSwitchAsWritten()
    ensures Select(UPDATE_CASES, "Shipped") == Some(OrderShipped)
    ensures Select(UPDATE_CASES, "Completed") == Some(OrderCompleted)
    ensures Select(UPDATE_CASES, "Processing") == None
    ensures Select(UPDATE_CASES, "Cancelled") == None
  {
  }

  /**
   * As intended: every status has one reachable outcome, Cancelled dispatches
   * OrderCancelled, Processing dispatches nothing, and no two statuses share a job.
   */
  lemma IntendedSwitchDispatchesCancelled(subject: string, other: string)
    ensures Select(INTENDED_CASES, "Shipped") == Some(OrderShipped)
    ensures Select(INTENDED_CASES, "Completed") == Some(OrderCompleted)
    ensures Select(INTENDED_CASES, "Cancelled") == Some(OrderCancelled)
    ensures Select(INTENDED_CASES, "Processing") == None
    ensures Select(INTENDED_CASES, subject).Some? && Select(INTENDED_CASES, subject) == Select(INTENDED_CASES, other)
      ==> subject == other
  {
    SelectIsFirstMatch(INTENDED_CASES, subject);
    SelectIsFirstMatch(INTENDED_CASES, other);
  }

  /** The jobs a switch outcome adds to the queue: one job carrying the payload, or none. */
  function Dispatched(job: Option<JobName>, payload: Attributes): seq<Job> {
    match job
    case None => []
    case Some(name) => [Job(name, payload)]
  }

  // ---------------------------------------------------------------------
  // Listing by user

  /** The row was stored for `user`: the query `where('user_id', $user)` selects it. */
  predicate BelongsTo(row: Attributes, user: int) {
    "user_id" in row && row["user_id"] == Int(user)
  }

  /** The id a serialised row carries (0 for a row without one). */
  function IdOf(row: Attributes): int {
    if "id" in row && row["id"].Int? then row["id"].i else 0
  }

  /** The serialised rows stored for `user` under ids below `bound`, in increasing id order. */
  function UserOrders(table: map<int, Attributes>, user: int, bound: nat): seq<Attributes>
    decreases bound
  {
    if bound == 0 then []
    else
      var id := bound - 1;
      UserOrders(table, user, id) + (if id in table && BelongsTo(table[id], user) then [ToArray(table[id])] else [])
  }

  /** Every row listed is the serialised form of a row of the user, stored under an id below the bound. */
  lemma {:induction false} UserOrdersSound(table: map<int, Attributes>, user: int, bound: nat)
    requires forall id :: id in table ==> WellFormedRow(id, table[id])
    ensures forall i :: 0 <= i < |UserOrders(table, user, bound)| ==>
      var id := IdOf(UserOrders(table, user, bound)[i]);
      && 0 <= id < bound && id in table && BelongsTo(table[id], user)
      && UserOrders(table, user, bound)[i] == ToArray(table[id])
  {
    if bound > 0 {
      var id := bound - 1;
      UserOrdersSound(table, user, id);
      var before := UserOrders(table, user, id);
      var rows := UserOrders(table, user, bound);
      forall i | 0 <= i < |rows|
        ensures var k := IdOf(rows[i]); 0 <= k < bound && k in table && BelongsTo(table[k], user) && rows[i] == ToArray(table[k])
      {
        if i < |before| {
          assert rows[i] == before[i];
        } else {
          assert rows[i] == ToArray(table[id]);
          assert IdOf(ToArray(table[id])) == id;
        }
      }
    }
  }

  /** Every row of the user stored under an id below the bound is listed. */
  lemma {:induction false} UserOrdersComplete(table: map<int, Attributes>, user: int, bound: nat)
    ensures forall id :: 0 <= id < bound && id in table && BelongsTo(table[id], user) ==>
      ToArray(table[id]) in UserOrders(table, user, bound)
  {
    if bound > 0 {
      UserOrdersComplete(table, user, bound - 1);
    }
  }

  /** The rows are listed in increasing id order, so none is listed twice. */
  lemma {:induction false} UserOrdersIncreasing(table: map<int, Attributes>, user: int, bound: nat)
    requires forall id :: id in table ==> WellFormedRow(id, table[id])
    ensures forall i, j :: 0 <= i < j < |UserOrders(table, user, bound)| ==>
      IdOf(UserOrders(table, user, bound)[i]) < IdOf(UserOrders(table, user, bound)[j])
  {
    if bound > 0 {
      var id := bound - 1;
      UserOrdersIncreasing(table, user, id);
      UserOrdersSound(table, user, id);
      var before := UserOrders(table, user, id);
      var rows := UserOrders(table, user, bound);
      if id in table && BelongsTo(table[id], user) {
        assert rows == before + [ToArray(table[id])];
        assert IdOf(ToArray(table[id])) == id;
        forall i, j | 0 <= i < j < |rows|
          ensures IdOf(rows[i]) < IdOf(rows[j])
        {
          assert rows[i] == before[i];
          if j < |before| {
            assert rows[j] == before[j];
          }
        }
      } else {
        assert rows == before;
      }
    }
  }

  // ---------------------------------------------------------------------
  // The controller over the table and the queue

  class OrderController {
    /** The orders table, by id. */
    var orders: map<int, Attributes>
    /** The id the next insert receives: ids are never reused. */
    var nextId: nat
    /** Every job dispatched so far, oldest first. */
    var jobs: seq<Job>

    ghost predicate Valid()
      reads this
    {
      && nextId >= 1
      && forall id :: id in orders ==> 1 <= id < nextId && WellFormedRow(id, orders[id])
    }

    /** An empty table and an empty queue. */
    constructor ()
      ensures Valid()
      ensures orders == map[] && nextId == 1 && jobs == []
    {
      orders := map[];
      nextId := 1;
      jobs := [];
    }

    /**
     * POST /order. Invalid input: 400 naming the failing fields, nothing
     * written. Otherwise the row is inserted under the next id and
     * ProcessOrder is dispatched with its serialised form: 201 with that
     * form. Both steps sit in one try: a failing insert gives 500 with the
     * exception's message and writes nothing; a failing dispatch gives the
     * same 500 after the row was written.
     */
    method Store(request: Attributes, now: int, fault: Fault) returns (r: Response)
      requires Valid()
      modifies this
      ensures Valid()
      ensures StoreErrors(request) != {} ==>
        && r == Reply(400, false, Errors(StoreErrors(request)))
        && orders == old(orders) && nextId == old(nextId) && jobs == old(jobs)
      ensures StoreErrors(request) == {} && fault.WriteFails? ==>
        && r == Reply(500, false, Message(fault.message))
        && orders == old(orders) && nextId == old(nextId) && jobs == old(jobs)
      ensures StoreErrors(request) == {} && !fault.WriteFails? ==>
        && old(nextId) !in old(orders)
        && orders == old(orders)[old(nextId) := CreatedRow(old(nextId), request, now)]
        && nextId == old(nextId) + 1
      ensures StoreErrors(request) == {} && fault.DispatchFails? ==>
        r == Reply(500, false, Message(fault.message)) && jobs == old(jobs)
      ensures StoreErrors(request) == {} && fault.NoFault? ==>
        var created := ToArray(CreatedRow(old(nextId), request, now));
        && r == Reply(201, true, OrderBody(created))
        && jobs == old(jobs) + [Job(ProcessOrder, created)]
      ensures r.code == 201 ==> Show(old(nextId)) == Reply(200, true, r.data)
    {
      var failed := StoreErrors(request);
      if failed != {} {
        return Reply(400, false, Errors(failed));
      }
      if fault.WriteFails? {
        return Reply(500, false, Message(fault.message));
      }
      var id := nextId;
      var row := CreatedRow(id, request, now);
      orders := orders[id := row];
      nextId := nextId + 1;
      if fault.DispatchFails? {
        return Reply(500, false, Message(fault.message));
      }
      jobs := jobs + [Job(ProcessOrder, ToArray(row))];
      r := Reply(201, true, OrderBody(ToArray(row)));
    }

    /** GET /order/{id}: 200 with the stored order, its timestamps left out, or 404. */
    function Show(id: int): (r: Response)
      reads this
      ensures r.code == 200 <==> id in orders
      ensures id !in orders ==> r == NOT_FOUND
      ensures id in orders ==>
        && r.Reply? && r.status && r.data.OrderBody?
        && r.data.order.Keys == orders[id].Keys - {"created_at", "updated_at"}
        && forall k :: k in r.data.order ==> r.data.order[k] == orders[id][k]
    {
      if id in orders then Reply(200, true, OrderBody(ToArray(orders[id]))) else NOT_FOUND
    }

    /**
     * PUT /order/{id}, as written. The not-found guard tests the route id, so
     * only id 0 gives 404, before validation. An invalid status gives 400. A
     * valid status for an id with no row calls update() on null: the error
     * is uncaught and the framework answers 500. Otherwise the status is
     * written and the switch as written picks the job, which carries the
     * updated order; the reply carries the new status only. Nothing catches
     * a failing write (500, nothing changed) or a failing dispatch (500 after
     * the status was written, no job). A status equal to the stored one leaves
     * the row clean, so no write is sent and none can fail.
     */
    method Update(id: int, request: Attributes, now: int, fault: Fault) returns (r: Response)
      requires Valid()
      modifies this
      ensures Valid() && nextId == old(nextId)
      ensures r.code == 404 <==> id == 0
      ensures id == 0 ==> r == NOT_FOUND && orders == old(orders) && jobs == old(jobs)
      ensures id != 0 && StatusErrors(request) != {} ==>
        && r == Reply(400, false, Errors({"status"}))
        && orders == old(orders) && jobs == old(jobs)
      ensures id != 0 && StatusErrors(request) == {} && id !in old(orders) ==>
        r == SERVER_ERROR && orders == old(orders) && jobs == old(jobs)
      ensures id != 0 && StatusErrors(request) == {} && id in old(orders) && fault.WriteFails? &&
              StatusUpdated(old(orders)[id], RequestedStatus(request), now) != old(orders)[id] ==>
        r == SERVER_ERROR && orders == old(orders) && jobs == old(jobs)
      ensures id != 0 && StatusErrors(request) == {} && id in old(orders) &&
              (!fault.WriteFails? || StatusUpdated(old(orders)[id], RequestedStatus(request), now) == old(orders)[id]) ==>
        var s := RequestedStatus(request);
        var row := StatusUpdated(old(orders)[id], s, now);
        var job := Select(UPDATE_CASES, s);
        && orders == old(orders)[id := row]
        && (if fault.DispatchFails? && job.Some? then r == SERVER_ERROR && jobs == old(jobs)
            else r == Reply(200, true, StatusBody(s)) && jobs == old(jobs) + Dispatched(job, ToArray(row)))
      ensures |old(jobs)| <= |jobs| <= |old(jobs)| + 1 && jobs[..|old(jobs)|] == old(jobs)
      ensures forall i :: |old(jobs)| <= i < |jobs| ==> jobs[i].name != OrderCancelled
    {
      if id == 0 {
        return NOT_FOUND;
      }
      var failed := StatusErrors(request);
      if failed != {} {
        StatusRuleExact(request);
        return Reply(400, false, Errors(failed));
      }
      if id !in orders {
        return SERVER_ERROR;
      }
      StatusRuleExact(request);
      var s := RequestedStatus(request);
      var row := StatusUpdated(orders[id], s, now);
      if fault.WriteFails? && row != orders[id] {
        return SERVER_ERROR;
      }
      orders := orders[id := row];
      var job := Select(UPDATE_CASES, s);
      if fault.DispatchFails? && job.Some? {
        return SERVER_ERROR;
      }
      CancelledNeverDispatched(s);
      jobs := jobs + Dispatched(job, ToArray(row));
      r := Reply(200, true, StatusBody(s));
    }

    /**
     * PUT /order/{id}, as its guard and its third case intend: the not-found
     * guard tests the looked-up row, so an absent id gives 404 before
     * validation, and Cancelled dispatches OrderCancelled. Failing writes and
     * dispatches end as in Update.
     */
    method UpdateIntended(id: int, request: Attributes, now: int, fault: Fault) returns (r: Response)
      requires Valid()
      modifies this
      ensures Valid() && nextId == old(nextId)
      ensures r.code == 404 <==> id !in old(orders)
      ensures id !in old(orders) ==> r == NOT_FOUND && orders == old(orders) && jobs == old(jobs)
      ensures id in old(orders) && StatusErrors(request) != {} ==>
        && r == Reply(400, false, Errors({"status"}))
        && orders == old(orders) && jobs == old(jobs)
      ensures id in old(orders) && StatusErrors(request) == {} && fault.WriteFails? &&
              StatusUpdated(old(orders)[id], RequestedStatus(request), now) != old(orders)[id] ==>
        r == SERVER_ERROR && orders == old(orders) && jobs == old(jobs)
      ensures id in old(orders) && StatusErrors(request) == {} &&
              (!fault.WriteFails? || StatusUpdated(old(orders)[id], RequestedStatus(request), now) == old(orders)[id]) ==>
        var s := RequestedStatus(request);
        var row := StatusUpdated(old(orders)[id], s, now);
        var job := Select(INTENDED_CASES, s);
        && orders == old(orders)[id := row]
        && (if fault.DispatchFails? && job.Some? then r == SERVER_ERROR && jobs == old(jobs)
            else r == Reply(200, true, StatusBody(s)) && jobs == old(jobs) + Dispatched(job, ToArray(row)))
      ensures id in old(orders) && RequestedStatus(request) == "Cancelled" && StatusErrors(request) == {} && fault.NoFault? ==>
        jobs == old(jobs) + [Job(OrderCancelled, ToArray(orders[id]))]
    {
      if id !in orders {
        return NOT_FOUND;
      }
      var failed := StatusErrors(request);
      if failed != {} {
        StatusRuleExact(request);
        return Reply(400, false, Errors(failed));
      }
      StatusRuleExact(request);
      var s := RequestedStatus(request);
      var row := StatusUpdated(orders[id], s, now);
      if fault.WriteFails? && row != orders[id] {
        return SERVER_ERROR;
      }
      orders := orders[id := row];
      var job := Select(INTENDED_CASES, s);
      if fault.DispatchFails? && job.Some? {
        return SERVER_ERROR;
      }
      IntendedSwitchDispatchesCancelled(s, s);
      jobs := jobs + Dispatched(job, ToArray(row));
      r := Reply(200, true, StatusBody(s));
    }

    /**
     * DELETE /order/{id}: a stored order is removed for good (200 "Deleted"),
     * an absent id gives 404; no job either way. Nothing catches a failing
     * delete: 500 with the order still stored.
     */
    method Destroy(id: int, fault: Fault) returns (r: Response)
      requires Valid()
      modifies this
      ensures Valid() && nextId == old(nextId) && jobs == old(jobs)
      ensures id in old(orders) && fault.WriteFails? ==> r == SERVER_ERROR && orders == old(orders)
      ensures id in old(orders) && !fault.WriteFails? ==> r == Reply(200, true, Message("Deleted")) && orders == old(orders) - {id}
      ensures id !in old(orders) ==> r == NOT_FOUND && orders == old(orders)
      ensures r.Reply? ==> Show(id) == NOT_FOUND
    {
      if id !in orders {
        return NOT_FOUND;
      }
      if fault.WriteFails? {
        return SERVER_ERROR;
      }
      orders := orders - {id};
      r := Reply(200, true, Message("Deleted"));
    }

    /**
     * GET /order/user/{user}: always 200, with the serialised form of every
     * stored order of the user and of no other, each once, in increasing id
     * order; an empty list for a user with no orders.
     */
    function GetOrdersByUser(user: int): (r: Response)
      requires Valid()
      reads this
      ensures r.Reply? && r.code == 200 && r.status && r.data.OrderList?
      ensures forall row :: row in r.data.orders <==>
        exists id :: id in orders && BelongsTo(orders[id], user) && row == ToArray(orders[id])
      ensures forall i, j :: 0 <= i < j < |r.data.orders| ==> IdOf(r.data.orders[i]) < IdOf(r.data.orders[j])
      ensures (forall id :: id in orders ==> !BelongsTo(orders[id], user)) ==> r.data.orders == []
    {
      UserOrdersSound(orders, user, nextId);
      UserOrdersComplete(orders, user, nextId);
      UserOrdersIncreasing(orders, user, nextId);
      var rows := UserOrders(orders, user, nextId);
      assert forall row :: row in rows ==>
        exists id :: id in orders && BelongsTo(orders[id], user) && row == ToArray(orders[id]) by {
        forall row | row in rows
          ensures exists id :: id in orders && BelongsTo(orders[id], user) && row == ToArray(orders[id])
        {
          var i :| 0 <= i < |rows| && rows[i] == row;
          assert IdOf(rows[i]) in orders;
        }
      }
      assert |rows| > 0 ==> rows[0] in rows;
      Reply(200, true, OrderList(rows))
    }
  }
}
