/**
 * Clients of the controller: the life of the order from the API's own
 * example, checked against the handlers' contracts alone.
 */
module Scenarios {
  import opened Values
  import Validation
  import opened Jobs
  import opened Controllers

  /** The order of the API's own example: user 1, one line of 150 Goleador at 0.1, total 15. */
  function ExampleOrder(): map<string, Value> {
    var goleador := Obj(map[
      "product_id" := Int(1), "ean" := Str("0123456789123"), "name" := Str("Goleador"),
      "qty" := Int(150), "price" := Float(0.1)]);
    map["user_id" := Int(1), "product_list" := Arr([goleador]), "total_amount" := Int(15)]
  }

  /** Creating the example order stores it under id 1 and queues one ProcessOrder; a malformed one is refused. */
  method CreateScenario()
  {
    var c := new OrderController();
    StoreAcceptsWellFormedOrder(ExampleOrder());
    var created := c.Store(ExampleOrder(), 100, NoFault);
    assert created.code == 201;
    assert |c.jobs| == 1 && c.jobs[0].name == ProcessOrder;
    var shown := c.Show(1);
    assert shown.code == 200 && shown.data.order["total_amount"] == Int(15);
    assert "status" !in shown.data.order;

    var malformed := map["user_id" := Int(1), "product_list" := Str("x"), "total_amount" := Int(15)];
    assert !Validation.IsArray(Str("x"));
    var refused := c.Store(malformed, 100, NoFault);
    assert refused.code == 400;
    assert |c.jobs| == 1 && c.nextId == 2;
  }

  /** Shipping the example order queues one OrderShipped and stores the new status. */
  method ShipScenario()
  {
    var c := new OrderController();
    StoreAcceptsWellFormedOrder(ExampleOrder());
    var created := c.Store(ExampleOrder(), 100, NoFault);
    assert 1 in c.orders && |c.jobs| == 1;
    var ship := map["status" := Str("Shipped")];
    StatusRuleExact(ship);
    UpdateSwitchAsWritten();
    var shipped := c.Update(1, ship, 200, NoFault);
    assert shipped == Reply(200, true, StatusBody("Shipped"));
    assert |c.jobs| == 2 && c.jobs[1].name == OrderShipped;
  }

  /** Cancelling the example order, as written, stores the status and queues nothing. */
  method CancelScenario()
  {
    var c := new OrderController();
    StoreAcceptsWellFormedOrder(ExampleOrder());
    var created := c.Store(ExampleOrder(), 100, NoFault);
    assert 1 in c.orders && |c.jobs| == 1;
    var cancel := map["status" := Str("Cancelled")];
    StatusRuleExact(cancel);
    UpdateSwitchAsWritten();
    var cancelled := c.Update(1, cancel, 300, NoFault);
    assert cancelled.code == 200 && |c.jobs| == 1;
  }

  /** When the queue refuses OrderShipped, the new status is already written, no job is queued and the reply is 500. */
  method ShipDispatchFailsScenario()
  {
    var c := new OrderController();
    StoreAcceptsWellFormedOrder(ExampleOrder());
    var created := c.Store(ExampleOrder(), 100, NoFault);
    var ship := map["status" := Str("Shipped")];
    StatusRuleExact(ship);
    UpdateSwitchAsWritten();
    var failed := c.Update(1, ship, 200, DispatchFails("queue down"));
    assert failed == SERVER_ERROR;
    assert c.orders[1]["status"] == Str("Shipped") && |c.jobs| == 1;
  }

  /** Shipping an order that is already shipped leaves the row clean: no write is sent, so a failing database changes nothing and OrderShipped is queued again. */
  method ShipAgainScenario()
  {
    var c := new OrderController();
    StoreAcceptsWellFormedOrder(ExampleOrder());
    var created := c.Store(ExampleOrder(), 100, NoFault);
    var ship := map["status" := Str("Shipped")];
    StatusRuleExact(ship);
    UpdateSwitchAsWritten();
    var shipped := c.Update(1, ship, 200, NoFault);
    var again := c.Update(1, ship, 300, WriteFails("database down"));
    assert again == Reply(200, true, StatusBody("Shipped"));
    assert |c.jobs| == 3 && c.jobs[2].name == OrderShipped;
  }

  /** A valid status for an id with no order, other than 0, ends in an uncaught error. */
  method MissingOrderScenario()
  {
    var c := new OrderController();
    var ship := map["status" := Str("Shipped")];
    StatusRuleExact(ship);
    var crashed := c.Update(7, ship, 400, NoFault);
    assert crashed == Uncaught(500, "Server Error");
    var intended := c.UpdateIntended(7, ship, 400, NoFault);
    assert intended == NOT_FOUND;
  }

  /** After the order is deleted, it can no longer be shown or listed. */
  method DeleteScenario()
  {
    var c := new OrderController();
    StoreAcceptsWellFormedOrder(ExampleOrder());
    var created := c.Store(ExampleOrder(), 100, NoFault);
    var deleted := c.Destroy(1, NoFault);
    assert deleted == Reply(200, true, Message("Deleted"));
    assert c.Show(1) == NOT_FOUND;
    var listed := c.GetOrdersByUser(1);
    assert listed.data.orders == [];
  }
}
