// The per-role action rules: creating an order from a client's request, assigning
// executors, the driver's and the courier's cell and cancel rules, and the trip
// start and arrival sequences. Every database call is external: reads are given
// as their answers, and state-changing calls are issued to a `Backend` that
// records them and answers with the error text a call raises, if any.

module FsmActions {
  import opened Common
  import DbLayer
  import FsmEngine

  // ---------------------------------------------------------------------------
  // Creating an order from a request
  // ---------------------------------------------------------------------------

  /** A row of the order requests a client submits. */
  datatype OrderRequest = OrderRequest(
    status: string, clientUserId: Option<int>, parcelType: string, cellSize: string,
    senderDelivery: string, recipientDelivery: string)

  /** The arguments of `create_order_record`. */
  datatype NewOrder = NewOrder(
    description: string, pickupType: string, deliveryType: string,
    clientUserId: int, sourceCellId: int, destCellId: int)

  /** What `find_and_reserve_cells_by_size` answers: `(ok, src_id, dst_id)`. */
  datatype Reservation = Reserved(srcId: int, dstId: int) | NoFreeCells

  /** The database calls `create_order_from_request` makes, as the answers they give;
      `Err(text)` is an exception carrying `text`. */
  datatype OrderCreationDb = OrderCreationDb(
    getOrderRequest: int -> Result<Option<OrderRequest>, string>,
    findAndReserveCells: (int, int, string) -> Result<Reservation, string>,
    createOrderRecord: NewOrder -> Result<int, string>,
    assignOrderToTripSmart: (int, string, string) -> Result<(), string>)

  /** `(ok, order_id, code)`. */
  datatype CreationReply = CreationReply(ok: bool, orderId: Option<int>, code: string)

  const SOURCE_LOCKER := 1
  const DEST_LOCKER := 2

  /** How a parcel leaves or reaches a locker: the client's own choice "self", or a courier. */
  function DeliveryKind(choice: string): (kind: string)
    ensures kind == "self" || kind == "courier"
    ensures kind == "self" <==> choice == "self"
  {
    if choice == "self" then "self" else "courier"
  }

  /** The order record built from a validated request and its reserved cells. */
  function NewOrderFor(req: OrderRequest, clientUserId: int, srcId: int, dstId: int): (o: NewOrder)
    ensures o.description == req.parcelType + " (" + req.cellSize + ")"
    ensures o.pickupType == DeliveryKind(req.senderDelivery) && o.deliveryType == DeliveryKind(req.recipientDelivery)
    ensures o.clientUserId == clientUserId && o.sourceCellId == srcId && o.destCellId == dstId
  {
    NewOrder(req.parcelType + " (" + req.cellSize + ")", DeliveryKind(req.senderDelivery),
             DeliveryKind(req.recipientDelivery), clientUserId, srcId, dstId)
  }

  /** `OrderCreationActions.create_order_from_request`: the validation ladder, the cell
      reservation between the two fixed lockers, the order record, and a best-effort trip binding. */
  function CreateOrderFromRequest(db: OrderCreationDb, requestId: int): (r: Result<CreationReply, string>)
    ensures db.getOrderRequest(requestId).Err? ==> r == Err(db.getOrderRequest(requestId).error)
    ensures db.getOrderRequest(requestId) == Ok(None) ==>
              r == Ok(CreationReply(false, None, "ORDER_REQUEST_NOT_FOUND"))
    ensures db.getOrderRequest(requestId).Ok? && db.getOrderRequest(requestId).value.Some? ==>
              var req := db.getOrderRequest(requestId).value.value;
              && (req.status != "PENDING" ==> r == Ok(CreationReply(false, None, "INVALID_REQUEST_STATE")))
              && (req.status == "PENDING" && (req.clientUserId.None? || req.clientUserId.value == 0) ==>
                    r == Ok(CreationReply(false, None, "INVALID_REQUEST_DATA")))
              && (req.status == "PENDING" && req.clientUserId.Some? && req.clientUserId.value != 0 ==>
                    var reservation := db.findAndReserveCells(SOURCE_LOCKER, DEST_LOCKER, req.cellSize);
                    && (reservation.Err? ==> r == Err(reservation.error))
                    && (reservation == Ok(NoFreeCells) ==> r == Ok(CreationReply(false, None, "NO_FREE_CELLS")))
                    && (reservation.Ok? && reservation.value.Reserved? ==>
                          var created := db.createOrderRecord(NewOrderFor(req, req.clientUserId.value,
                                                                          reservation.value.srcId, reservation.value.dstId));
                          r == if created.Err? then Err(created.error)
                               else Ok(CreationReply(true, Some(created.value), ""))))
  {
    match db.getOrderRequest(requestId)
    case Err(e) => Err(e)
    case Ok(None) => Ok(CreationReply(false, None, "ORDER_REQUEST_NOT_FOUND"))
    case Ok(Some(req)) =>
      if req.status != "PENDING" then Ok(CreationReply(false, None, "INVALID_REQUEST_STATE"))
      else if req.clientUserId.None? || req.clientUserId.value == 0 then Ok(CreationReply(false, None, "INVALID_REQUEST_DATA"))
      else
        match db.findAndReserveCells(SOURCE_LOCKER, DEST_LOCKER, req.cellSize)
        case Err(e) => Err(e)
        case Ok(NoFreeCells) => Ok(CreationReply(false, None, "NO_FREE_CELLS"))
        case Ok(Reserved(srcId, dstId)) =>
          match db.createOrderRecord(NewOrderFor(req, req.clientUserId.value, srcId, dstId))
          case Err(e) => Err(e)
          case Ok(orderId) =>
            // the trip binding's failure is only logged
            var _ := db.assignOrderToTripSmart(orderId, "LOCAL", "LOCAL");
            Ok(CreationReply(true, Some(orderId), ""))
  }

  /** A successful reply carries the new order's id and an empty code; a refusal carries no id
      and one of the four fixed codes. */
  lemma CreationReplyShape(db: OrderCreationDb, requestId: int)
    ensures var r := CreateOrderFromRequest(db, requestId);
            r.Ok? ==>
              && (r.value.ok <==> r.value.orderId.Some?)
              && (r.value.ok ==> r.value.code == "")
              && (!r.value.ok ==> r.value.code in {"ORDER_REQUEST_NOT_FOUND", "INVALID_REQUEST_STATE",
                                                   "INVALID_REQUEST_DATA", "NO_FREE_CELLS"})
  {
  }

  /** No order record is made without reserved cells: two databases that differ only in
      `create_order_record` give the same answer when the reservation fails. */
  lemma NoCellsNoOrderRecord(a: OrderCreationDb, b: OrderCreationDb, requestId: int)
    requires a.getOrderRequest == b.getOrderRequest && a.findAndReserveCells == b.findAndReserveCells
    requires a.assignOrderToTripSmart == b.assignOrderToTripSmart
    requires a.getOrderRequest(requestId).Ok? && a.getOrderRequest(requestId).value.Some?
    requires a.findAndReserveCells(SOURCE_LOCKER, DEST_LOCKER, a.getOrderRequest(requestId).value.value.cellSize) == Ok(NoFreeCells)
    ensures CreateOrderFromRequest(a, requestId) == CreateOrderFromRequest(b, requestId)
  {
  }

  /** The trip binding never changes the answer: two databases that differ only in
      `assign_order_to_trip_smart` give the same answer. */
  lemma TripBindingDoesNotMatter(a: OrderCreationDb, b: OrderCreationDb, requestId: int)
    requires a.getOrderRequest == b.getOrderRequest && a.findAndReserveCells == b.findAndReserveCells
    requires a.createOrderRecord == b.createOrderRecord
    ensures CreateOrderFromRequest(a, requestId) == CreateOrderFromRequest(b, requestId)
  {
  }

  /** The answer as the engine's order-creation step sees it. */
  function EngineAnswer(r: Result<CreationReply, string>): (answer: FsmEngine.OrderCreation)
    ensures r.Err? ==> answer == FsmEngine.OrderCreationRaised(r.error)
    ensures r.Ok? && r.value.ok ==> answer == FsmEngine.OrderCreated(r.value.orderId)
    ensures r.Ok? && !r.value.ok ==> answer == FsmEngine.OrderNotCreated(Some(r.value.code))
  {
    match r
    case Err(e) => FsmEngine.OrderCreationRaised(e)
    case Ok(reply) =>
      if reply.ok then FsmEngine.OrderCreated(reply.orderId) else FsmEngine.OrderNotCreated(Some(reply.code))
  }

  /** Wired into the engine, a request that does not exist fails its process instance with
      ORDER_REQUEST_NOT_FOUND once its cells were found. */
  lemma MissingRequestFailsItsInstance(db: OrderCreationDb, actions: FsmEngine.OrderCreationActions,
                                       instance: FsmEngine.Instance)
    requires actions.findCells(instance.entityId).CellsFound?
    requires forall src: int, dst: int :: actions.createOrder(instance.entityId, src, dst)
                                           == EngineAnswer(CreateOrderFromRequest(db, instance.entityId))
    requires db.getOrderRequest(instance.entityId) == Ok(None)
    ensures FsmEngine.HandleOrderCreationWaiting(actions, instance)
            == FsmEngine.Stepped(FsmEngine.StepResult(FsmEngine.FAILED, Some("ORDER_REQUEST_NOT_FOUND"), None, 1))
  {
    var cells := actions.findCells(instance.entityId);
    assert actions.createOrder(instance.entityId, cells.srcId, cells.dstId)
           == FsmEngine.OrderNotCreated(Some("ORDER_REQUEST_NOT_FOUND"));
  }

  // ---------------------------------------------------------------------------
  // Pure per-role rules
  // ---------------------------------------------------------------------------

  /** `CourierActions._get_leg_and_cell_id`: which leg a courier works on, and its cell. */
  function LegAndCell(order: DbLayer.Order): (r: Result<(string, Option<int>), DbLayer.DbError>)
    ensures order.status in {"order_courier1_assigned", "order_courier_has_parcel"} ==>
              r == Ok(("pickup", order.sourceCellId))
    ensures order.status in {"order_courier2_assigned", "order_courier2_has_parcel"} ==>
              r == Ok(("delivery", order.destCellId))
    ensures r.Err? <==> order.status !in {"order_courier1_assigned", "order_courier_has_parcel",
                                          "order_courier2_assigned", "order_courier2_has_parcel"}
    ensures r.Err? ==> r.error == DbLayer.DbLayerError("Неизвестный статус курьера: " + order.status)
  {
    if order.status in ["order_courier1_assigned", "order_courier_has_parcel"] then Ok(("pickup", order.sourceCellId))
    else if order.status in ["order_courier2_assigned", "order_courier2_has_parcel"] then Ok(("delivery", order.destCellId))
    else Err(DbLayer.DbLayerError("Неизвестный статус курьера: " + order.status))
  }

  /** A driver's active trip with the lockers it picks up from and delivers to. */
  datatype DriverTrip = DriverTrip(id: int, pickupLockerId: Option<int>, deliveryLockerId: Option<int>)

  /** `DriverActions._determine_intent`: what the driver does at the cell's locker. The
      locker is `None` when the cell has none. */
  function DetermineIntent(lockerId: Option<int>, trip: DriverTrip): (r: Result<string, DbLayer.DbError>)
    ensures lockerId == trip.pickupLockerId ==> r == Ok("pickup")
    ensures lockerId != trip.pickupLockerId && lockerId == trip.deliveryLockerId ==> r == Ok("delivery")
    ensures r.Err? <==> lockerId != trip.pickupLockerId && lockerId != trip.deliveryLockerId
    ensures r.Err? ==> r.error == DbLayer.DbLayerError("Ячейка не относится к рейсу")
  {
    if lockerId == trip.pickupLockerId then Ok("pickup")
    else if lockerId == trip.deliveryLockerId then Ok("delivery")
    else Err(DbLayer.DbLayerError("Ячейка не относится к рейсу"))
  }

  // ---------------------------------------------------------------------------
  // State-changing calls and the order they are issued in
  // ---------------------------------------------------------------------------

  /** The state-changing database calls the actions issue. */
  datatype DbCall =
    | SetCourier1InStage(orderId: int, courierId: int)
    | AssignCourierToOrder(orderId: int, courierId: int)
    | SetCourier2InStage(orderId: int, courierId: int)
    | AssignCourier2ToOrder(orderId: int, courierId: int)
    | SetDriverInTrip(tripId: int, driverId: int)
    | DriverTakeTrip(tripId: int, driverId: int)
    | TripReportFailure(tripId: int, userId: int)
    | OrderCourier1Cancel(orderId: int, userId: int)
    | OrderCourier2Cancel(orderId: int, userId: int)
    | ClearCourierFromStageOrder(orderId: int, leg: string, userId: int)
    | TripStartTrip(tripId: int, userId: int)
    | OrderStartTransit(orderId: int, userId: int)
    | TripEndDelivery(tripId: int, userId: int)
    | OrderArriveAtPost2(orderId: int, userId: int)

  /** The calls of `plan` that are issued: all of them up to and including the first one
      that raises. */
  function Attempted(plan: seq<DbCall>, fails: DbCall -> Option<string>): seq<DbCall>
  {
    if plan == [] then []
    else if fails(plan[0]).Some? then [plan[0]]
    else [plan[0]] + Attempted(plan[1..], fails)
  }

  /** The error text of the first call of `plan` that raises. */
  function FirstFailure(plan: seq<DbCall>, fails: DbCall -> Option<string>): Option<string>
  {
    if plan == [] then None
    else if fails(plan[0]).Some? then fails(plan[0])
    else FirstFailure(plan[1..], fails)
  }

  /** The attempted calls are a prefix of the plan in which only the last may raise; the
      plan is cut short exactly when one raises, and then its error is the reply's. */
  lemma {:induction false} AttemptedStopsAtFirstFailure(plan: seq<DbCall>, fails: DbCall -> Option<string>)
    ensures var r := Attempted(plan, fails);
            && |r| <= |plan| && r == plan[..|r|]
            && (forall i :: 0 <= i < |r| - 1 ==> fails(r[i]).None?)
            && (|r| < |plan| ==> |r| > 0 && fails(r[|r| - 1]).Some?)
    ensures FirstFailure(plan, fails).None? <==> forall i :: 0 <= i < |plan| ==> fails(plan[i]).None?
    ensures FirstFailure(plan, fails).Some? ==>
              var r := Attempted(plan, fails);
              |r| > 0 && FirstFailure(plan, fails) == fails(r[|r| - 1])
  {
    if plan != [] && fails(plan[0]).None? {
      AttemptedStopsAtFirstFailure(plan[1..], fails);
      var rest := Attempted(plan[1..], fails);
      assert Attempted(plan, fails) == [plan[0]] + rest;
      assert plan[..|rest| + 1] == [plan[0]] + plan[1..][..|rest|];
      if FirstFailure(plan, fails).None? {
        forall i | 0 <= i < |plan|
          ensures fails(plan[i]).None?
        {
          if i > 0 {
            assert plan[i] == plan[1..][i - 1];
          }
        }
      }
    }
  }

  /** After `k` calls of `plan` that all succeed, the next call decides: the plan stops there
      if it raises, and runs to its end when there is none left. */
  lemma {:induction false} AttemptedAfter(plan: seq<DbCall>, fails: DbCall -> Option<string>, k: nat)
    requires k <= |plan|
    requires forall i :: 0 <= i < k ==> fails(plan[i]).None?
    ensures k == |plan| ==> Attempted(plan, fails) == plan && FirstFailure(plan, fails).None?
    ensures k < |plan| && fails(plan[k]).Some? ==>
              Attempted(plan, fails) == plan[..k + 1] && FirstFailure(plan, fails) == fails(plan[k])
  {
    if k > 0 {
      AttemptedAfter(plan[1..], fails, k - 1);
      if k < |plan| {
        assert plan[..k + 1] == [plan[0]] + plan[1..][..k];
      } else {
        assert plan == [plan[0]] + plan[1..];
      }
    }
  }

  /** The database as the actions see it: the calls issued so far, and the error text each
      call raises, if it raises. `fails` depends on the call alone, not on the calls before
      it, so a call issued twice in one run (an order listed twice in a trip) has the same
      outcome both times. */
  class Backend {
    var issued: seq<DbCall>
    const fails: DbCall -> Option<string>

    constructor(fails: DbCall -> Option<string>)
      ensures issued == [] && this.fails == fails
    {
      issued := [];
      this.fails := fails;
    }

    /** Issue one call. */
    method Call(c: DbCall) returns (err: Option<string>)
      modifies this
      ensures issued == old(issued) + [c]
      ensures err == fails(c)
    {
      issued := issued + [c];
      err := fails(c);
    }
  }

  /** An action either refuses before calling anything, or issues a fixed sequence of calls. */
  datatype Plan = Refused(message: string) | Calls(calls: seq<DbCall>)

  /** The calls a plan issues against `fails`. */
  function Issued(plan: Plan, fails: DbCall -> Option<string>): seq<DbCall>
  {
    match plan
    case Refused(_) => []
    case Calls(calls) => Attempted(calls, fails)
  }

  /** The `(ok, message)` reply of an action that runs `plan`: a refusal's message, the first
      raised error's text, or success with an empty message. */
  function Reply(plan: Plan, fails: DbCall -> Option<string>): (r: (bool, string))
    ensures r.0 <==> plan.Calls? && FirstFailure(plan.calls, fails).None?
    ensures plan.Refused? ==> r == (false, plan.message)
    ensures plan.Calls? && FirstFailure(plan.calls, fails).Some? ==> r == (false, FirstFailure(plan.calls, fails).value)
    ensures r.0 ==> r.1 == ""
  {
    match plan
    case Refused(m) => (false, m)
    case Calls(calls) =>
      match FirstFailure(calls, fails)
      case None => (true, "")
      case Some(e) => (false, e)
  }

  // ---------------------------------------------------------------------------
  // Assignments
  // ---------------------------------------------------------------------------

  /** `AssignmentActions.assign_to_order`: the stage row first, then the transition. */
  function AssignToOrderPlan(orderId: int, executorId: int, role: string): (p: Plan)
    ensures role == "courier1" ==>
              p == Calls([SetCourier1InStage(orderId, executorId), AssignCourierToOrder(orderId, executorId)])
    ensures role == "courier2" ==>
              p == Calls([SetCourier2InStage(orderId, executorId), AssignCourier2ToOrder(orderId, executorId)])
    ensures p.Refused? <==> role != "courier1" && role != "courier2"
  {
    if role == "courier1" then Calls([SetCourier1InStage(orderId, executorId), AssignCourierToOrder(orderId, executorId)])
    else if role == "courier2" then Calls([SetCourier2InStage(orderId, executorId), AssignCourier2ToOrder(orderId, executorId)])
    else Refused("unknown role")
  }

  method AssignToOrder(db: Backend, orderId: int, executorId: int, role: string) returns (ok: bool)
    modifies db
    ensures db.issued == old(db.issued) + Issued(AssignToOrderPlan(orderId, executorId, role), db.fails)
    ensures ok == Reply(AssignToOrderPlan(orderId, executorId, role), db.fails).0
  {
    var err: Option<string>;
    if role == "courier1" {
      err := db.Call(SetCourier1InStage(orderId, executorId));
      if err.None? {
        err := db.Call(AssignCourierToOrder(orderId, executorId));
      }
    } else if role == "courier2" {
      err := db.Call(SetCourier2InStage(orderId, executorId));
      if err.None? {
        err := db.Call(AssignCourier2ToOrder(orderId, executorId));
      }
    } else {
      return false;
    }
    ghost var plan := AssignToOrderPlan(orderId, executorId, role).calls;
    if db.fails(plan[0]).Some? {
      AttemptedAfter(plan, db.fails, 0);
    } else if db.fails(plan[1]).Some? {
      AttemptedAfter(plan, db.fails, 1);
    } else {
      AttemptedAfter(plan, db.fails, 2);
    }
    return err.None?;
  }

  /** `AssignmentActions.assign_to_trip`: the driver column first, then the transition. */
  function AssignToTripPlan(tripId: int, executorId: int, role: string): (p: Plan)
    ensures role == "driver" ==> p == Calls([SetDriverInTrip(tripId, executorId), DriverTakeTrip(tripId, executorId)])
    ensures p.Refused? <==> role != "driver"
  {
    if role == "driver" then Calls([SetDriverInTrip(tripId, executorId), DriverTakeTrip(tripId, executorId)])
    else Refused("unknown role")
  }

  method AssignToTrip(db: Backend, tripId: int, executorId: int, role: string) returns (ok: bool)
    modifies db
    ensures db.issued == old(db.issued) + Issued(AssignToTripPlan(tripId, executorId, role), db.fails)
    ensures ok == Reply(AssignToTripPlan(tripId, executorId, role), db.fails).0
  {
    if role != "driver" {
      return false;
    }
    ghost var plan := AssignToTripPlan(tripId, executorId, role).calls;
    var err := db.Call(SetDriverInTrip(tripId, executorId));
    if err.Some? {
      AttemptedAfter(plan, db.fails, 0);
      return false;
    }
    err := db.Call(DriverTakeTrip(tripId, executorId));
    if err.Some? {
      AttemptedAfter(plan, db.fails, 1);
      return false;
    }
    AttemptedAfter(plan, db.fails, 2);
    return true;
  }

  /** An assignment's transition is attempted only after its stage or trip row was written. */
  lemma TransitionFollowsStageWrite(orderId: int, executorId: int, role: string, fails: DbCall -> Option<string>)
    requires role in {"courier1", "courier2"}
    ensures var plan := AssignToOrderPlan(orderId, executorId, role);
            var issued := Issued(plan, fails);
            |issued| == 2 <==> fails(plan.calls[0]).None?
  {
    var plan := AssignToOrderPlan(orderId, executorId, role).calls;
    if fails(plan[0]).Some? {
      AttemptedAfter(plan, fails, 0);
    } else if fails(plan[1]).Some? {
      AttemptedAfter(plan, fails, 1);
    } else {
      AttemptedAfter(plan, fails, 2);
    }
  }

  // ---------------------------------------------------------------------------
  // Cancellations
  // ---------------------------------------------------------------------------

  /** `DriverActions.cancel_trip`: only the trip's own driver, and only from trip_assigned.
      `trip` is what `get_trip` answered. */
  function CancelTripPlan(trip: Result<Option<DbLayer.Trip>, string>, tripId: int, userId: int): (p: Plan)
    ensures trip.Err? ==> p == Refused(trip.error)
    ensures trip.Ok? && (trip.value.None? || trip.value.value.driverUserId != Some(userId)) ==>
              p == Refused("TRIP_NOT_ASSIGNED_TO_DRIVER")
    ensures trip.Ok? && trip.value.Some? && trip.value.value.driverUserId == Some(userId) ==>
              p == if trip.value.value.status == "trip_assigned" then Calls([TripReportFailure(tripId, userId)])
                   else Refused("CANNOT_CANCEL_FROM_" + trip.value.value.status)
  {
    match trip
    case Err(e) => Refused(e)
    case Ok(None) => Refused("TRIP_NOT_ASSIGNED_TO_DRIVER")
    case Ok(Some(t)) =>
      if t.driverUserId != Some(userId) then Refused("TRIP_NOT_ASSIGNED_TO_DRIVER")
      else if t.status != "trip_assigned" then Refused("CANNOT_CANCEL_FROM_" + t.status)
      else Calls([TripReportFailure(tripId, userId)])
  }

  method CancelTrip(db: Backend, trip: Result<Option<DbLayer.Trip>, string>, tripId: int, userId: int)
    returns (ok: bool, message: string)
    modifies db
    ensures db.issued == old(db.issued) + Issued(CancelTripPlan(trip, tripId, userId), db.fails)
    ensures (ok, message) == Reply(CancelTripPlan(trip, tripId, userId), db.fails)
  {
    if trip.Err? {
      return false, trip.error;
    }
    if trip.value.None? || trip.value.value.driverUserId != Some(userId) {
      return false, "TRIP_NOT_ASSIGNED_TO_DRIVER";
    }
    var t := trip.value.value;
    if t.status != "trip_assigned" {
      return false, "CANNOT_CANCEL_FROM_" + t.status;
    }
    ghost var plan := [TripReportFailure(tripId, userId)];
    var err := db.Call(TripReportFailure(tripId, userId));
    if err.Some? {
      AttemptedAfter(plan, db.fails, 0);
      return false, err.value;
    }
    AttemptedAfter(plan, db.fails, 1);
    return true, "";
  }

  /** `CourierActions.cancel_order`: only from a courier-assigned status, undoing that leg.
      `order` is what `get_order` answered. */
  function CancelOrderPlan(order: Result<Option<DbLayer.Order>, string>, orderId: int, userId: int): (p: Plan)
    ensures order.Err? ==> p == Refused(order.error)
    ensures order == Ok(None) ==> p == Refused("ORDER_NOT_FOUND")
    ensures order.Ok? && order.value.Some? ==>
              var status := order.value.value.status;
              p == if status == "order_courier1_assigned" then
                     Calls([OrderCourier1Cancel(orderId, userId), ClearCourierFromStageOrder(orderId, "pickup", userId)])
                   else if status == "order_courier2_assigned" then
                     Calls([OrderCourier2Cancel(orderId, userId), ClearCourierFromStageOrder(orderId, "delivery", userId)])
                   else Refused("CANNOT_CANCEL_FROM_" + status)
  {
    match order
    case Err(e) => Refused(e)
    case Ok(None) => Refused("ORDER_NOT_FOUND")
    case Ok(Some(o)) =>
      if o.status == "order_courier1_assigned" then
        Calls([OrderCourier1Cancel(orderId, userId), ClearCourierFromStageOrder(orderId, "pickup", userId)])
      else if o.status == "order_courier2_assigned" then
        Calls([OrderCourier2Cancel(orderId, userId), ClearCourierFromStageOrder(orderId, "delivery", userId)])
      else Refused("CANNOT_CANCEL_FROM_" + o.status)
  }

  method CancelOrder(db: Backend, order: Result<Option<DbLayer.Order>, string>, orderId: int, userId: int)
    returns (ok: bool, message: string)
    modifies db
    ensures db.issued == old(db.issued) + Issued(CancelOrderPlan(order, orderId, userId), db.fails)
    ensures (ok, message) == Reply(CancelOrderPlan(order, orderId, userId), db.fails)
  {
    if order.Err? {
      return false, order.error;
    }
    if order.value.None? {
      return false, "ORDER_NOT_FOUND";
    }
    var status := order.value.value.status;
    var err: Option<string>;
    if status == "order_courier1_assigned" {
      err := db.Call(OrderCourier1Cancel(orderId, userId));
      if err.None? {
        err := db.Call(ClearCourierFromStageOrder(orderId, "pickup", userId));
      }
    } else if status == "order_courier2_assigned" {
      err := db.Call(OrderCourier2Cancel(orderId, userId));
      if err.None? {
        err := db.Call(ClearCourierFromStageOrder(orderId, "delivery", userId));
      }
    } else {
      return false, "CANNOT_CANCEL_FROM_" + status;
    }
    ghost var plan := CancelOrderPlan(order, orderId, userId).calls;
    if db.fails(plan[0]).Some? {
      AttemptedAfter(plan, db.fails, 0);
    } else if db.fails(plan[1]).Some? {
      AttemptedAfter(plan, db.fails, 1);
    } else {
      AttemptedAfter(plan, db.fails, 2);
    }
    if err.Some? {
      return false, err.value;
    }
    return true, "";
  }

  /** A courier's cancellation clears the courier from exactly the leg that the courier's
      cell lookup reports for the order. */
  lemma CancelClearsTheCouriersLeg(order: DbLayer.Order, orderId: int, userId: int)
    requires order.status in {"order_courier1_assigned", "order_courier2_assigned"}
    ensures var plan := CancelOrderPlan(Ok(Some(order)), orderId, userId);
            && plan.Calls? && |plan.calls| == 2
            && plan.calls[1] == ClearCourierFromStageOrder(orderId, LegAndCell(order).value.0, userId)
  {
  }

  // ---------------------------------------------------------------------------
  // Trip start and arrival
  // ---------------------------------------------------------------------------

  /** The two trip-wide driver actions: starting the trip, and arriving at the destination. */
  datatype TripPhase = StartPhase | ArrivePhase

  /** The trip's own transition for a phase. */
  function TripCall(phase: TripPhase, tripId: int, userId: int): DbCall
  {
    match phase
    case StartPhase => TripStartTrip(tripId, userId)
    case ArrivePhase => TripEndDelivery(tripId, userId)
  }

  /** The transition each order of the trip takes in a phase. */
  function OrderCall(phase: TripPhase, orderId: int, userId: int): DbCall
  {
    match phase
    case StartPhase => OrderStartTransit(orderId, userId)
    case ArrivePhase => OrderArriveAtPost2(orderId, userId)
  }

  /** One transition per order of the trip, in order. */
  function OrderCalls(phase: TripPhase, orderIds: seq<int>, userId: int): (p: seq<DbCall>)
    ensures |p| == |orderIds|
    ensures forall i :: 0 <= i < |orderIds| ==> p[i] == OrderCall(phase, orderIds[i], userId)
  {
    seq(|orderIds|, i requires 0 <= i < |orderIds| => OrderCall(phase, orderIds[i], userId))
  }

  /** The trip's own transition, then the orders' transitions. */
  function TripWithOrders(phase: TripPhase, tripId: int, userId: int, orderIds: seq<int>): seq<DbCall>
  {
    [TripCall(phase, tripId, userId)] + OrderCalls(phase, orderIds, userId)
  }

  /** The loop over the trip's orders: each order's transition in turn, stopping at the first
      one that raises. */
  method IssueOrderCalls(db: Backend, phase: TripPhase, orderIds: seq<int>, userId: int) returns (err: Option<string>)
    modifies db
    ensures db.issued == old(db.issued) + Attempted(OrderCalls(phase, orderIds, userId), db.fails)
    ensures err == FirstFailure(OrderCalls(phase, orderIds, userId), db.fails)
  {
    ghost var plan := OrderCalls(phase, orderIds, userId);
    ghost var start := db.issued;
    for i := 0 to |orderIds|
      invariant db.issued == start + plan[..i]
      invariant |db.issued| == |start| + i
      invariant forall k :: 0 <= k < i ==> db.fails(plan[k]).None?
    {
      err := db.Call(OrderCall(phase, orderIds[i], userId));
      PrefixSnoc(start, plan, i);
      if err.Some? {
        AttemptedAfter(plan, db.fails, i);
        return;
      }
    }
    AttemptedAfter(plan, db.fails, |plan|);
    assert plan[..|plan|] == plan;
    err := None;
  }

  /** `start + s[..n]` grows by `s[n]`. */
  lemma PrefixSnoc<T>(start: seq<T>, s: seq<T>, n: nat)
    requires n < |s|
    ensures start + s[..n] + [s[n]] == start + s[..n + 1]
  {
    assert s[..n + 1] == s[..n] + [s[n]];
  }

  /** The first call of a plan decides whether the rest is attempted. */
  lemma FirstCallDecides(first: DbCall, rest: seq<DbCall>, fails: DbCall -> Option<string>)
    ensures Attempted([first] + rest, fails) == if fails(first).Some? then [first] else [first] + Attempted(rest, fails)
    ensures FirstFailure([first] + rest, fails) == if fails(first).Some? then fails(first) else FirstFailure(rest, fails)
  {
    assert ([first] + rest)[1..] == rest;
  }

  /** Issue a phase's calls: the trip's own transition, and the orders' only if it succeeded.
      `orderIds` is what `get_orders_in_trip` answered. */
  method RunTripPhase(db: Backend, phase: TripPhase, tripId: int, userId: int, orderIds: seq<int>)
    returns (ok: bool, message: string)
    modifies db
    ensures db.issued == old(db.issued) + Attempted(TripWithOrders(phase, tripId, userId, orderIds), db.fails)
    ensures (ok, message) == Reply(Calls(TripWithOrders(phase, tripId, userId, orderIds)), db.fails)
  {
    FirstCallDecides(TripCall(phase, tripId, userId), OrderCalls(phase, orderIds, userId), db.fails);
    ghost var start := db.issued;
    var err := db.Call(TripCall(phase, tripId, userId));
    if err.None? {
      ghost var mid := db.issued;
      err := IssueOrderCalls(db, phase, orderIds, userId);
      assert db.issued == start + ([TripCall(phase, tripId, userId)] + (db.issued[|mid|..]));
    }
    ok := err.None?;
    message := if err.Some? then err.value else "";
  }

  /** `DriverActions.start_trip`: start the trip, then every order of it goes in transit. */
  method StartTrip(db: Backend, tripId: int, userId: int, orderIds: seq<int>) returns (ok: bool, message: string)
    modifies db
    ensures db.issued == old(db.issued) + Attempted(TripWithOrders(StartPhase, tripId, userId, orderIds), db.fails)
    ensures (ok, message) == Reply(Calls(TripWithOrders(StartPhase, tripId, userId, orderIds)), db.fails)
  {
    ok, message := RunTripPhase(db, StartPhase, tripId, userId, orderIds);
  }

  /** `DriverActions.arrive_at_destination`: end the delivery, then every order of the trip
      arrives at the second locker. */
  method ArriveAtDestination(db: Backend, tripId: int, userId: int, orderIds: seq<int>) returns (ok: bool, message: string)
    modifies db
    ensures db.issued == old(db.issued) + Attempted(TripWithOrders(ArrivePhase, tripId, userId, orderIds), db.fails)
    ensures (ok, message) == Reply(Calls(TripWithOrders(ArrivePhase, tripId, userId, orderIds)), db.fails)
  {
    ok, message := RunTripPhase(db, ArrivePhase, tripId, userId, orderIds);
  }

  /** When the trip's own transition is refused, no order of the trip is touched. */
  lemma RefusedTripTouchesNoOrder(phase: TripPhase, tripId: int, userId: int, orderIds: seq<int>,
                                  fails: DbCall -> Option<string>)
    requires fails(TripCall(phase, tripId, userId)).Some?
    ensures Attempted(TripWithOrders(phase, tripId, userId, orderIds), fails) == [TripCall(phase, tripId, userId)]
  {
    AttemptedAfter(TripWithOrders(phase, tripId, userId, orderIds), fails, 0);
  }
}
