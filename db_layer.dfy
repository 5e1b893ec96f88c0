// The database layer's decision rules over abstracted tables: decoding the
// entity authority's reply, the guarded trip wrapper, the button lookup, the
// city parser, the order-flow forks, and the trip table operations (binding an
// order to a trip, the "smart" binding with one retry, and trip activation).

module DbLayer {
  import opened Common

  /** `FsmCallError` is a `DbLayerError`; both carry their message text. */
  datatype DbError = FsmCallError(message: string) | DbLayerError(message: string)

  // ---------------------------------------------------------------------------
  // The entity authority: the stored procedure `fsm_perform_action`
  // ---------------------------------------------------------------------------

  /** The arguments passed to `fsm_perform_action`. */
  datatype ProcedureCall = ProcedureCall(
    entityType: string, entityId: int, actionName: string, userId: int, extraId: Option<string>)

  /** What the procedure call gives back: the rows of all its result sets, first
      column converted to text, or a connector error. */
  datatype ProcedureReply = ResultRows(rows: seq<seq<string>>) | ConnectorError(message: string)

  /** The authority's transition table is external: it is whatever reply it gives. */
  type Authority = ProcedureCall -> ProcedureReply

  const SUCCESS_PREFIX := "FSM action "

  /** The reply's first column of its first row reports success. */
  predicate Accepted(reply: ProcedureReply)
  {
    reply.ResultRows? && |reply.rows| > 0 && |reply.rows[0]| > 0 && StartsWith(reply.rows[0][0], SUCCESS_PREFIX)
  }

  /** The result decoding of `call_fsm_action`. */
  function DecodeFsmReply(actionName: string, reply: ProcedureReply): (r: Result<bool, DbError>)
    ensures r.Ok? <==> Accepted(reply)
    ensures r.Ok? ==> r.value
    ensures r.Err? ==> r.error.FsmCallError?
    ensures reply.ResultRows? && |reply.rows| > 0 && |reply.rows[0]| > 0 && !Accepted(reply) ==>
              r == Err(FsmCallError(reply.rows[0][0]))
    ensures reply.ResultRows? && (|reply.rows| == 0 || |reply.rows[0]| == 0) ==>
              r == Err(FsmCallError("FSM " + actionName + ": нет результата от fsm_perform_action"))
    ensures reply.ConnectorError? ==> r == Err(FsmCallError("FSM " + actionName + ": " + reply.message))
  {
    match reply
    case ConnectorError(e) => Err(FsmCallError("FSM " + actionName + ": " + e))
    case ResultRows(rows) =>
      if |rows| > 0 && |rows[0]| > 0 then
        var text := rows[0][0];
        if StartsWith(text, SUCCESS_PREFIX) then Ok(true) else Err(FsmCallError(text))
      else
        Err(FsmCallError("FSM " + actionName + ": нет результата от fsm_perform_action"))
  }

  /** `call_fsm_action`: call the procedure (an empty extra id is passed as NULL) and decode. */
  function CallFsmAction(authority: Authority, entityType: string, entityId: int, actionName: string,
                         userId: int, extraId: Option<string>): (r: Result<bool, DbError>)
    ensures var extra := if extraId == Some("") then None else extraId;
            r.Ok? <==> Accepted(authority(ProcedureCall(entityType, entityId, actionName, userId, extra)))
  {
    var extra := if extraId.Some? && Truthy(extraId.value) then extraId else None;
    DecodeFsmReply(actionName, authority(ProcedureCall(entityType, entityId, actionName, userId, extra)))
  }

  // ---------------------------------------------------------------------------
  // Tables
  // ---------------------------------------------------------------------------

  /** A row of `trips`. Times are integers. */
  datatype Trip = Trip(
    status: string, active: int, fromCity: string, toCity: string,
    driverUserId: Option<int>, createdAt: Option<int>)

  /** A row of `orders`. */
  datatype Order = Order(
    status: string, description: string, pickupType: string, deliveryType: string,
    fromCity: string, toCity: string, sourceCellId: Option<int>, destCellId: Option<int>)

  /** A row of `stage_orders`: an order's leg on a trip. */
  datatype StageOrder = StageOrder(tripId: int, orderId: int, leg: string, courierUserId: Option<int>)

  /** The `is_enabled` column as the driver hands it over: text, a number, or NULL. */
  datatype Flag = FlagText(text: string) | FlagNumber(n: int) | FlagNull

  /** A row of `button_states`. */
  datatype ButtonStateRow = ButtonStateRow(userRole: string, entityState: string, buttonName: string, isEnabled: Flag)

  /** One entry of `get_buttons`' result. */
  datatype Button = Button(name: string, enabled: bool)

  // ---------------------------------------------------------------------------
  // The guarded trip wrapper
  // ---------------------------------------------------------------------------

  /** `driver_take_trip`: only an existing, active trip reaches the authority. */
  function DriverTakeTrip(trips: map<int, Trip>, authority: Authority, tripId: int, driverId: int): (r: Result<bool, DbError>)
    ensures tripId !in trips ==>
              r == Err(FsmCallError("Рейс " + IntToString(tripId) + " неактивен (active=None)"))
    ensures tripId in trips && trips[tripId].active == 0 ==>
              r == Err(FsmCallError("Рейс " + IntToString(tripId) + " неактивен (active=0)"))
    ensures tripId in trips && trips[tripId].active != 0 ==>
              r == CallFsmAction(authority, "trip", tripId, "trip_vzyat_reis", driverId, None)
  {
    if tripId !in trips then
      Err(FsmCallError("Рейс " + IntToString(tripId) + " неактивен (active=None)"))
    else if trips[tripId].active == 0 then
      Err(FsmCallError("Рейс " + IntToString(tripId) + " неактивен (active=0)"))
    else
      CallFsmAction(authority, "trip", tripId, "trip_vzyat_reis", driverId, None)
  }

  /** A missing or inactive trip is refused without consulting the authority. */
  lemma InactiveTripNeverReachesAuthority(trips: map<int, Trip>, a: Authority, b: Authority, tripId: int, driverId: int)
    requires tripId !in trips || trips[tripId].active == 0
    ensures DriverTakeTrip(trips, a, tripId, driverId) == DriverTakeTrip(trips, b, tripId, driverId)
    ensures DriverTakeTrip(trips, a, tripId, driverId).Err?
  {
  }

  // ---------------------------------------------------------------------------
  // Buttons
  // ---------------------------------------------------------------------------

  /** `row[1] == "active" if isinstance(row[1], str) else bool(row[1])`. */
  function IsEnabled(flag: Flag): (b: bool)
    ensures flag.FlagText? ==> (b <==> flag.text == "active")
    ensures flag.FlagNumber? ==> (b <==> flag.n != 0)
    ensures flag.FlagNull? ==> !b
  {
    match flag
    case FlagText(t) => t == "active"
    case FlagNumber(n) => n != 0
    case FlagNull => false
  }

  /** The state a trip's buttons are looked up under. */
  function EffectiveTripState(status: string, active: int): (s: string)
    ensures active == 0 && status in {"trip_created", "trip_assigned"} ==> s == status + "_inactive"
    ensures !(active == 0 && status in {"trip_created", "trip_assigned"}) ==> s == status
  {
    if active == 0 && status in {"trip_created", "trip_assigned"} then status + "_inactive" else status
  }

  /** The `button_states` query for (role, state), normalised, in table order. */
  function ButtonsFor(table: seq<ButtonStateRow>, role: string, state: string): (r: seq<Button>)
    ensures |r| <= |table|
    ensures forall b :: b in r ==> exists row :: row in table && row.userRole == role && row.entityState == state
                                               && b == Button(row.buttonName, IsEnabled(row.isEnabled))
    ensures forall row :: row in table && row.userRole == role && row.entityState == state ==>
              Button(row.buttonName, IsEnabled(row.isEnabled)) in r
  {
    if table == [] then []
    else
      var row := table[0];
      (if row.userRole == role && row.entityState == state then [Button(row.buttonName, IsEnabled(row.isEnabled))] else [])
      + ButtonsFor(table[1..], role, state)
  }

  /** `get_buttons`: the buttons a role sees for an order, a trip or a locker cell. */
  function GetButtons(orders: map<int, Order>, trips: map<int, Trip>, cellStatus: map<int, string>,
                      table: seq<ButtonStateRow>, role: string, entityType: string, entityId: int): (r: Result<seq<Button>, DbError>)
    ensures entityType !in {"order", "trip", "locker"} ==> r == Err(DbLayerError("Неизвестный entity_type: " + entityType))
    ensures entityType == "order" ==>
              r == if entityId in orders then Ok(ButtonsFor(table, role, orders[entityId].status)) else Err(NotFound(entityType, entityId))
    ensures entityType == "locker" ==>
              r == if entityId in cellStatus then Ok(ButtonsFor(table, role, cellStatus[entityId])) else Err(NotFound(entityType, entityId))
    ensures entityType == "trip" && entityId !in trips ==> r == Err(NotFound(entityType, entityId))
    ensures entityType == "trip" && entityId in trips ==>
              var trip := trips[entityId];
              var state := EffectiveTripState(trip.status, trip.active);
              r == Ok(if ButtonsFor(table, role, state) == [] && Contains(state, "_inactive")
                      then ButtonsFor(table, role, trip.status) else ButtonsFor(table, role, state))
  {
    if entityType !in {"order", "trip", "locker"} then
      Err(DbLayerError("Неизвестный entity_type: " + entityType))
    else if entityType == "order" then
      if entityId in orders then Ok(ButtonsFor(table, role, orders[entityId].status)) else Err(NotFound(entityType, entityId))
    else if entityType == "locker" then
      if entityId in cellStatus then Ok(ButtonsFor(table, role, cellStatus[entityId])) else Err(NotFound(entityType, entityId))
    else if entityId !in trips then
      Err(NotFound(entityType, entityId))
    else
      var current := trips[entityId].status;
      var state := EffectiveTripState(current, trips[entityId].active);
      var rows := ButtonsFor(table, role, state);
      // fallback for inactive trips
      Ok(if rows == [] && Contains(state, "_inactive") then ButtonsFor(table, role, current) else rows)
  }

  function NotFound(entityType: string, entityId: int): DbError
  {
    DbLayerError("Сущность " + entityType + "/" + IntToString(entityId) + " не найдена")
  }

  lemma {:induction false} ContainsSuffix(prefix: string, suffix: string)
    ensures Contains(prefix + suffix, suffix)
  {
    if prefix == [] {
      assert prefix + suffix == suffix;
      assert StartsWith(suffix, suffix);
    } else {
      assert (prefix + suffix)[1..] == prefix[1..] + suffix;
      ContainsSuffix(prefix[1..], suffix);
    }
  }

  /** An inactive, not yet started trip is shown the buttons of its "_inactive" state, and
      falls back to those of its raw status when that state has none configured. */
  lemma InactiveTripButtons(orders: map<int, Order>, trips: map<int, Trip>, cellStatus: map<int, string>,
                            table: seq<ButtonStateRow>, role: string, tripId: int)
    requires tripId in trips && trips[tripId].active == 0
    requires trips[tripId].status in {"trip_created", "trip_assigned"}
    ensures var status := trips[tripId].status;
            var inactive := ButtonsFor(table, role, status + "_inactive");
            GetButtons(orders, trips, cellStatus, table, role, "trip", tripId)
              == Ok(if inactive == [] then ButtonsFor(table, role, status) else inactive)
  {
    ContainsSuffix(trips[tripId].status, "_inactive");
  }

  /** The names of the enabled buttons, in order (the list comprehension of `get_active_buttons`). */
  function ActiveNames(buttons: seq<Button>): (names: seq<string>)
    ensures |names| <= |buttons|
    ensures forall n :: n in names ==> exists b :: b in buttons && b.enabled && b.name == n
    ensures forall b :: b in buttons && b.enabled ==> b.name in names
  {
    if buttons == [] then []
    else (if buttons[0].enabled then [buttons[0].name] else []) + ActiveNames(buttons[1..])
  }

  /** Order is kept: the active names of a concatenation are the concatenation of the active names. */
  lemma {:induction false} ActiveNamesConcat(a: seq<Button>, b: seq<Button>)
    ensures ActiveNames(a + b) == ActiveNames(a) + ActiveNames(b)
  {
    if a == [] {
      assert a + b == b;
    } else {
      assert (a + b)[1..] == a[1..] + b;
      ActiveNamesConcat(a[1..], b);
    }
  }

  /** `get_active_buttons`. */
  function GetActiveButtons(orders: map<int, Order>, trips: map<int, Trip>, cellStatus: map<int, string>,
                            table: seq<ButtonStateRow>, role: string, entityType: string, entityId: int): (r: Result<seq<string>, DbError>)
    ensures var all := GetButtons(orders, trips, cellStatus, table, role, entityType, entityId);
            (all.Err? ==> r == Err(all.error)) && (all.Ok? ==> r == Ok(ActiveNames(all.value)))
  {
    match GetButtons(orders, trips, cellStatus, table, role, entityType, entityId)
    case Err(e) => Err(e)
    case Ok(all) => Ok(ActiveNames(all))
  }

  /** The enabled buttons whose names are not basic, in order. */
  function NonBasic(buttons: seq<Button>, basic: seq<string>): (r: seq<Button>)
    ensures |r| <= |buttons|
    ensures forall b :: b in r <==> b in buttons && b.enabled && b.name !in basic
  {
    if buttons == [] then []
    else (if buttons[0].enabled && buttons[0].name !in basic then [buttons[0]] else []) + NonBasic(buttons[1..], basic)
  }

  /** The non-basic buttons are exactly the active ones minus the basic names, in the same order. */
  lemma {:induction false} NonBasicNamesAreActiveNames(buttons: seq<Button>, basic: seq<string>)
    ensures ActiveNames(NonBasic(buttons, basic)) == FilterOut(ActiveNames(buttons), basic)
  {
    if buttons != [] {
      NonBasicNamesAreActiveNames(buttons[1..], basic);
      var head := if buttons[0].enabled && buttons[0].name !in basic then [buttons[0]] else [];
      ActiveNamesConcat(head, NonBasic(buttons[1..], basic));
      var names := if buttons[0].enabled then [buttons[0].name] else [];
      FilterOutConcat(names, ActiveNames(buttons[1..]), basic);
    }
  }

  function FilterOut(names: seq<string>, basic: seq<string>): seq<string>
  {
    if names == [] then [] else (if names[0] !in basic then [names[0]] else []) + FilterOut(names[1..], basic)
  }

  lemma {:induction false} FilterOutConcat(a: seq<string>, b: seq<string>, basic: seq<string>)
    ensures FilterOut(a + b, basic) == FilterOut(a, basic) + FilterOut(b, basic)
  {
    if a == [] {
      assert a + b == b;
    } else {
      assert (a + b)[1..] == a[1..] + b;
      FilterOutConcat(a[1..], b, basic);
    }
  }

  /** `get_active_nonbasic_buttons`. */
  function GetActiveNonbasicButtons(orders: map<int, Order>, trips: map<int, Trip>, cellStatus: map<int, string>,
                                    table: seq<ButtonStateRow>, role: string, entityType: string, entityId: int,
                                    basic: seq<string>): (r: Result<seq<Button>, DbError>)
    ensures var all := GetButtons(orders, trips, cellStatus, table, role, entityType, entityId);
            (all.Err? ==> r == Err(all.error)) && (all.Ok? ==> r == Ok(NonBasic(all.value, basic)))
  {
    match GetButtons(orders, trips, cellStatus, table, role, entityType, entityId)
    case Err(e) => Err(e)
    case Ok(all) => Ok(NonBasic(all, basic))
  }

  // ---------------------------------------------------------------------------
  // Lockers
  // ---------------------------------------------------------------------------

  /** The city part of a locker address: the text before the first comma, stripped. */
  function CityOfAddress(address: string): (city: string)
    ensures ',' !in city
    ensures city == [] || (!IsSpace(city[0]) && !IsSpace(city[|city| - 1]))
  {
    Strip(BeforeFirstComma(address))
  }

  lemma {:induction false} BeforeFirstCommaOfJoin(city: string, rest: string)
    requires ',' !in city
    ensures BeforeFirstComma(city + "," + rest) == city
  {
    if city != [] {
      assert (city + "," + rest)[1..] == city[1..] + "," + rest;
      BeforeFirstCommaOfJoin(city[1..], rest);
    }
  }

  /** Round trip: an address written as "<city>,<rest>" parses back to the city when the
      city has no comma and no surrounding whitespace ("Москва, Ленина 10" gives "Москва"). */
  lemma CityOfJoinedAddress(city: string, rest: string)
    requires ',' !in city
    requires city == [] || (!IsSpace(city[0]) && !IsSpace(city[|city| - 1]))
    ensures CityOfAddress(city + "," + rest) == city
  {
    BeforeFirstCommaOfJoin(city, rest);
  }

  /** Round trip with padding: whitespace around the city, before the comma, is stripped
      ("  Москва , Ленина 10" gives "Москва"). */
  lemma CityOfPaddedAddress(pre: string, city: string, post: string, rest: string)
    requires forall i :: 0 <= i < |pre| ==> IsSpace(pre[i])
    requires forall i :: 0 <= i < |post| ==> IsSpace(post[i])
    requires ',' !in city
    requires city == [] || (!IsSpace(city[0]) && !IsSpace(city[|city| - 1]))
    ensures CityOfAddress(pre + city + post + "," + rest) == city
  {
    var padded := pre + city + post;
    assert ',' !in padded by {
      assert forall i :: 0 <= i < |padded| ==>
        padded[i] == (if i < |pre| then pre[i] else if i < |pre| + |city| then city[i - |pre|] else post[i - |pre| - |city|]);
    }
    BeforeFirstCommaOfJoin(padded, rest);
    assert padded == pre + (city + post);
    StripLeftSkipsSpaces(pre, city + post);
    if city == [] {
      assert city + post == [] + post;
      StripLeftSkipsSpaces(post, []);
      assert post + [] == post;
    } else {
      assert (city + post)[0] == city[0];
    }
    StripRightSkipsSpaces(city, post);
  }

  /** The stripped set is Python's, not only ASCII: a no-break space between the city
      and the comma is removed too ("Москва\u00a0, Ленина 10" gives "Москва"). */
  lemma NoBreakSpaceIsStripped(city: string, rest: string)
    requires ',' !in city
    requires city == [] || (!IsSpace(city[0]) && !IsSpace(city[|city| - 1]))
    ensures CityOfAddress(city + "\U{00A0}" + "," + rest) == city
  {
    var padded := city + "\U{00A0}";
    BeforeFirstCommaOfJoin(padded, rest);
    if city != [] {
      assert StripLeft(padded) == padded;
    }
    assert padded[..|padded| - 1] == city;
  }

  /** `get_locker_city_by_cell`: cell, then its locker, then the locker's address. */
  function GetLockerCityByCell(cellLocker: map<int, int>, lockerAddress: map<int, Option<string>>, cellId: int): (r: Result<string, DbError>)
    ensures var address := if cellId in cellLocker && cellLocker[cellId] in lockerAddress then lockerAddress[cellLocker[cellId]] else None;
            && (address.None? || address.value == "" ==>
                  r == Err(DbLayerError("Ячейка " + IntToString(cellId) + " не найдена или у постамата нет адреса")))
            && (address.Some? && address.value != "" ==> r == Ok(CityOfAddress(address.value)))
  {
    var address := if cellId in cellLocker && cellLocker[cellId] in lockerAddress then lockerAddress[cellLocker[cellId]] else None;
    if address.None? || !Truthy(address.value) then
      Err(DbLayerError("Ячейка " + IntToString(cellId) + " не найдена или у постамата нет адреса"))
    else
      Ok(CityOfAddress(address.value))
  }

  // ---------------------------------------------------------------------------
  // Order-flow forks
  // ---------------------------------------------------------------------------

  /** The first transition of an order by its pickup type. */
  function FlowAction(pickupType: string): (action: Option<string>)
    ensures action.Some? <==> pickupType in {"self", "courier"}
    ensures pickupType == "self" ==> action == Some("order_reserve_for_client_A_to_B")
    ensures pickupType == "courier" ==> action == Some("order_reserve_for_courier_A_to_B")
  {
    if pickupType == "self" then Some("order_reserve_for_client_A_to_B")
    else if pickupType == "courier" then Some("order_reserve_for_courier_A_to_B")
    else None
  }

  /** `start_order_flow`: make the order's first transition. */
  function StartOrderFlow(orders: map<int, Order>, authority: Authority, orderId: int, userId: int): (r: Result<(), DbError>)
    ensures orderId !in orders ==> r == Err(DbLayerError("Заказ " + IntToString(orderId) + " не найден"))
    ensures orderId in orders && FlowAction(orders[orderId].pickupType).None? ==>
              r == Err(DbLayerError("Неизвестный pickup_type: " + orders[orderId].pickupType))
    ensures orderId in orders && FlowAction(orders[orderId].pickupType).Some? ==>
              var action := FlowAction(orders[orderId].pickupType).value;
              (r.Ok? <==> Accepted(authority(ProcedureCall("order", orderId, action, userId, None))))
  {
    if orderId !in orders then
      Err(DbLayerError("Заказ " + IntToString(orderId) + " не найден"))
    else
      var pickupType := orders[orderId].pickupType;
      match FlowAction(pickupType)
      case None => Err(DbLayerError("Неизвестный pickup_type: " + pickupType))
      case Some(action) =>
        match CallFsmAction(authority, "order", orderId, action, userId, None)
        case Ok(_) => Ok(())
        case Err(e) => Err(e)
  }

  /** `handle_parcel_confirmed`: for an order waiting in the second locker, the action its
      delivery type makes available next (the source only logs it). */
  function HandleParcelConfirmed(orders: map<int, Order>, orderId: int): (r: Result<string, DbError>)
    ensures r.Ok? <==> orderId in orders && orders[orderId].status == "order_parcel_confirmed_post2"
                       && orders[orderId].deliveryType in {"self", "courier"}
    ensures r.Ok? ==> r.value == if orders[orderId].deliveryType == "self" then "order_pickup_poluchatel"
                                 else "order_assign_courier2_to_order"
  {
    if orderId !in orders then
      Err(DbLayerError("Заказ " + IntToString(orderId) + " не найден"))
    else
      var order := orders[orderId];
      if order.status != "order_parcel_confirmed_post2" then
        Err(DbLayerError("handle_parcel_confirmed: некорректный статус '" + order.status
                         + "', ожидается 'order_parcel_confirmed_post2'"))
      else if order.deliveryType == "self" then Ok("order_pickup_poluchatel")
      else if order.deliveryType == "courier" then Ok("order_assign_courier2_to_order")
      else Err(DbLayerError("Неизвестный delivery_type: " + order.deliveryType))
  }

  // ---------------------------------------------------------------------------
  // Binding orders to trips
  // ---------------------------------------------------------------------------

  const MAX_ORDERS_PER_TRIP := 5
  const ALREADY_ON_TRIP := "Заказ уже привязан к активному рейсу"
  const TRIP_FULL := "На рейсе уже 5 заказов"
  const BOUND := "Заказ привязан к рейсу"

  /** A trip that is neither completed nor failed. */
  predicate LiveTripStatus(status: string)
  {
    status != "trip_completed" && status != "trip_failed"
  }

  /** A trip that still accepts orders. */
  predicate OpenTripStatus(status: string)
  {
    status == "trip_created" || status == "trip_assigned"
  }

  predicate OnLiveTrip(trips: map<int, Trip>, row: StageOrder, orderId: int)
  {
    row.orderId == orderId && row.tripId in trips && LiveTripStatus(trips[row.tripId].status)
  }

  /** How many `stage_orders` rows put the order on a trip that is not over (the JOIN count). */
  function LiveAssignments(trips: map<int, Trip>, stage: seq<StageOrder>, orderId: int): nat
  {
    if stage == [] then 0
    else (if OnLiveTrip(trips, stage[0], orderId) then 1 else 0) + LiveAssignments(trips, stage[1..], orderId)
  }

  /** How many `stage_orders` rows belong to the trip. */
  function TripLoad(stage: seq<StageOrder>, tripId: int): nat
  {
    if stage == [] then 0
    else (if stage[0].tripId == tripId then 1 else 0) + TripLoad(stage[1..], tripId)
  }

  /** The checks of `assign_order_to_trip`, in order: the refusal message, or None to insert. */
  function AssignRefusal(trips: map<int, Trip>, stage: seq<StageOrder>, orderId: int, tripId: int): (r: Option<string>)
    ensures r.None? <==> LiveAssignments(trips, stage, orderId) == 0 && tripId in trips
                         && OpenTripStatus(trips[tripId].status) && TripLoad(stage, tripId) < MAX_ORDERS_PER_TRIP
    ensures LiveAssignments(trips, stage, orderId) > 0 ==> r == Some(ALREADY_ON_TRIP)
    ensures LiveAssignments(trips, stage, orderId) == 0 && (tripId !in trips || trips[tripId].status == "") ==>
              r == Some("Рейс " + IntToString(tripId) + " не найден")
    ensures LiveAssignments(trips, stage, orderId) == 0 && tripId in trips && Truthy(trips[tripId].status)
            && !OpenTripStatus(trips[tripId].status) ==>
              r == Some("Нельзя привязать к рейсу в статусе '" + trips[tripId].status + "'")
    ensures LiveAssignments(trips, stage, orderId) == 0 && tripId in trips && OpenTripStatus(trips[tripId].status) ==>
              (r.Some? <==> TripLoad(stage, tripId) >= MAX_ORDERS_PER_TRIP) && (r.Some? ==> r.value == TRIP_FULL)
  {
    if LiveAssignments(trips, stage, orderId) > 0 then Some(ALREADY_ON_TRIP)
    else if tripId !in trips || !Truthy(trips[tripId].status) then Some("Рейс " + IntToString(tripId) + " не найден")
    else if !OpenTripStatus(trips[tripId].status) then
      Some("Нельзя привязать к рейсу в статусе '" + trips[tripId].status + "'")
    else if TripLoad(stage, tripId) >= MAX_ORDERS_PER_TRIP then Some(TRIP_FULL)
    else None
  }

  lemma {:induction false} TripLoadSnoc(stage: seq<StageOrder>, row: StageOrder, tripId: int)
    ensures TripLoad(stage + [row], tripId) == TripLoad(stage, tripId) + (if row.tripId == tripId then 1 else 0)
  {
    if stage == [] {
      assert [row][1..] == [];
    } else {
      assert (stage + [row])[1..] == stage[1..] + [row];
      TripLoadSnoc(stage[1..], row, tripId);
    }
  }

  lemma {:induction false} LiveAssignmentsSnoc(trips: map<int, Trip>, stage: seq<StageOrder>, row: StageOrder, orderId: int)
    ensures LiveAssignments(trips, stage + [row], orderId)
         == LiveAssignments(trips, stage, orderId) + (if OnLiveTrip(trips, row, orderId) then 1 else 0)
  {
    if stage == [] {
      assert [row][1..] == [];
    } else {
      assert (stage + [row])[1..] == stage[1..] + [row];
      LiveAssignmentsSnoc(trips, stage[1..], row, orderId);
    }
  }

  /** No trip holds more than five orders. */
  ghost predicate CapRespected(stage: seq<StageOrder>)
  {
    forall t :: TripLoad(stage, t) <= MAX_ORDERS_PER_TRIP
  }

  /** No order is on two trips that are not over. */
  ghost predicate SingleLiveTrip(trips: map<int, Trip>, stage: seq<StageOrder>)
  {
    forall o :: LiveAssignments(trips, stage, o) <= 1
  }

  /** A successful binding keeps both invariants of the stage table. */
  lemma AssignKeepsInvariants(trips: map<int, Trip>, stage: seq<StageOrder>, orderId: int, tripId: int)
    requires CapRespected(stage) && SingleLiveTrip(trips, stage)
    requires AssignRefusal(trips, stage, orderId, tripId).None?
    ensures var after := stage + [StageOrder(tripId, orderId, "pickup", None)];
            CapRespected(after) && SingleLiveTrip(trips, after)
  {
    var row := StageOrder(tripId, orderId, "pickup", None);
    forall t ensures TripLoad(stage + [row], t) <= MAX_ORDERS_PER_TRIP {
      TripLoadSnoc(stage, row, t);
    }
    forall o ensures LiveAssignments(trips, stage + [row], o) <= 1 {
      LiveAssignmentsSnoc(trips, stage, row, o);
    }
  }

  /** Adding a trip that no stage row mentions changes no order's live count. */
  lemma {:induction false} LiveAssignmentsIgnoreNewTrip(trips: map<int, Trip>, stage: seq<StageOrder>, tripId: int, trip: Trip, orderId: int)
    requires forall i :: 0 <= i < |stage| ==> stage[i].tripId != tripId
    ensures LiveAssignments(trips[tripId := trip], stage, orderId) == LiveAssignments(trips, stage, orderId)
  {
    if stage != [] {
      LiveAssignmentsIgnoreNewTrip(trips, stage[1..], tripId, trip, orderId);
    }
  }

  lemma {:induction false} TripLoadOfUnmentioned(stage: seq<StageOrder>, tripId: int)
    requires forall i :: 0 <= i < |stage| ==> stage[i].tripId != tripId
    ensures TripLoad(stage, tripId) == 0
  {
    if stage != [] {
      TripLoadOfUnmentioned(stage[1..], tripId);
    }
  }

  /** The order exists and runs from `fromCity` to `toCity`. */
  predicate RouteMatches(orders: map<int, Order>, orderId: int, fromCity: string, toCity: string)
  {
    orderId in orders && orders[orderId].fromCity == fromCity && orders[orderId].toCity == toCity
  }

  /** The error `assign_order_to_trip_smart` raises when the order's route differs. */
  function RouteMismatch(orderId: int): DbError
  {
    DbLayerError("Ошибка умной привязки заказа " + IntToString(orderId)
                 + ": Маршрут заказа " + IntToString(orderId) + " не совпадает")
  }

  // ---------------------------------------------------------------------------
  // Trip activation
  // ---------------------------------------------------------------------------

  predicate LiveOrder(orders: map<int, Order>, orderId: int)
  {
    orderId in orders && orders[orderId].status !in {"order_cancelled", "order_completed", "order_failed"}
  }

  /** The `COUNT(o.id)` of the activation query: the trip's rows whose order is still live. */
  function LiveOrderCount(stage: seq<StageOrder>, orders: map<int, Order>, tripId: int): (n: nat)
    ensures n <= TripLoad(stage, tripId)
  {
    if stage == [] then 0
    else (if stage[0].tripId == tripId && LiveOrder(orders, stage[0].orderId) then 1 else 0)
         + LiveOrderCount(stage[1..], orders, tripId)
  }

  /** The rows the activation query selects. */
  predicate AwaitingActivation(trip: Trip)
  {
    trip.status == "trip_created" && trip.active == 0
  }

  /** The activation rule: enough live orders, or waiting since before the threshold. */
  predicate ShouldActivate(trip: Trip, liveOrders: nat, maxOrders: int, waitHours: int, now: int)
  {
    (maxOrders > 0 && liveOrders >= maxOrders)
    || (waitHours > 0 && trip.createdAt.Some? && trip.createdAt.value < now - waitHours)
  }

  /** The trips `update_trip_active_flags` activates. */
  function ToActivate(trips: map<int, Trip>, stage: seq<StageOrder>, orders: map<int, Order>,
                      maxOrders: int, waitHours: int, now: int): (s: set<int>)
    ensures forall t :: t in s <==> t in trips && AwaitingActivation(trips[t])
                                    && ShouldActivate(trips[t], LiveOrderCount(stage, orders, t), maxOrders, waitHours, now)
  {
    set t | t in trips && AwaitingActivation(trips[t])
            && ShouldActivate(trips[t], LiveOrderCount(stage, orders, t), maxOrders, waitHours, now)
  }

  /** The ids of the rows the activation query selects. */
  function AwaitingIds(trips: map<int, Trip>): (s: set<int>)
    ensures forall t :: t in s <==> t in trips && AwaitingActivation(trips[t])
  {
    set t | t in trips && AwaitingActivation(trips[t])
  }

  /** `UPDATE trips SET active = 1` for each trip of `ids`. */
  function Activate(trips: map<int, Trip>, ids: set<int>): (r: map<int, Trip>)
    ensures r.Keys == trips.Keys
    ensures forall t :: t in trips ==> r[t] == if t in ids then trips[t].(active := 1) else trips[t]
  {
    map t | t in trips :: if t in ids then trips[t].(active := 1) else trips[t]
  }

  /** Activating one more trip is one more map update. */
  lemma ActivateInsert(trips: map<int, Trip>, ids: set<int>, t: int)
    requires t in trips && t !in ids
    ensures Activate(trips, ids)[t] == trips[t]
    ensures Activate(trips, ids + {t}) == Activate(trips, ids)[t := trips[t].(active := 1)]
  {
  }

  /** The activation rule only picks rows the activation query selects. */
  lemma ChosenAreAwaiting(trips: map<int, Trip>, stage: seq<StageOrder>, orders: map<int, Order>,
                          maxOrders: int, waitHours: int, now: int)
    ensures var chosen := ToActivate(trips, stage, orders, maxOrders, waitHours, now);
            chosen <= AwaitingIds(trips) && AwaitingIds(trips) * chosen == chosen
  {
  }

  /** With both thresholds switched off, nothing is ever activated. */
  lemma DisabledRuleActivatesNothing(trips: map<int, Trip>, stage: seq<StageOrder>, orders: map<int, Order>,
                                     maxOrders: int, waitHours: int, now: int)
    requires maxOrders <= 0 && waitHours <= 0
    ensures ToActivate(trips, stage, orders, maxOrders, waitHours, now) == {}
  {
  }

  /** Activation is idempotent: running it again at once activates nothing more. */
  lemma ActivationIsIdempotent(trips: map<int, Trip>, stage: seq<StageOrder>, orders: map<int, Order>,
                               maxOrders: int, waitHours: int, now: int)
    ensures var activated := Activate(trips, ToActivate(trips, stage, orders, maxOrders, waitHours, now));
            ToActivate(activated, stage, orders, maxOrders, waitHours, now) == {}
  {
    var s := ToActivate(trips, stage, orders, maxOrders, waitHours, now);
    var activated := Activate(trips, s);
    forall t | t in activated && AwaitingActivation(activated[t])
      ensures !ShouldActivate(activated[t], LiveOrderCount(stage, orders, t), maxOrders, waitHours, now)
    {
      assert t !in s;
    }
  }

  /** The loop of `update_trip_active_flags` over the fetched rows `rows`: count each
      trip's live orders, apply the rule, and set `active = 1` on the trips it picks
      (`chosen` names them). */
  method ActivateRows(trips: map<int, Trip>, stage: seq<StageOrder>, orders: map<int, Order>,
                      rows: set<int>, ghost chosen: set<int>, maxOrders: int, waitHours: int, now: int)
    returns (table: map<int, Trip>, updated: nat)
    requires rows <= trips.Keys && chosen <= rows
    requires forall t :: t in rows ==>
               (t in chosen <==> ShouldActivate(trips[t], LiveOrderCount(stage, orders, t), maxOrders, waitHours, now))
    ensures table == Activate(trips, chosen) && updated == |chosen|
  {
    var pending := rows;
    ghost var done: set<int> := {};
    ghost var log: seq<int> := [];
    table, updated := trips, 0;
    assert Activate(trips, {}) == trips;
    while pending != {}
      invariant pending !! done && pending + done == rows
      invariant table == Activate(trips, done * chosen)
      invariant Distinct(log) && Elements(log) == done * chosen && updated == |log|
      decreases pending
    {
      HasElement(pending);
      var t :| t in pending;
      ActivateStep(trips, done, chosen, t);
      var trip := table[t];
      var orderCount := LiveOrderCount(stage, orders, t);
      var makeActive := false;
      if maxOrders > 0 && orderCount >= maxOrders {
        makeActive := true;
      } else if waitHours > 0 && trip.createdAt.Some? && trip.createdAt.value < now - waitHours {
        makeActive := true;
      }
      assert makeActive <==> t in chosen;
      if makeActive {
        table := table[t := trip.(active := 1)];
        updated := updated + 1;
        AppendDistinct(log, t);
        log := log + [t];
      }
      pending := pending - {t};
      done := done + {t};
    }
    assert done * chosen == chosen;
    DistinctCard(log);
  }

  lemma HasElement(s: set<int>)
    requires s != {}
    ensures exists t :: t in s
  {
    if forall t :: t !in s {
      assert false;
    }
  }

  lemma ActivateStep(trips: map<int, Trip>, done: set<int>, chosen: set<int>, t: int)
    requires t in trips && t !in done
    ensures Activate(trips, done * chosen)[t] == trips[t]
    ensures t in chosen ==>
              && (done + {t}) * chosen == done * chosen + {t} && t !in done * chosen
              && Activate(trips, (done + {t}) * chosen) == Activate(trips, done * chosen)[t := trips[t].(active := 1)]
    ensures t !in chosen ==> (done + {t}) * chosen == done * chosen
  {
    if t in chosen {
      assert (done + {t}) * chosen == done * chosen + {t};
      ActivateInsert(trips, done * chosen, t);
    } else {
      assert (done + {t}) * chosen == done * chosen;
    }
  }

  ghost predicate Distinct(s: seq<int>)
  {
    forall i, j :: 0 <= i < j < |s| ==> s[i] != s[j]
  }

  ghost function Elements(s: seq<int>): (r: set<int>)
    ensures forall x :: x in r <==> x in s
  {
    if s == [] then {} else Elements(s[..|s| - 1]) + {s[|s| - 1]}
  }

  lemma AppendDistinct(s: seq<int>, t: int)
    requires Distinct(s) && t !in Elements(s)
    ensures Distinct(s + [t]) && Elements(s + [t]) == Elements(s) + {t}
  {
    assert (s + [t])[..|s|] == s;
  }

  lemma {:induction false} DistinctCard(s: seq<int>)
    requires Distinct(s)
    ensures |Elements(s)| == |s|
  {
    if s != [] {
      var init := s[..|s| - 1];
      assert Distinct(init);
      DistinctCard(init);
      assert s[|s| - 1] !in init;
    }
  }

  // ---------------------------------------------------------------------------
  // The tables, updated in place
  // ---------------------------------------------------------------------------

  /** The smart binding's trip query: same route, still open, fewer than five orders. */
  predicate TakesOrder(trips: map<int, Trip>, stage: seq<StageOrder>, t: int, fromCity: string, toCity: string)
  {
    && t in trips && trips[t].fromCity == fromCity && trips[t].toCity == toCity
    && OpenTripStatus(trips[t].status) && TripLoad(stage, t) < MAX_ORDERS_PER_TRIP
  }

  /** A text without the needle's first character does not contain the needle. */
  lemma {:induction false} MissingFirstChar(s: string, needle: string)
    requires needle != [] && needle[0] !in s
    ensures !Contains(s, needle)
    decreases |s|
  {
    if |needle| <= |s| {
      assert s[..|needle|][0] == s[0];
    }
    if |s| > 0 {
      assert forall i :: 0 <= i < |s| - 1 ==> s[1..][i] == s[i + 1];
      MissingFirstChar(s[1..], needle);
    }
  }

  /** The refusal for an order already on a live trip does not mention five orders, so
      the smart binding's test for a full trip never matches it. */
  lemma AlreadyOnTripDoesNotMentionFive()
    ensures !Contains(ALREADY_ON_TRIP, "5 заказов")
  {
    MissingFirstChar(ALREADY_ON_TRIP, "5 заказов");
  }

  class LogisticsDb {
    var orders: map<int, Order>
    var trips: map<int, Trip>
    var stageOrders: seq<StageOrder>
    /** The `trips` table's AUTO_INCREMENT counter. */
    var nextTripId: int

    /** Trip ids are below the counter, and every stage row names an existing trip. */
    ghost predicate Valid()
      reads this
    {
      && (forall t :: t in trips ==> t < nextTripId)
      && (forall i :: 0 <= i < |stageOrders| ==> stageOrders[i].tripId in trips)
    }

    constructor(orders: map<int, Order>, trips: map<int, Trip>, stageOrders: seq<StageOrder>, nextTripId: int)
      requires forall t :: t in trips ==> t < nextTripId
      requires forall i :: 0 <= i < |stageOrders| ==> stageOrders[i].tripId in trips
      ensures Valid()
      ensures this.orders == orders && this.trips == trips && this.stageOrders == stageOrders
      ensures this.nextTripId == nextTripId
    {
      this.orders := orders;
      this.trips := trips;
      this.stageOrders := stageOrders;
      this.nextTripId := nextTripId;
    }

    /** `create_trip`: insert a new trip in status trip_created; `now` is the insertion time. */
    method CreateTrip(fromCity: string, toCity: string, driverUserId: Option<int>, active: int, now: int)
      returns (tripId: int)
      requires Valid()
      modifies this`trips, this`nextTripId
      ensures Valid()
      ensures tripId !in old(trips) && tripId == old(nextTripId) && nextTripId == old(nextTripId) + 1
      ensures trips == old(trips)[tripId := Trip("trip_created", active, fromCity, toCity, driverUserId, Some(now))]
    {
      tripId := nextTripId;
      trips := trips[tripId := Trip("trip_created", active, fromCity, toCity, driverUserId, Some(now))];
      nextTripId := nextTripId + 1;
    }

    /** `assign_order_to_trip`: run the checks in order and insert one pickup row only when all pass. */
    method AssignOrderToTrip(orderId: int, tripId: int) returns (success: bool, message: string)
      requires Valid()
      modifies this`stageOrders
      ensures Valid()
      ensures success <==> AssignRefusal(trips, old(stageOrders), orderId, tripId).None?
      ensures message == if success then BOUND else AssignRefusal(trips, old(stageOrders), orderId, tripId).value
      ensures stageOrders == if success then old(stageOrders) + [StageOrder(tripId, orderId, "pickup", None)]
                             else old(stageOrders)
    {
      var refusal := AssignRefusal(trips, stageOrders, orderId, tripId);
      if refusal.Some? {
        return false, refusal.value;
      }
      stageOrders := stageOrders + [StageOrder(tripId, orderId, "pickup", None)];
      success, message := true, BOUND;
    }

    /** `assign_order_to_trip_smart`: check the route, bind to an open trip of that route
        with room (or a new one), and once more to a new trip if the first was full. */
    method AssignOrderToTripSmart(orderId: int, fromCity: string, toCity: string, now: int)
      returns (r: Result<(int, bool, string), DbError>)
      requires Valid()
      modifies this`trips, this`nextTripId, this`stageOrders
      ensures Valid()
      ensures r.Err? <==> !RouteMatches(old(orders), orderId, fromCity, toCity)
      ensures r.Err? ==> r.error == RouteMismatch(orderId) && trips == old(trips) && stageOrders == old(stageOrders)
                         && nextTripId == old(nextTripId)
      ensures r.Ok? ==>
                var (tripId, success, message) := r.value;
                && (success <==> LiveAssignments(old(trips), old(stageOrders), orderId) == 0)
                && message == (if success then BOUND else ALREADY_ON_TRIP)
                && stageOrders == if success then old(stageOrders) + [StageOrder(tripId, orderId, "pickup", None)]
                                  else old(stageOrders)
      // an open trip of the route with room is reused as it is
      ensures r.Ok? && (exists t :: TakesOrder(old(trips), old(stageOrders), t, fromCity, toCity)) ==>
                && TakesOrder(old(trips), old(stageOrders), r.value.0, fromCity, toCity)
                && trips == old(trips) && nextTripId == old(nextTripId)
      // otherwise exactly one new empty trip is created, kept even when the binding is refused
      ensures r.Ok? && !(exists t :: TakesOrder(old(trips), old(stageOrders), t, fromCity, toCity)) ==>
                && r.value.0 == old(nextTripId) && nextTripId == old(nextTripId) + 1
                && trips == old(trips)[old(nextTripId) := Trip("trip_created", 0, fromCity, toCity, None, Some(now))]
    {
      if !RouteMatches(orders, orderId, fromCity, toCity) {
        return Err(RouteMismatch(orderId));
      }
      var tripId := PickTrip(orderId, fromCity, toCity, now);
      var success, message := AssignOrderToTrip(orderId, tripId);
      AlreadyOnTripDoesNotMentionFive();
      if !success && Contains(message, "5 заказов") {
        // the retry on a full trip: the trip just chosen had room, so the only
        // possible refusal is ALREADY_ON_TRIP, which does not mention five orders
        assert false;
      }
      return Ok((tripId, success, message));
    }

    /** The smart binding's choice of trip: any open trip of the route with room
        (`LIMIT 1`), or else a new empty one. */
    method PickTrip(orderId: int, fromCity: string, toCity: string, now: int) returns (tripId: int)
      requires Valid()
      modifies this`trips, this`nextTripId
      ensures Valid()
      ensures TakesOrder(trips, stageOrders, tripId, fromCity, toCity)
      ensures LiveAssignments(trips, stageOrders, orderId) == LiveAssignments(old(trips), stageOrders, orderId)
      ensures (exists t :: TakesOrder(old(trips), stageOrders, t, fromCity, toCity)) ==>
                TakesOrder(old(trips), stageOrders, tripId, fromCity, toCity)
                && trips == old(trips) && nextTripId == old(nextTripId)
      ensures !(exists t :: TakesOrder(old(trips), stageOrders, t, fromCity, toCity)) ==>
                && tripId == old(nextTripId) && nextTripId == old(nextTripId) + 1
                && trips == old(trips)[old(nextTripId) := Trip("trip_created", 0, fromCity, toCity, None, Some(now))]
    {
      if exists t :: t in trips && TakesOrder(trips, stageOrders, t, fromCity, toCity) {
        // LIMIT 1 without ORDER BY: any matching trip
        tripId :| tripId in trips && TakesOrder(trips, stageOrders, tripId, fromCity, toCity);
      } else {
        tripId := CreateTrip(fromCity, toCity, None, 0, now);
        NewTripIsEmpty(tripId, old(trips), orderId);
      }
    }

    /** A freshly created trip holds no orders and leaves every order's live count as it was. */
    lemma NewTripIsEmpty(tripId: int, before: map<int, Trip>, orderId: int)
      requires Valid() && tripId in trips && trips == before[tripId := trips[tripId]] && tripId !in before
      requires forall i :: 0 <= i < |stageOrders| ==> stageOrders[i].tripId in before
      ensures TripLoad(stageOrders, tripId) == 0
      ensures LiveAssignments(trips, stageOrders, orderId) == LiveAssignments(before, stageOrders, orderId)
    {
      TripLoadOfUnmentioned(stageOrders, tripId);
      LiveAssignmentsIgnoreNewTrip(before, stageOrders, tripId, trips[tripId], orderId);
    }

    /** `update_trip_active_flags`: activate every waiting trip the rule selects, and count them.
        `now - waitHours` is the threshold, in the same integer time unit as `created_at`. */
    method UpdateTripActiveFlags(maxOrders: int, waitHours: int, now: int) returns (updated: nat)
      requires Valid()
      modifies this`trips
      ensures Valid()
      ensures var chosen := ToActivate(old(trips), stageOrders, orders, maxOrders, waitHours, now);
              trips == Activate(old(trips), chosen) && updated == |chosen|
      ensures maxOrders <= 0 && waitHours <= 0 ==> updated == 0 && trips == old(trips)
    {
      if maxOrders <= 0 && waitHours <= 0 {
        DisabledRuleActivatesNothing(trips, stageOrders, orders, maxOrders, waitHours, now);
        assert Activate(trips, {}) == trips;
        return 0;
      }
      // the updates are one transaction, committed after the loop
      var rows := AwaitingIds(trips);
      ChosenAreAwaiting(trips, stageOrders, orders, maxOrders, waitHours, now);
      var table;
      table, updated := ActivateRows(trips, stageOrders, orders, rows,
                                     ToActivate(trips, stageOrders, orders, maxOrders, waitHours, now),
                                     maxOrders, waitHours, now);
      trips := table;
    }
  }
}
