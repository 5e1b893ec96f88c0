# FSM logistics backend — a Dafny model of its core

The system is a logistics backend. Clients drop parcels into lockers, couriers
and drivers carry them between lockers, and orders ride on trips between cities.
Every entity transition (order, trip, locker cell) is decided by one stored
procedure, the entity authority `fsm_perform_action`. Around it the backend has
four pieces of logic, each modelled in one Dafny module:

- `FsmEngine` (`fsm_engine.dfy`). This is the server-side process engine. It
  holds the result of one step, the two-level registry from process name and
  state to handler, the dispatcher `run_fsm_step`, and the order-creation
  handler's decision ladder. It is pure.
- `FsmWorker` (`fsm_worker.dfy`). This is the polling worker over the
  `server_fsm_instances` table. The class `InstanceTable` holds the table as a
  sequence of rows in primary-key order. Its methods fetch a batch of ready
  rows, route each row, and write the step's outcome back into that one row.
  On an exception they roll back.
- `DbLayer` (`db_layer.dfy`). This covers the database layer's decision rules:
  - decoding the authority's reply;
  - the guarded `driver_take_trip` wrapper;
  - the button lookup and its two filters;
  - the locker-city parser;
  - the two order-flow forks.

  The class `LogisticsDb` holds the `orders`, `trips` and `stage_orders` tables.
  Its methods bind an order to a trip, run the "smart" binding that reuses or creates a trip,
  and activate waiting trips.
- `FsmActions` (`fsm_actions.dfy`). These are the per-role action rules:
  - creating an order from a client's request;
  - assigning executors;
  - the courier's leg rule and the driver's cell-intent rule;
  - the two cancel guards;
  - the trip start and arrival sequences.

  Each state-changing database call goes to a `Backend` object. It records the
  call and answers with the error text the call raises, if any. Every action
  method is proved to issue exactly the planned calls, up to and including the
  first one that raises.

`Common` (`common.dfy`) holds `Option`, `Result` and the text helpers. These are
Python's `str.startswith`, `in`, `strip`, `split(",")[0]`, number printing and
truthiness.

Everything outside the core is a parameter. That covers the authority's
transition table, the SQL reads, the actions context the engine receives, and
the current time. Reads are given as the answers they return. An exception is
an explicit `Err`, `Raised` or `...Raised` variant.

Points where the code disagrees with itself (a caller against the signature of
what it calls) or behaves in a way worth noting. The model follows the code in
each case:

- The engine and the worker call `find_cells_for_request(request_id)` and
  `create_order_from_request(request_id, src_id, dst_id)` on the actions object.
  `OrderCreationActions` has no `find_cells_for_request`. Its
  `create_order_from_request` takes `(session, request_id)`. The engine's side is
  therefore modelled on abstract answers (`FsmEngine.OrderCreationActions`).
  `FsmActions.MissingRequestFailsItsInstance` shows how the actions' own
  function plugs into it once the cell search has succeeded.
- The actions call database methods that `db_layer.py` either defines with other
  signatures or does not define:
  - every call passes an extra `session` argument;
  - `get_order_request`, `find_and_reserve_cells_by_size`,
    `get_locker_id_by_cell`, `get_orders_in_trip`, `create_order_record`
    (fsm_actions.py:57), `clear_courier_from_stage_order` (fsm_actions.py:705,
    710) and `set_driver_in_trip` (fsm_actions.py:172) are not defined;
  - `trip_start_trip` (fsm_actions.py:529) is not defined either;
    db_layer.py:128 defines `start_trip`;
  - `assign_order_to_trip_smart` is called with four arguments where three are
    declared.

  Each of these calls is modelled as the answer or the error it gives.
  Because `create_order_from_request` swallows every exception of the trip
  binding, the binding cannot change its reply in any case
  (`FsmActions.TripBindingDoesNotMatter`).
- `get_active_trips_for_driver` returns rows without `pickup_locker_id` and
  `delivery_locker_id`, so `_determine_intent` has no source for those two fields.
  `FsmActions.DriverTrip` takes them as given.
- The retry in `assign_order_to_trip_smart` fires only when the first binding
  was refused because the trip was full. The trip it bound to was picked as
  holding fewer than five orders, or created empty, so the only refusal left is
  "already on a live trip", which does not mention five orders
  (`DbLayer.AlreadyOnTripDoesNotMentionFive`). So in a sequential run the retry
  never happens. The model keeps the test and proves its branch dead; it does not
  run the branch's second `create_trip`.
- An instance whose actions raise is rolled back. It stays in
  WAITING_FOR_RESERVATION and ready, with the same attempt count
  (`FsmWorker.RaisingRowStaysReady`). Nothing caps its retries, so it remains
  eligible for every later fetch. Whether a fetch actually takes it depends on
  the ten-row batch in id order.

## Model

| member | source | states |
|---|---|---|
| `FsmEngine.NewStepResult` | fsm_engine.py:14-25 | a step result built from a state alone has no error, no timer and an attempts increment of 1 |
| `FsmEngine.CodeOr` | fsm_engine.py:48-64 | `code or fallback`: a present, non-empty code is kept, a missing or empty one gives the fallback |
| `FsmEngine.HandleOrderCreationWaiting` | fsm_engine.py:33-75 | a failed cell search gives FAILED with the code or CELLS_ERROR and never looks at order creation; a refused creation gives FAILED with the code or ORDER_ERROR; success gives COMPLETED with no error; exceptions escape; every result is terminal with increment 1 and no timer, and COMPLETED exactly when there is no error |
| `FsmEngine.RunStep` | fsm_engine.py:104-130 | no handler when the process is unknown or has no entry for the state; otherwise exactly the registered handler's outcome for the same instance |
| `FsmEngine.OnlyOrderCreationIsRouted` | fsm_engine.py:80-89 | the shipped registry yields a handler exactly for order_creation in WAITING_FOR_RESERVATION |
| `FsmEngine.ShippedStepsAreTerminal` | fsm_engine.py:33-89 | every step result through the shipped registry is COMPLETED or FAILED after one attempt |
| `FsmEngine.CellFailureSkipsOrderCreation` | fsm_engine.py:47-55 | when the cell search fails, the step does not depend on the order-creation action at all |
| `FsmWorker.ReadyRows` | fsm_worker.py:27-28 | the poll's WHERE clause: exactly the rows waiting for reservation whose timer is unset or due, none invented |
| `FsmWorker.ReadyRowsAscending` | fsm_worker.py:27-29 | filtering keeps ascending id order |
| `FsmWorker.Take` | fsm_worker.py:30-33 | `LIMIT n` is a prefix of at most n rows, the whole input when it is short enough |
| `FsmWorker.StoppedScanIsLimit` | fsm_worker.py:22-34 | a scan that stops at the table's end or at a full batch has read exactly the limited query result |
| `FsmWorker.FetchedBatchIsReadyAndOrdered` | fsm_worker.py:16-35 | the batch has at most BATCH_SIZE (10) rows, all ready and from the table, in ascending id order; a short batch holds every ready row |
| `FsmWorker.UpdateRow` | fsm_worker.py:85-100 | the UPDATE ... WHERE id changes state, error and attempts of the rows with that id and no other row |
| `FsmWorker.ProcessedBatch` | fsm_worker.py:181-182 | processing a batch keeps the table's size and every row's id |
| `FsmWorker.WorkerAgreesWithEngine` | fsm_worker.py:59-62 | the worker's own routing test and write-back agree with running the engine's step through the shipped registry |
| `FsmWorker.SteppedRowIsNotFetchedAgain` | fsm_worker.py:83-149 | after a step that produced a result, no row with that id is ready any more |
| `FsmWorker.RaisingRowStaysReady` | fsm_worker.py:156-158 | a step whose actions raise leaves the table unchanged and the row ready for the next poll |
| `FsmWorker.BatchTouchesOnlyItsRows` | fsm_worker.py:88-92 | processing a batch leaves every row whose id is not in the batch unchanged |
| `FsmWorker.RetiredIsNotFetched` | fsm_worker.py:27-28 | a row that is not ready is never fetched |
| `FsmWorker.IterationRetiresSteppedRows` | fsm_worker.py:174-182 | after a pass over an id-ordered batch, every batch row whose step produced a result is out of the poll's reach |
| `FsmWorker.InstanceTable.FetchReady` | fsm_worker.py:16-35 | the scan returns the first BATCH_SIZE ready rows in table order and changes nothing |
| `FsmWorker.InstanceTable.HandleOrderCreation` | fsm_worker.py:65-158 | the table becomes FAILED with the code or CELLS_ERROR, FAILED with the code or ORDER_ERROR, or COMPLETED with the error cleared, in the row with the snapshot's id, with attempts = snapshot + 1; after an exception it is unchanged |
| `FsmWorker.InstanceTable.ProcessInstance` | fsm_worker.py:38-62 | only order_creation in WAITING_FOR_RESERVATION is handled; any other row leaves the table unchanged |
| `FsmWorker.InstanceTable.RunIteration` | fsm_worker.py:174-182 | one loop pass: the fetched batch, idle exactly when it is empty, and the table after processing the batch rows in order |
| `DbLayer.DecodeFsmReply` | db_layer.py:102-113 | Ok(true) exactly when the first column of the first row starts with "FSM action "; otherwise FsmCallError carrying that text, the no-result message, or the connector's message |
| `DbLayer.CallFsmAction` | db_layer.py:79-113 | succeeds exactly when the authority accepts the call, with an empty extra id passed as NULL |
| `DbLayer.DriverTakeTrip` | db_layer.py:119-126 | a missing or inactive trip is refused with its message; an active one is passed to the authority as trip_vzyat_reis |
| `DbLayer.InactiveTripNeverReachesAuthority` | db_layer.py:121-125 | for a missing or inactive trip the result is an error and does not depend on the authority |
| `DbLayer.IsEnabled` | db_layer.py:490-493 | text is enabled iff it is "active"; a number iff it is non-zero; NULL never |
| `DbLayer.EffectiveTripState` | db_layer.py:459-464 | an inactive trip_created or trip_assigned trip is looked up as status + "_inactive"; any other trip under its status |
| `DbLayer.ButtonsFor` | db_layer.py:468-476 | exactly the normalised buttons of the rows for that role and state |
| `DbLayer.GetButtons` | db_layer.py:440-496 | unknown entity types and missing entities raise their messages; orders and cells use their status; trips use the effective state, with the fallback to the raw status when an "_inactive" state has no rows |
| `DbLayer.InactiveTripButtons` | db_layer.py:459-486 | an inactive, unstarted trip gets the buttons of its "_inactive" state, or of its raw status when none are configured |
| `DbLayer.ActiveNames` | db_layer.py:503 | exactly the names of the enabled buttons |
| `DbLayer.ActiveNamesConcat` | db_layer.py:503 | the filter keeps order: it distributes over concatenation |
| `DbLayer.GetActiveButtons` | db_layer.py:498-503 | the lookup's error, or the enabled names of its buttons |
| `DbLayer.NonBasic` | db_layer.py:514-518 | a button is kept iff it is enabled and its name is not basic |
| `DbLayer.NonBasicNamesAreActiveNames` | db_layer.py:498-518 | the names of the non-basic buttons are the active names with the basic ones removed, in the same order |
| `DbLayer.GetActiveNonbasicButtons` | db_layer.py:505-518 | the lookup's error, or its enabled non-basic buttons |
| `DbLayer.CityOfAddress` | db_layer.py:739-740 | the city contains no comma and has no whitespace at either end, whitespace being Python's `str.isspace` set (`Common.IsSpace`) |
| `DbLayer.CityOfJoinedAddress` | db_layer.py:739-740 | round trip: "city,rest" parses back to the city when the city has no comma and no surrounding whitespace |
| `DbLayer.CityOfPaddedAddress` | db_layer.py:739-740 | round trip with padding: whitespace before and after the city, ahead of the first comma, is stripped and the city comes back |
| `DbLayer.NoBreakSpaceIsStripped` | db_layer.py:740 | a no-break space between the city and the comma is stripped, as Python's `strip()` does |
| `DbLayer.GetLockerCityByCell` | db_layer.py:716-740 | a cell without a locker address, or with an empty one, raises the not-found message; otherwise the parsed city |
| `DbLayer.FlowAction` | db_layer.py:985-998 | self gives order_reserve_for_client_A_to_B, courier gives order_reserve_for_courier_A_to_B, and nothing else has an action |
| `DbLayer.StartOrderFlow` | db_layer.py:969-1001 | a missing order or unknown pickup type raises; otherwise the result succeeds iff the authority accepts the chosen action |
| `DbLayer.HandleParcelConfirmed` | db_layer.py:1003-1030 | succeeds iff the order exists, waits in the second locker and has a known delivery type; the next action is pickup by the recipient for self, the second courier otherwise |
| `DbLayer.AssignRefusal` | db_layer.py:1241-1274 | refusals in the source's order: already on a live trip, trip missing or with an empty status, a non-open trip refused with its status before any load check, an open trip refused as full exactly at five orders; none exactly when all checks pass |
| `DbLayer.AssignKeepsInvariants` | db_layer.py:1268-1283 | a successful binding keeps every trip at five orders or fewer and every order on at most one live trip |
| `DbLayer.LiveOrderCount` | db_layer.py:1376-1387 | a trip's live-order count never exceeds its stage rows |
| `DbLayer.ToActivate` | db_layer.py:1384-1399 | a trip is activated iff it is trip_created and inactive and has enough live orders or was created before the threshold |
| `DbLayer.AwaitingIds` | db_layer.py:1384 | exactly the trips in trip_created with active = 0 |
| `DbLayer.Activate` | db_layer.py:1401-1406 | `active = 1` on the chosen trips, every other trip unchanged, no trip added or removed |
| `DbLayer.ChosenAreAwaiting` | db_layer.py:1376-1399 | the rule only picks rows the activation query selects |
| `DbLayer.DisabledRuleActivatesNothing` | db_layer.py:1369-1370 | with both thresholds off, nothing is activated |
| `DbLayer.ActivationIsIdempotent` | db_layer.py:1376-1406 | right after an activation run, a second run finds nothing to activate |
| `DbLayer.ActivateRows` | db_layer.py:1391-1406 | the loop over the fetched rows activates exactly the trips the rule picks and counts them |
| `DbLayer.LogisticsDb.CreateTrip` | db_layer.py:1128-1157 | inserts one trip_created row under a fresh id; every other trip is unchanged |
| `DbLayer.LogisticsDb.AssignOrderToTrip` | db_layer.py:1235-1289 | inserts one pickup row exactly when no check refuses, and returns the bound message or the first refusal |
| `DbLayer.AlreadyOnTripDoesNotMentionFive` | db_layer.py:1347-1353 | the "already on a live trip" refusal does not contain "5 заказов", so it never triggers the full-trip retry |
| `DbLayer.LogisticsDb.PickTrip` | db_layer.py:1315-1345 | an open trip of the route with fewer than five orders is reused and the trips are unchanged; when none exists exactly one new trip_created trip with no driver, inactive, is added under the next id; either way the chosen trip takes the order |
| `DbLayer.LogisticsDb.AssignOrderToTripSmart` | db_layer.py:1291-1361 | raises with the route message, changing nothing, iff the order is missing or its route differs; otherwise reuses an open trip of the route with room (trips unchanged) or else adds exactly one new empty trip_created trip, kept even when the binding is refused; succeeds with the bound message iff the order was on no live trip, else answers "already on a live trip"; one pickup row is appended exactly on success |
| `DbLayer.LogisticsDb.NewTripIsEmpty` | db_layer.py:1336-1345 | a newly created trip holds no orders and changes no order's live-trip count |
| `DbLayer.LogisticsDb.UpdateTripActiveFlags` | db_layer.py:1363-1412 | with both thresholds off, returns 0 and changes nothing; otherwise activates exactly the rule's trips and returns how many |
| `FsmActions.DeliveryKind` | fsm_actions.py:41-42 | "self" iff the choice is "self", otherwise "courier" |
| `FsmActions.NewOrderFor` | fsm_actions.py:40-65 | the order record's description is "type (size)", its kinds come from the sender's and recipient's choices, and the client and both cells come from the request and the reservation |
| `FsmActions.CreateOrderFromRequest` | fsm_actions.py:15-89 | the ladder: read error, ORDER_REQUEST_NOT_FOUND, INVALID_REQUEST_STATE, INVALID_REQUEST_DATA, reservation error, NO_FREE_CELLS, record error, then success with the new order's id |
| `FsmActions.CreationReplyShape` | fsm_actions.py:25-83 | a reply is ok iff it carries an order id; ok replies have an empty code; refusals carry one of the four fixed codes |
| `FsmActions.NoCellsNoOrderRecord` | fsm_actions.py:52-65 | when no cells are free, the reply does not depend on the order-record call |
| `FsmActions.TripBindingDoesNotMatter` | fsm_actions.py:68-83 | the reply never depends on the trip binding's outcome |
| `FsmActions.EngineAnswer` | fsm_engine.py:58-64 | an exception, a refusal with its code, or success with the order id, as the engine's step reads them |
| `FsmActions.MissingRequestFailsItsInstance` | fsm_actions.py:25-26 | wired into the engine, a missing request fails its instance with ORDER_REQUEST_NOT_FOUND after one attempt |
| `FsmActions.LegAndCell` | fsm_actions.py:609-618 | courier1_assigned and courier_has_parcel give (pickup, source cell); courier2_assigned and courier2_has_parcel give (delivery, destination cell); every other status raises with its name |
| `FsmActions.DetermineIntent` | fsm_actions.py:415-427 | pickup when the cell's locker is the trip's pickup locker (checked first), delivery when it is the delivery locker, and an error exactly when it is neither |
| `FsmActions.AttemptedStopsAtFirstFailure` | fsm_actions.py:130-150 | the issued calls are a prefix of the plan in which only the last may raise; the plan is cut short only by a raise; the reply fails exactly when some call raises, with that call's text |
| `FsmActions.AttemptedAfter` | fsm_actions.py:130-150 | after k calls that succeed, a raising call k ends the run there; with none left, the whole plan ran |
| `FsmActions.Reply` | fsm_actions.py:140-150 | `(True, "")` exactly when no planned call raises; otherwise the refusal or the first raised text |
| `FsmActions.AssignToOrderPlan` | fsm_actions.py:125-136 | courier1 writes the stage row, then assigns the courier; courier2 does the same for the second leg; any other role is refused |
| `FsmActions.AssignToOrder` | fsm_actions.py:103-150 | issues exactly the role's planned calls up to the first raise; True iff none raised |
| `FsmActions.AssignToTripPlan` | fsm_actions.py:171-176 | a driver is set on the trip, then takes it; any other role is refused |
| `FsmActions.AssignToTrip` | fsm_actions.py:152-189 | issues exactly the planned calls up to the first raise; True iff none raised |
| `FsmActions.TransitionFollowsStageWrite` | fsm_actions.py:125-131 | an order's transition is attempted iff its stage row was written without error |
| `FsmActions.CancelTripPlan` | fsm_actions.py:580-591 | refused with TRIP_NOT_ASSIGNED_TO_DRIVER unless the trip exists and is the user's; refused with CANNOT_CANCEL_FROM_status unless it is trip_assigned; otherwise one failure report |
| `FsmActions.CancelTrip` | fsm_actions.py:572-596 | issues the failure report only when both guards pass; the reply is the guard's refusal, the raised text, or success |
| `FsmActions.CancelOrderPlan` | fsm_actions.py:695-714 | ORDER_NOT_FOUND for a missing order; from courier1_assigned, cancel then clear the pickup leg; from courier2_assigned, cancel then clear the delivery leg; any other status is refused with CANNOT_CANCEL_FROM_status |
| `FsmActions.CancelOrder` | fsm_actions.py:685-721 | issues exactly the planned calls up to the first raise; the reply is the refusal, the raised text, or success |
| `FsmActions.CancelClearsTheCouriersLeg` | fsm_actions.py:609-618 | a courier's cancellation clears the same leg that the courier's leg rule reports for the order |
| `FsmActions.OrderCalls` | fsm_actions.py:535-537 | one transition per order of the trip, in the order returned |
| `FsmActions.IssueOrderCalls` | fsm_actions.py:535-537 | the loop over the trip's orders issues their transitions in order, stopping at the first that raises, and reports that error |
| `FsmActions.FirstCallDecides` | fsm_actions.py:530-537 | the remaining calls are attempted only when the first call succeeds |
| `FsmActions.RunTripPhase` | fsm_actions.py:520-570 | the trip's own transition, then the orders' transitions only if it succeeded, stopping at the first raise; `(True, "")` iff nothing raised |
| `FsmActions.StartTrip` | fsm_actions.py:520-544 | trip_start_trip, then order_start_transit for each order, up to the first raise |
| `FsmActions.ArriveAtDestination` | fsm_actions.py:546-570 | trip_end_delivery, then order_arrive_at_post2 for each order, up to the first raise |
| `FsmActions.RefusedTripTouchesNoOrder` | fsm_actions.py:530-537 | when the trip's own transition raises, no order is touched |

## Left out

- SQL text, SQLAlchemy sessions, the MySQL connector, `LAST_INSERT_ID`, and
  commit and rollback mechanics. Each table is a map or a sequence of records.
  Each method's update is all-or-nothing.
- The internals of the `fsm_perform_action` procedure, i.e. the entity transition
  table. It is the parameter `DbLayer.Authority`, an uninterpreted function from
  call to reply.
- The thin wrappers that only forward a fixed action name to the authority.
  `driver_take_trip` is modelled because it has a guard. The call sequences of
  the actions name the wrappers they use as `FsmActions.DbCall` values.
- `main.py`'s HTTP routes and `models.py`'s request and response shapes. These
  are plumbing with no decisions.
- Logging, `print`, `time.sleep`, and the endless `while True` of the worker's
  `main`. `FsmWorker.InstanceTable.RunIteration` models one pass of that loop.
  Its `idle` result stands for the sleep.
- Floating-point time. `wait_hours`, `created_at` and `now` are integers in one
  time unit. The threshold is `now - waitHours`.
- NULL columns are not modelled: a NULL `pickup_type`, `delivery_type`, `status`
  or `active` is treated as a string or integer. `created_at`, the cell ids, the
  driver id and `is_enabled` are modelled with NULL.
- The read failures of the actions' secondary reads are not modelled. In
  `start_trip` and `arrive_at_destination` this is `get_orders_in_trip`: the
  order ids are given. In `cancel_trip` and `cancel_order` the `get_trip` and
  `get_order` answers are given, and their error is the reply's text.
- `_get_active_trip_for_driver`, the `open_cell`/`close_cell` actions, the
  locker-error reports, and the client, recipient and operator action classes.
  These are outside the modelled core.
- `FsmEngine.RunStep`'s `db` and actions-context arguments are reduced to the one
  entry the registered handler reads.
- `DbLayer.CityOfAddress`: it does not state positionally that the city is the
  stripped text before the first comma. The round-trip lemma
  `DbLayer.CityOfPaddedAddress` states it for every address
  pre + city + post + "," + rest where `pre` and `post` are whitespace and the
  city has no comma and no whitespace at either end. Every address that contains
  a comma can be written this way. An address without a comma is covered only by
  the two `ensures` (no comma, no whitespace at either end).
- `DbLayer.LogisticsDb.AssignOrderToTripSmart`: `LIMIT 1` without `ORDER BY`
  picks any matching trip. The model picks any trip that satisfies the query.
  Concurrent writers are not modelled, so the full-trip retry, which only they
  could trigger, is proved dead rather than run.
- The worker loop's own `except` around the fetch and the batch
  (fsm_worker.py:184-189) is not modelled: `FsmWorker.InstanceTable.RunIteration`
  has no failing fetch, and a raising row is already caught per row.
- `FsmWorker.InstanceTable.RunIteration`: no lemma states the starvation that
  follows from `FsmWorker.RaisingRowStaysReady` and the batch of ten in id order.
  When ten or more ready rows have no handler or keep raising, they fill every
  batch, and ready rows with higher ids are never fetched.
- `FsmEngine.OrderCreationActions`: the cell search and the order creation are
  functions of their arguments alone. Over a batch in
  `FsmWorker.InstanceTable.RunIteration`, two rows with the same entity id
  therefore get the same answers, even though the real calls would see the
  database as the earlier row left it.
- `FsmActions.Backend`: whether a call raises depends on the call alone, not on
  the calls before it. A call issued twice in one run, such as an order listed
  twice in a trip, has the same outcome both times.
- `FsmActions.CreateOrderFromRequest`: the source re-raises a `DbLayerError` and
  wraps any other exception in one. The model keeps only the error's text.
