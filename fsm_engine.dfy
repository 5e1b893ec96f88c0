// The server-side process engine: one row of `server_fsm_instances`, the result
// of one step, the registry from (process, state) to handler, and the step
// dispatcher. Everything here is a value; nothing is mutated.

module FsmEngine {
  import opened Common

  const COMPLETED := "COMPLETED"
  const FAILED := "FAILED"
  const WAITING_FOR_RESERVATION := "WAITING_FOR_RESERVATION"
  const ORDER_CREATION := "order_creation"

  /** One row of the `server_fsm_instances` table. Times are integers. */
  datatype Instance = Instance(
    id: int,
    entityType: string,
    entityId: int,
    processName: string,
    fsmState: string,
    attemptsCount: int,
    lastError: Option<string>,
    nextTimerAt: Option<int>)

  /** The result of one step of a server-side process (`FsmStepResult`). */
  datatype StepResult = StepResult(
    newState: string,
    lastError: Option<string>,
    nextTimerAt: Option<int>,
    attemptsIncrement: int)

  /** `FsmStepResult(new_state)` with every other field at its declared default. */
  function NewStepResult(newState: string): (r: StepResult)
    ensures r.newState == newState
    ensures r.lastError == None && r.nextTimerAt == None && r.attemptsIncrement == 1
  {
    StepResult(newState, None, None, 1)
  }

  /** What `find_cells_for_request(request_id)` answers: `(ok, src_id, dst_id, code)`
      with `ok` true, with `ok` false, or an exception. */
  datatype CellSearch =
    | CellsFound(srcId: int, dstId: int)
    | CellsNotFound(code: Option<string>)
    | CellSearchRaised(error: string)

  /** What `create_order_from_request(request_id, src_id, dst_id)` answers:
      `(ok, order_id, code)` with `ok` true, with `ok` false, or an exception. */
  datatype OrderCreation =
    | OrderCreated(orderId: Option<int>)
    | OrderNotCreated(code: Option<string>)
    | OrderCreationRaised(error: string)

  /** The `order_creation_actions` entry of the actions context: the two calls the
      handler makes, as the answers they give for their arguments. */
  datatype OrderCreationActions = OrderCreationActions(
    findCells: int -> CellSearch,
    createOrder: (int, int, int) -> OrderCreation)

  /** The handlers that can be registered for a (process, state) pair. */
  datatype Handler = OrderCreationWaiting

  /** `PROCESS_DEFS`'s type: process name to state to handler. */
  type Registry = map<string, map<string, Handler>>

  /** The registry as the engine ships it. */
  const PROCESS_DEFS: Registry :=
    map[ORDER_CREATION := map[WAITING_FOR_RESERVATION := OrderCreationWaiting]]

  /** What `run_fsm_step` does: returns `None`, returns a step result, or lets the
      handler's exception escape. */
  datatype StepOutcome = NoHandler | Stepped(result: StepResult) | Raised(error: string)

  /** Python's `code or fallback`: a missing or empty code gives way to `fallback`. */
  function CodeOr(code: Option<string>, fallback: string): (r: string)
    ensures code.Some? && Truthy(code.value) ==> r == code.value
    ensures code.None? || !Truthy(code.value) ==> r == fallback
  {
    if code.Some? && Truthy(code.value) then code.value else fallback
  }

  /** `_handle_order_creation_waiting`: search cells, then create the order. */
  function HandleOrderCreationWaiting(actions: OrderCreationActions, instance: Instance): (r: StepOutcome)
    ensures r != NoHandler
    // every result is terminal, records one attempt, and schedules nothing
    ensures r.Stepped? ==> r.result.newState in {COMPLETED, FAILED}
    ensures r.Stepped? ==> r.result.attemptsIncrement == 1 && r.result.nextTimerAt == None
    ensures r.Stepped? ==> (r.result.newState == COMPLETED <==> r.result.lastError == None)
    // a failed cell search fails the step before any order creation
    ensures actions.findCells(instance.entityId).CellsNotFound? ==>
              r == Stepped(StepResult(FAILED, Some(CodeOr(actions.findCells(instance.entityId).code, "CELLS_ERROR")), None, 1))
    ensures actions.findCells(instance.entityId).CellSearchRaised? ==>
              r == Raised(actions.findCells(instance.entityId).error)
    // after a successful search, the order-creation answer decides
    ensures actions.findCells(instance.entityId).CellsFound? ==>
              var cells := actions.findCells(instance.entityId);
              match actions.createOrder(instance.entityId, cells.srcId, cells.dstId)
              case OrderCreated(_) => r == Stepped(NewStepResult(COMPLETED))
              case OrderNotCreated(code) => r == Stepped(StepResult(FAILED, Some(CodeOr(code, "ORDER_ERROR")), None, 1))
              case OrderCreationRaised(e) => r == Raised(e)
  {
    var requestId := instance.entityId;
    match actions.findCells(requestId)
    case CellSearchRaised(e) => Raised(e)
    case CellsNotFound(code) => Stepped(StepResult(FAILED, Some(CodeOr(code, "CELLS_ERROR")), None, 1))
    case CellsFound(srcId, dstId) =>
      match actions.createOrder(requestId, srcId, dstId)
      case OrderCreationRaised(e) => Raised(e)
      case OrderNotCreated(code) => Stepped(StepResult(FAILED, Some(CodeOr(code, "ORDER_ERROR")), None, 1))
      case OrderCreated(_) => Stepped(StepResult(COMPLETED, None, None, 1))
  }

  /** Calling a registered handler. */
  function Invoke(handler: Handler, actions: OrderCreationActions, instance: Instance): StepOutcome
  {
    match handler
    case OrderCreationWaiting => HandleOrderCreationWaiting(actions, instance)
  }

  /** `run_fsm_step`: look up (process_name, fsm_state) and run that handler. */
  function RunStep(defs: Registry, actions: OrderCreationActions, instance: Instance): (r: StepOutcome)
    ensures instance.processName !in defs ==> r == NoHandler
    ensures instance.processName in defs && instance.fsmState !in defs[instance.processName] ==> r == NoHandler
    ensures instance.processName in defs && instance.fsmState in defs[instance.processName] ==>
              r == Invoke(defs[instance.processName][instance.fsmState], actions, instance)
  {
    if instance.processName !in defs || defs[instance.processName] == map[] then
      NoHandler
    else
      var processDef := defs[instance.processName];
      if instance.fsmState !in processDef then NoHandler
      else Invoke(processDef[instance.fsmState], actions, instance)
  }

  /** The shipped registry routes exactly one pair, order_creation in WAITING_FOR_RESERVATION. */
  lemma OnlyOrderCreationIsRouted(actions: OrderCreationActions, instance: Instance)
    ensures (RunStep(PROCESS_DEFS, actions, instance) != NoHandler) <==>
              (instance.processName == ORDER_CREATION && instance.fsmState == WAITING_FOR_RESERVATION)
  {
    if instance.processName == ORDER_CREATION && instance.fsmState == WAITING_FOR_RESERVATION {
      assert RunStep(PROCESS_DEFS, actions, instance) == HandleOrderCreationWaiting(actions, instance);
    }
  }

  /** Whatever the instance, a step run through the shipped registry either has no handler,
      raises, or ends the instance in COMPLETED or FAILED after exactly one attempt. */
  lemma ShippedStepsAreTerminal(actions: OrderCreationActions, instance: Instance)
    ensures var r := RunStep(PROCESS_DEFS, actions, instance);
            r.Stepped? ==> r.result.newState in {COMPLETED, FAILED} && r.result.attemptsIncrement == 1
  {
    OnlyOrderCreationIsRouted(actions, instance);
  }

  /** When the cell search fails, the order-creation call is never consulted: two action
      contexts that agree on the search give the same step. */
  lemma CellFailureSkipsOrderCreation(a: OrderCreationActions, b: OrderCreationActions, instance: Instance)
    requires a.findCells == b.findCells
    requires !a.findCells(instance.entityId).CellsFound?
    ensures HandleOrderCreationWaiting(a, instance) == HandleOrderCreationWaiting(b, instance)
  {
  }
}
