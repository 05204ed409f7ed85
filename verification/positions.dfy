/** The positions collection (db.py `create_position`, `update_position`,
    `get_open_positions`): position records keyed by `position_id`, and the
    three kinds of write the executor and the resolver make to it. */
module PositionStore {
  import opened Wrappers
  import opened Signals
  import opened Risk

  datatype Status = Pending | Open | Failed | Closed

  /** Why the executor gave up on a trade (the `failure_reason` text). */
  datatype FailureReason =
    | RiskCheckFailed(why: Rejection)  // "Risk check failed: <reason>"
    | PartialFill                      // some order raised or came back empty
    | FillVerificationFailed           // an order not filled, or slipped too far
    | MissingKey(key: string)          // "Exception: '<key>'": a KeyError while summing the cost

  /** The fields of an order response the executor reads. */
  datatype OrderResponse = OrderResponse(
    orderId: Option<string>,
    status: Option<string>,
    fillPrice: Option<real>,
    size: Option<real>)

  /** An order as stored on the position: the response, the leg's outcome,
      and the slippage the executor measured. */
  datatype OrderRecord = OrderRecord(outcome: string, response: OrderResponse, slippagePct: real)

  /** A position document. The fields after `orders` are keys a document
      may lack; `None` means the key is absent. Times are clock readings. */
  datatype Position = Position(
    positionId: string,
    marketId: string,
    question: string,
    strategy: Strategy,
    status: Status,
    legs: seq<Leg>,
    totalCost: real,
    expectedPayout: real,
    expectedEdge: real,
    openedAt: int,
    closedAt: Option<int>,
    realizedPnl: Option<real>,
    orders: seq<OrderRecord>,
    actualTotalCost: Option<real>,
    actualEdge: Option<real>,
    avgSlippage: Option<real>,
    failureReason: Option<FailureReason>,
    winner: Option<string>)

  type Store = map<string, Position>

  datatype Write =
    | Insert(doc: Position)                     // create_position
    | SetRecord(id: string, doc: Position)      // update_position with a whole record
    | UpsertRecord(id: string, doc: Position)   // the same update with upsert=True
    | SetClosed(id: string, closedAt: int, pnl: real, winner: string)  // the resolver's update

  /** The id a write addresses. */
  function Target(w: Write): string {
    match w
    case Insert(doc) => doc.positionId
    case SetRecord(id, _) => id
    case UpsertRecord(id, _) => id
    case SetClosed(id, _, _, _) => id
  }

  /** `$set` of a whole record onto a stored one: every field the record
      carries replaces the stored one; an optional key the record lacks
      keeps its stored value. */
  function SetFields(stored: Position, doc: Position): (r: Position)
    ensures r.positionId == doc.positionId && r.status == doc.status && r.legs == doc.legs
    ensures r.closedAt == doc.closedAt && r.realizedPnl == doc.realizedPnl && r.orders == doc.orders
    ensures r.actualTotalCost == (if doc.actualTotalCost.Some? then doc.actualTotalCost else stored.actualTotalCost)
    ensures r.failureReason == (if doc.failureReason.Some? then doc.failureReason else stored.failureReason)
    ensures r.winner == (if doc.winner.Some? then doc.winner else stored.winner)
  {
    doc.(actualTotalCost := if doc.actualTotalCost.Some? then doc.actualTotalCost else stored.actualTotalCost,
         actualEdge := if doc.actualEdge.Some? then doc.actualEdge else stored.actualEdge,
         avgSlippage := if doc.avgSlippage.Some? then doc.avgSlippage else stored.avgSlippage,
         failureReason := if doc.failureReason.Some? then doc.failureReason else stored.failureReason,
         winner := if doc.winner.Some? then doc.winner else stored.winner)
  }

  /** The resolver's `$set` of status, close time, realized PnL and winner. */
  function Close(stored: Position, closedAt: int, pnl: real, winner: string): (r: Position)
    ensures r.status == Closed && r.closedAt == Some(closedAt)
    ensures r.realizedPnl == Some(pnl) && r.winner == Some(winner)
    ensures r.(status := stored.status, closedAt := stored.closedAt, realizedPnl := stored.realizedPnl,
               winner := stored.winner) == stored
  {
    stored.(status := Closed, closedAt := Some(closedAt), realizedPnl := Some(pnl), winner := Some(winner))
  }

  /** One write. An update matches on `position_id`; without upsert it
      changes nothing when no stored record has that id. Ids are unique, so
      an insert never meets an existing one. */
  function Apply(store: Store, w: Write): (r: Store)
    ensures r.Keys == store.Keys + (if w.Insert? || w.UpsertRecord? then {Target(w)} else {})
    ensures forall id :: id in store && id != Target(w) ==> r[id] == store[id]
    ensures Target(w) !in store && (w.SetRecord? || w.SetClosed?) ==> r == store
    ensures w.Insert? ==> r[Target(w)] == w.doc
    ensures w.UpsertRecord? && Target(w) !in store ==> r[Target(w)] == w.doc
    ensures (w.SetRecord? || w.UpsertRecord?) && Target(w) in store ==> r[Target(w)] == SetFields(store[Target(w)], w.doc)
    ensures w.SetClosed? && Target(w) in store ==> r[Target(w)] == Close(store[Target(w)], w.closedAt, w.pnl, w.winner)
  {
    match w
    case Insert(doc) => store[doc.positionId := doc]
    case SetRecord(id, doc) =>
      if id in store then store[id := SetFields(store[id], doc)] else store
    case UpsertRecord(id, doc) =>
      if id in store then store[id := SetFields(store[id], doc)] else store[id := doc]
    case SetClosed(id, t, pnl, winner) =>
      if id in store then store[id := Close(store[id], t, pnl, winner)] else store
  }

  /** A sequence of writes, in order. */
  function ApplyAll(store: Store, ws: seq<Write>): (r: Store)
    decreases |ws|
  {
    if ws == [] then store else ApplyAll(Apply(store, ws[0]), ws[1..])
  }

  /** The ids of the positions `get_open_positions` returns. */
  function OpenIds(store: Store): (r: set<string>)
    ensures forall id :: id in r <==> id in store && store[id].status == Open
  {
    set id | id in store && store[id].status == Open
  }
}
