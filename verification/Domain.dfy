/** Values shared by the venue, the order management system and the kernel.

    Prices and quantities are integers at one fixed precision (the `raw` of the source's value
    types); identifiers are only ever compared for equality. */
module Domain {

  datatype Option<+T> = None | Some(value: T)

  type OrderId = nat
  type InstrumentId = nat
  type Price = int

  const U64_MAX := 0xFFFF_FFFF_FFFF_FFFF
  const I64_MAX := 0x7FFF_FFFF_FFFF_FFFF
  const I64_MIN := -0x8000_0000_0000_0000

  /** Nanoseconds since the epoch: an unsigned 64-bit integer. */
  type Time = t: nat | t <= U64_MAX witness 0

  /** `saturating_add_ns`. */
  function Later(now: Time, ns: nat): (t: Time)
    ensures now <= t
    ensures now + ns <= U64_MAX ==> t == now + ns
  {
    if now + ns <= U64_MAX then now + ns else U64_MAX
  }

  /** The result of `checked_add` / `checked_sub` on two prices: absent on 64-bit overflow. */
  function Checked(x: int): (p: Option<Price>)
    ensures p.Some? <==> I64_MIN <= x <= I64_MAX
  {
    if I64_MIN <= x <= I64_MAX then Some(x) else None
  }

  function Min(a: int, b: int): int { if a <= b then a else b }
  function Max(a: int, b: int): int { if a <= b then b else a }
  function Abs(x: int): nat { if x < 0 then -x else x }

  datatype Side = Buy | Sell {
    function Sign(): int { if Buy? then 1 else -1 }
  }

  datatype OrderKind =
    | Market | Limit | StopMarket | StopLimit | MarketIfTouched | TrailingStopMarket

  datatype Liquidity = Maker | Taker

  /** The instructions of an order; its lifecycle state lives in the order management system. */
  datatype Order = Order(
    id: OrderId, inst: InstrumentId, side: Side, kind: OrderKind,
    quantity: nat, price: Option<Price>, trigger: Option<Price>)

  datatype Instrument = Instrument(
    lot: nat, makerFee: real, takerFee: real, multiplier: nat, inverse: bool,
    expiry: Option<Time>, ashare: bool)

  datatype Event =
    | Quote(inst: InstrumentId, bid: Price, ask: Price, ts: Time)
    | Trade(inst: InstrumentId, px: Price, ts: Time)
    | Delta(inst: InstrumentId, ts: Time)
    | Bar(inst: InstrumentId, open: Price, high: Price, low: Price, close: Price, volume: nat, ts: Time)

  /** What an event says to a resting order. Only bars carry a volume. */
  datatype Tick = Tick(open: Price, low: Price, high: Price, close: Price, volume: Option<nat>)

  function Mid(bid: Price, ask: Price): Price { (bid + ask) / 2 }

  function TickOf(ev: Event): Option<Tick> {
    match ev
    case Quote(_, bid, ask, _) => Some(Tick(Mid(bid, ask), bid, ask, Mid(bid, ask), None))
    case Trade(_, px, _) => Some(Tick(px, px, px, px, None))
    case Delta(_, _) => None
    case Bar(_, open, high, low, close, volume, _) => Some(Tick(open, low, high, close, Some(volume)))
  }

  /** The part of the shared cache that market data writes. */
  datatype View = View(
    instruments: map<InstrumentId, Instrument>,
    quotes: map<InstrumentId, (Price, Price)>,
    marks: map<InstrumentId, Price>)
  {
    function Mark(id: InstrumentId): Option<Price> {
      if id in marks then Some(marks[id]) else None
    }

    /** The side-appropriate quote when there is one, the mark otherwise. */
    function Reference(id: InstrumentId, side: Side): Option<Price> {
      if id in quotes then Some(if side.Buy? then quotes[id].1 else quotes[id].0) else Mark(id)
    }

    /** `DataEngine::process`: fold one market event into the cache. */
    function Observe(ev: Event): View {
      match ev
      case Quote(id, bid, ask, _) => this.(quotes := quotes[id := (bid, ask)], marks := marks[id := Mid(bid, ask)])
      case Trade(id, px, _) => this.(marks := marks[id := px])
      case Bar(id, _, _, _, close, _, _) => this.(marks := marks[id := close])
      case Delta(_, _) => this
    }
  }

  datatype Fill = Fill(
    trade: nat, order: OrderId, venueOrder: nat, inst: InstrumentId, side: Side,
    px: Price, qty: nat, fee: real, liquidity: Liquidity, ts: Time)

  /** Normalised execution outcome; the simulated venue emits the first three. */
  datatype Report =
    | Accepted(id: OrderId, venueOrder: nat)
    | Filled(fill: Fill)
    | Canceled(id: OrderId)
    | Rejected(id: OrderId)
    | Expired(id: OrderId)
    | PendingUpdate(id: OrderId)
    | Modified(id: OrderId, quantity: Option<nat>, price: Option<Price>)
    | PendingCancel(id: OrderId)
  {
    function Order(): OrderId { if Filled? then fill.order else id }
  }
}
