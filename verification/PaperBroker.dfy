/** The offline equity broker as a state machine over its calls. Floats are reals, venue and symbol
    codes are taken already normalised, and the clock is an argument. */
module PaperBroker {
  import D = Domain
  import opened Money
  import PrevClose

  datatype Listing = Listing(venue: int, symbol: int)

  type Currency = int
  type Day = int

  datatype Status = Pending | Accepted | Partial | Filled | Canceled | Rejected {
    predicate Terminal() { Filled? || Canceled? || Rejected? }
    predicate Working() { Accepted? || Partial? }
  }

  /** Orders are numbered from zero in the order of submission; a market order has no limit. */
  datatype Order = Order(
    listing: Listing, side: D.Side, qty: real, limit: D.Option<real>,
    status: Status, filled: real, avg: real)

  /** `day` is the session day the fill was judged on. */
  datatype Fill = Fill(
    order: nat, listing: Listing, side: D.Side, qty: real, px: real, fee: real, ts: int, day: Day)

  datatype Band = Band(down: real, up: real)

  /** The switches of the broker and the tables it consults. */
  datatype Config = Config(
    start: map<Currency, real>, enforceT1: bool, enforceLimits: bool, clamp: bool,
    currency: int -> Currency, feeRate: Listing -> real, t1: int -> bool,
    band: (Listing, real) -> D.Option<Band>, sessionDate: (int, int) -> Day, holidays: int -> set<Day>)
  {
    predicate T1(l: Listing) { enforceT1 && t1(l.venue) }
  }

  datatype State = State(
    orders: seq<Order>, fills: seq<Fill>,
    cash: map<Currency, real>, positions: map<Listing, real>, bought: map<(Listing, Day), real>,
    marks: map<Listing, real>, prevClose: map<Listing, real>, closes: map<Listing, map<Day, real>>,
    sessionDay: D.Option<Day>, connected: bool)

  function Get<K>(m: map<K, real>, k: K): real { if k in m then m[k] else 0.0 }

  function Notional(px: real, qty: real): (n: real)
    ensures n >= 0.0
  {
    AbsR(Times(px, qty))
  }

  function Start(c: Config): State {
    State([], [], c.start, map[], map[], map[], map[], map[], D.None, false)
  }

  // --- filling ------------------------------------------------------------------------------------

  function Sellable(c: Config, s: State, l: Listing, day: Day): real {
    var pos := Get(s.positions, l);
    if !c.T1(l) then pos else
      var free := pos - Get(s.bought, (l, day));
      if free > 0.0 then free else 0.0
  }

  function DayOf(c: Config, s: State, l: Listing, ts: int): Day {
    if s.sessionDay.Some? then s.sessionDay.value else c.sessionDate(ts, l.venue)
  }

  function Report(c: Config, s: State, i: nat, px: real, qty: real, ts: int): Fill
    requires i < |s.orders|
  {
    var o := s.orders[i];
    Fill(i, o.listing, o.side, qty, px, Times(c.feeRate(o.listing), Notional(px, qty)), ts, DayOf(c, s, o.listing, ts))
  }

  predicate Covered(c: Config, s: State, f: Fill) {
    if f.side.Buy? then Get(s.cash, c.currency(f.listing.venue)) >= Notional(f.px, f.qty) + f.fee
    else Sellable(c, s, f.listing, f.day) >= f.qty
  }

  /** What a fill does to the cash balance. */
  function Flow(f: Fill): real {
    if f.side.Buy? then -(Notional(f.px, f.qty) + f.fee) else Notional(f.px, f.qty) - f.fee
  }

  function Shares(f: Fill): real { if f.side.Buy? then f.qty else -f.qty }

  function Execute(o: Order, px: real, qty: real): Order {
    var filled := o.filled + qty;
    o.(filled := filled,
       avg := if filled <= 0.0 then o.avg else if o.filled > 0.0 then (o.avg * o.filled + px * qty) / filled else px,
       status := if filled >= o.qty then Filled else Partial)
  }

  /** Money and shares move. */
  function Exchanged(c: Config, s: State, f: Fill): State {
    var ccy, key := c.currency(f.listing.venue), (f.listing, f.day);
    s.(cash := s.cash[ccy := Get(s.cash, ccy) + Flow(f)],
       positions := s.positions[f.listing := Get(s.positions, f.listing) + Shares(f)],
       bought := if f.side.Buy? && c.T1(f.listing) then s.bought[key := Get(s.bought, key) + f.qty] else s.bought)
  }

  function Book(c: Config, s: State, f: Fill): State
    requires f.order < |s.orders|
  {
    Exchanged(c, s, f).(
      orders := s.orders[f.order := Execute(s.orders[f.order], f.px, f.qty)], fills := s.fills + [f])
  }

  lemma ExchangeKeepsLists(c: Config, s: State, f: Fill)
    ensures Exchanged(c, s, f).orders == s.orders && Exchanged(c, s, f).fills == s.fills
  {
    hide Flow, Shares;
  }

  function SetStatus(s: State, i: nat, status: Status): State
    requires i < |s.orders|
  {
    s.(orders := s.orders[i := s.orders[i].(status := status)])
  }

  /** `_fill`. */
  function FillOrder(c: Config, s: State, i: nat, px: real, qty: real, ts: int): (s': State)
    requires i < |s.orders|
    ensures |s'.orders| == |s.orders| && s.fills <= s'.fills
  {
    if qty <= 0.0 || s.orders[i].status.Terminal() then s else
      var f := Report(c, s, i, px, qty, ts);
      if Covered(c, s, f) then Book(c, s, f) else SetStatus(s, i, Rejected)
  }

  predicate Hit(o: Order, l: Listing, low: real, high: real) {
    && o.status.Working() && o.listing == l && o.limit.Some?
    && if o.side.Buy? then low <= o.limit.value else high >= o.limit.value
  }

  function MatchAt(c: Config, s: State, i: nat, l: Listing, low: real, high: real, ts: int): State
    requires i < |s.orders|
  {
    var o := s.orders[i];
    if Hit(o, l, low, high) then FillOrder(c, s, i, o.limit.value, o.qty - o.filled, ts) else s
  }

  /** The first `k` orders matched in turn; `_match_limits` is the case `low == high`. */
  function Match(c: Config, s: State, l: Listing, low: real, high: real, ts: int, k: nat): (s': State)
    requires k <= |s.orders|
    ensures |s'.orders| == |s.orders| && s.fills <= s'.fills
  {
    if k == 0 then s else MatchAt(c, Match(c, s, l, low, high, ts, k - 1), k - 1, l, low, high, ts)
  }

  // --- the calls ----------------------------------------------------------------------------------

  function CheckPrice(c: Config, s: State, l: Listing, side: D.Side, px: real, market: bool): D.Option<real> {
    if !c.enforceLimits || l !in s.prevClose || c.band(l, s.prevClose[l]).None? then D.Some(px) else
      var b := c.band(l, s.prevClose[l]).value;
      if if side.Buy? then px <= b.up else px >= b.down then D.Some(px)
      else if market && c.clamp then
        var floor := if b.down <= px then px else b.down;
        D.Some(if b.up <= floor then b.up else floor)
      else D.None
  }

  function SetMark(c: Config, s: State, l: Listing, px: real, now: int): State {
    Match(c, s.(marks := s.marks[l := px]), l, px, px, now, |s.orders|)
  }

  function Closes(s: State, l: Listing): map<Day, real> { if l in s.closes then s.closes[l] else map[] }

  /** The session day and the previous close roll first, then the bar matches, then it is recorded. */
  ghost function Rolled(c: Config, s: State, l: Listing, ts: int): State {
    var sess := c.sessionDate(ts, l.venue);
    var pc := PrevClose.Resolved(Closes(s, l), c.holidays(l.venue), sess, PrevClose.MAX_LOOKBACK);
    s.(sessionDay := if c.enforceT1 then D.Some(sess) else s.sessionDay,
       prevClose := if pc.Some? then s.prevClose[l := pc.value] else s.prevClose)
  }

  ghost function OnBar(c: Config, s: State, l: Listing, high: real, low: real, close: real, ts: int): State {
    var s1 := Rolled(c, s, l, ts);
    var s2 := Match(c, s1, l, low, high, ts, |s.orders|);
    s2.(marks := s2.marks[l := close],
        closes := s2.closes[l := Closes(s2, l)[c.sessionDate(ts, l.venue) := close]])
  }

  datatype Error = NotConnected | BadQuantity | UnknownOrder

  function SubmitError(s: State, qty: real): D.Option<Error> {
    if !s.connected then D.Some(NotConnected) else if qty <= 0.0 then D.Some(BadQuantity) else D.None
  }

  function NewOrder(s: State, l: Listing, side: D.Side, qty: real, limit: D.Option<real>, status: Status): State {
    s.(orders := s.orders + [Order(l, side, qty, limit, status, 0.0, 0.0)])
  }

  function SubmitMarket(c: Config, s: State, l: Listing, side: D.Side, qty: real, now: int): State {
    if SubmitError(s, qty).Some? then s
    else if l !in s.marks then NewOrder(s, l, side, qty, D.None, Rejected)
    else
      var px := CheckPrice(c, s, l, side, s.marks[l], true);
      if px.None? then NewOrder(s, l, side, qty, D.None, Rejected)
      else FillOrder(c, NewOrder(s, l, side, qty, D.None, Accepted), |s.orders|, px.value, qty, now)
  }

  function SubmitLimit(c: Config, s: State, l: Listing, side: D.Side, qty: real, price: real, now: int): State {
    if SubmitError(s, qty).Some? then s else
      var px := CheckPrice(c, s, l, side, price, false);
      if px.None? then NewOrder(s, l, side, qty, D.Some(price), Rejected) else
        var s1 := NewOrder(s, l, side, qty, px, Accepted);
        if l in s.marks then Match(c, s1, l, s.marks[l], s.marks[l], now, |s1.orders|) else s1
  }

  function CancelError(s: State, id: nat): D.Option<Error> {
    if !s.connected then D.Some(NotConnected) else if id >= |s.orders| then D.Some(UnknownOrder) else D.None
  }

  function Cancel(s: State, id: nat): State {
    if CancelError(s, id).Some? || s.orders[id].status.Terminal() then s else SetStatus(s, id, Canceled)
  }

  datatype Op =
    | Connect | Disconnect
    | SessionDay(day: Day)
    | PrevClosing(listing: Listing, px: real)
    | Mark(listing: Listing, px: real, now: int)
    | Bar(listing: Listing, high: real, low: real, close: real, ts: int)
    | Market(listing: Listing, side: D.Side, qty: real, now: int)
    | Limit(listing: Listing, side: D.Side, qty: real, price: real, now: int)
    | CancelOrder(id: nat)

  ghost function Apply(c: Config, s: State, op: Op): State {
    match op
    case Connect => s.(connected := true)
    case Disconnect => s.(connected := false)
    case SessionDay(day) => s.(sessionDay := D.Some(day))
    case PrevClosing(l, px) => s.(prevClose := s.prevClose[l := px])
    case Mark(l, px, now) => SetMark(c, s, l, px, now)
    case Bar(l, high, low, close, ts) => OnBar(c, s, l, high, low, close, ts)
    case Market(l, side, qty, now) => SubmitMarket(c, s, l, side, qty, now)
    case Limit(l, side, qty, price, now) => SubmitLimit(c, s, l, side, qty, price, now)
    case CancelOrder(id) => Cancel(s, id)
  }

  ghost function Run(c: Config, ops: seq<Op>): State {
    if ops == [] then Start(c) else Apply(c, Run(c, ops[..|ops| - 1]), ops[|ops| - 1])
  }
}
