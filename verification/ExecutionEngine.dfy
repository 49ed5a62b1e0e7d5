/** `ExecutionEngine` in its own form: maps and sets updated in place. */
module ExecutionEngine {
  import opened Domain
  import Venue
  import opened SimulatedExchange
  import opened Oms

  class ExecutionEngine {
    var orders: map<OrderId, Tracked>
    var ids: seq<OrderId>
    var positions: map<InstrumentId, Position>
    var held: seq<InstrumentId>
    var seen: set<nat>
    var bought: map<(InstrumentId, nat), nat>
    var closes: map<(InstrumentId, nat), Price>

    function St(): Oms.State
      reads this
    {
      Oms.State(orders, ids, positions, held, seen, bought, closes)
    }

    constructor ()
      ensures St() == Oms.EMPTY
    {
      orders, ids, positions, held, seen, bought, closes := map[], [], map[], [], {}, map[], map[];
    }

    method Track(t: Tracked)
      modifies this
      ensures St() == old(St()).Track(t)
    {
      if t.order.id !in orders {
        ids := ids + [t.order.id];
      }
      orders := orders[t.order.id := t];
    }

    method Hold(id: InstrumentId, p: Position)
      modifies this
      ensures St() == old(St()).Hold(id, p)
    {
      if id !in positions {
        held := held + [id];
      }
      positions := positions[id := p];
    }

    /** Offer an event to the tracked order. */
    method Offer(id: OrderId, ev: OrderEvent) returns (applied: seq<OrderEvent>)
      modifies this
      ensures Outcome(St(), applied) == Fire(old(St()), id, ev)
    {
      applied := [];
      if id in orders {
        var next := Transition(orders[id], ev);
        if next.Some? {
          orders := orders[id := next.value];
          applied := [ev];
        }
      }
    }

    method FoldFill(insts: Instruments, f: Fill) returns (applied: seq<OrderEvent>)
      modifies this
      ensures Outcome(St(), applied) == ApplyFill(insts, old(St()), f)
    {
      applied := [];
      if f.trade in seen {
        return;
      }
      seen := seen + {f.trade};
      if f.order !in orders {
        return;
      }
      var full := f.qty >= orders[f.order].Leaves();
      applied := Offer(f.order, if full then EvFilled(f) else EvPartiallyFilled(f));
      if applied != [] && f.inst in insts {
        var inst := insts[f.inst];
        if f.side.Buy? && inst.ashare {
          var cell := (f.inst, DayKey(inst, f.ts));
          bought := bought[cell := (if cell in bought then bought[cell] else 0) + f.qty];
        }
        var pos := if f.inst in positions then positions[f.inst] else FLAT;
        Hold(f.inst, BookFill(pos, f, inst));
      }
    }

    method FoldReport(insts: Instruments, r: Report) returns (applied: seq<OrderEvent>)
      modifies this
      ensures Outcome(St(), applied) == ApplyReport(insts, old(St()), r)
    {
      match r
      case Accepted(id, v) => applied := Offer(id, EvAccepted(v));
      case Filled(f) => applied := FoldFill(insts, f);
      case Rejected(id) => applied := Offer(id, EvRejected);
      case Canceled(id) => applied := Offer(id, EvCanceled);
      case Expired(id) => applied := Offer(id, EvExpired);
      case PendingUpdate(id) => applied := Offer(id, EvPendingUpdate);
      case Modified(id, q, p) => applied := Offer(id, EvUpdated(q, p));
      case PendingCancel(id) => applied := Offer(id, EvPendingCancel);
    }

    method Submit(gate: Gate, sim: SimulatedExchange, view: View, order: Order,
        now: Time) returns (events: seq<OrderEvent>)
      modifies this, sim
      ensures match Judge(gate, old(St()), view, now, order)
        case Ignored => events == [] && St() == old(St()) && sim.St() == old(sim.St())
        case Refused(o) => events == [EvDenied] && St() == o && sim.St() == old(sim.St())
        case Routed(o) =>
          && events == [EvSubmitted] && St() == o
          && sim.St() == Venue.OnSubmit(sim.model, old(sim.St()), now, view, order)
    {
      events := [];
      if order.id in orders || order.inst !in view.instruments {
        return;
      }
      var inst := view.instruments[order.inst];
      var denied := Tracked(order, Status.Denied, 0);
      if inst.expiry.Some? && now >= inst.expiry.value {
        Track(denied);
        return [EvDenied];
      }
      if order.side.Sell? && inst.ashare && order.quantity > Sellable(St(), inst, order.inst, now) {
        Track(denied);
        return [EvDenied];
      }
      if inst.ashare && order.inst in view.marks {
        closes := closes[(order.inst, DayKey(inst, now)) := view.marks[order.inst]];
      }
      if gate(order, St(), view, now) {
        Track(Tracked(order, Status.Submitted, 0));
        sim.OnSubmit(now, view, order);
        return [EvSubmitted];
      }
      Track(denied);
      return [EvDenied];
    }

    method Cancel(sim: SimulatedExchange, id: OrderId, now: Time) returns (applied: seq<OrderEvent>)
      modifies this, sim
      ensures Outcome(St(), applied) == Fire(old(St()), id, EvPendingCancel)
      ensures sim.St() == Venue.OnCancel(sim.model, old(sim.St()), now, id)
    {
      applied := Offer(id, EvPendingCancel);
      sim.OnCancel(now, id);
    }
  }
}
