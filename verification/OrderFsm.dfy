/** The order's state machine against its documented transition table, and what folding any sequence of
    events into an order keeps. */
module OrderFsm {
  import opened Domain
  import opened Oms
  import OmsRuns

  // --- the documented table ---------------------------------------------------------------------------

  /** The table at the head of the order module: from which statuses an event may be applied, and to which
      it leads. */
  predicate Documented(from: Status, ev: OrderEvent, to: Status) {
    match to
    case Submitted => ev.EvSubmitted? && from.Initialized?
    case Denied => ev.EvDenied? && from.Initialized?
    case Accepted => (ev.EvAccepted? && from.Submitted?) || (ev.EvUpdated? && from.PendingUpdate?)
    case PendingUpdate => ev.EvPendingUpdate? && from in {Status.Accepted, Status.PartiallyFilled}
    case PendingCancel =>
      ev.EvPendingCancel? && from in {Status.Accepted, Status.PartiallyFilled, Status.PendingUpdate}
    case PartiallyFilled =>
      || (ev.EvPartiallyFilled? && from in {Status.Accepted, Status.PartiallyFilled, Status.PendingUpdate})
      || (ev.EvUpdated? && from.PendingUpdate?)
    case Filled => ev.EvFilled? && from in {Status.Accepted, Status.PartiallyFilled, Status.PendingUpdate}
    case Canceled => ev.EvCanceled? && from in {Status.Accepted, Status.PartiallyFilled, Status.PendingCancel}
    case Expired => ev.EvExpired? && from in {Status.Accepted, Status.PartiallyFilled}
    case Rejected => ev.EvRejected? && from in {Status.Submitted, Status.PendingUpdate}
    case Initialized => false
  }

  /** An event is refused exactly where the table has no row for it. */
  lemma RefusedIffUndocumented(t: Tracked, ev: OrderEvent)
    ensures Transition(t, ev).None? <==> forall to :: !Documented(t.status, ev, to)
  {
    var next := Transition(t, ev);
    if next.Some? {
      if ev.IsFill() {
        assert Documented(t.status, ev, if ev.EvFilled? then Status.Filled else Status.PartiallyFilled);
      } else {
        assert Documented(t.status, ev, next.value.status);
      }
    }
  }

  /** A fill that says it is the last one is. */
  predicate Truthful(t: Tracked, ev: OrderEvent) {
    ev.IsFill() ==> (ev.EvFilled? <==> ev.fill.qty >= t.Leaves())
  }

  /** The code derives the status of a fill from what is left, not from the event. So a transition leads
      where the table says if and only if the fill event is truthful about being the last. */
  lemma DocumentedIffTruthful(t: Tracked, ev: OrderEvent)
    requires Transition(t, ev).Some?
    ensures Documented(t.status, ev, Transition(t, ev).value.status) <==> Truthful(t, ev)
  {
  }

  /** The events the engine makes of fill reports are truthful. */
  lemma EngineIsTruthful(o: State, f: Fill)
    requires f.order in o.orders
    ensures Truthful(o.orders[f.order], OmsRuns.EventOf(o, f)) && OmsRuns.EventOf(o, f).IsFill()
  {
  }

  // --- folding events ---------------------------------------------------------------------------------

  /** The order after the events that its state machine takes; the others are refused without effect. */
  function Folded(t: Tracked, evs: seq<OrderEvent>): Tracked {
    if evs == [] then t else
      var before := Folded(t, evs[..|evs| - 1]);
      match Transition(before, evs[|evs| - 1])
      case Some(after) => after
      case None => before
  }

  /** The quantity of the fills taken. */
  function Taken(t: Tracked, evs: seq<OrderEvent>): nat {
    if evs == [] then 0 else
      var n := |evs| - 1;
      Taken(t, evs[..n])
      + if evs[n].IsFill() && Transition(Folded(t, evs[..n]), evs[n]).Some? then evs[n].fill.qty else 0
  }

  /** How far along its life a status is. */
  function Stage(s: Status): nat {
    match s
    case Initialized => 0
    case Submitted => 1
    case Accepted | PendingUpdate | PendingCancel | PartiallyFilled => 2
    case _ => 3
  }

  /** Whatever the events: life only moves on, a terminal order never changes again, the filled quantity is
      the sum of the fills taken, and the identity, side and kind of the order stay. */
  lemma {:induction false} FoldKeeps(t: Tracked, evs: seq<OrderEvent>)
    ensures var t' := Folded(t, evs);
      && Stage(t.status) <= Stage(t'.status) && (t.status.Terminal() ==> t' == t)
      && t'.filled == t.filled + Taken(t, evs)
      && t'.order == t.order.(quantity := t'.order.quantity, price := t'.order.price)
  {
    if evs != [] {
      FoldKeeps(t, evs[..|evs| - 1]);
    }
  }

  ghost predicate NoUpdates(evs: seq<OrderEvent>) { forall i :: 0 <= i < |evs| ==> !evs[i].EvUpdated? }

  /** An order whose instructions are never modified is marked filled exactly when the fills taken reach
      its quantity, partially filled only short of it, and keeps its instructions. */
  lemma {:induction false} FilledIffReached(o: Order, evs: seq<OrderEvent>)
    requires NoUpdates(evs) && o.quantity > 0
    ensures var t, t' := Tracked(o, Initialized, 0), Folded(Tracked(o, Initialized, 0), evs);
      && t'.order == o && t'.filled == Taken(t, evs)
      && (t'.status.Filled? <==> t'.filled >= o.quantity)
      && (t'.status in {Status.Initialized, Status.Denied, Status.Submitted} ==> t'.filled == 0)
  {
    if evs != [] {
      FilledIffReached(o, evs[..|evs| - 1]);
      FoldKeeps(Tracked(o, Initialized, 0), evs);
    }
  }
}
