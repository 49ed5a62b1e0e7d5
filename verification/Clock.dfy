/** `HistoricalClock`: monotone time and a heap of timers with lazy cancellation. */
module Clock {
  import opened Domain

  datatype Timer = Timer(at: Time, id: nat, name: string)

  /** `timers` is the heap in the order in which it pops. */
  datatype State = State(now: Time, timers: seq<Timer>, cancelled: set<nat>, nextId: nat)

  predicate Before(a: Timer, b: Timer) { a.at < b.at || (a.at == b.at && a.id < b.id) }

  function Insert(ts: seq<Timer>, t: Timer): (r: seq<Timer>)
    ensures |r| == |ts| + 1
  {
    if ts == [] then [t] else if Before(t, ts[0]) then [t] + ts else [ts[0]] + Insert(ts[1..], t)
  }

  function AdvanceTo(c: State, ts: Time): (c': State)
    ensures c.now <= c'.now && ts <= c'.now
  {
    if ts > c.now then c.(now := ts) else c
  }

  function SetTimer(c: State, name: string, at: Time): State {
    c.(timers := Insert(c.timers, Timer(at, c.nextId, name)), nextId := c.nextId + 1)
  }

  function CancelTimer(c: State, id: nat): State { c.(cancelled := c.cancelled + {id}) }

  /** The earliest timer not cancelled: the first one in pop order. */
  function PeekNext(c: State): Option<Time> { First(c.timers, c.cancelled) }

  function First(ts: seq<Timer>, cancelled: set<nat>): (t: Option<Time>)
    ensures t.Some? ==> ts != []
  {
    if ts == [] then None
    else if ts[0].id !in cancelled then Some(ts[0].at)
    else First(ts[1..], cancelled)
  }

  datatype Popped = Popped(c: State, fired: seq<Timer>)

  function PopDue(c: State, frontier: Time): (p: Popped)
    ensures p.c.now == c.now && p.c.nextId == c.nextId
    decreases |c.timers|
  {
    if c.timers == [] || c.timers[0].at > frontier then Popped(c, []) else
      var t := c.timers[0];
      if t.id in c.cancelled
      then PopDue(c.(timers := c.timers[1..], cancelled := c.cancelled - {t.id}), frontier)
      else
        var p := PopDue(c.(timers := c.timers[1..]), frontier);
        p.(fired := [t] + p.fired)
  }

  /** In pop order, each id once. */
  ghost predicate Sorted(ts: seq<Timer>) {
    forall i, j :: 0 <= i < j < |ts| ==> Before(ts[i], ts[j]) && ts[i].id != ts[j].id
  }

  ghost predicate Valid(c: State) {
    Sorted(c.timers) && forall t :: t in c.timers ==> t.id < c.nextId
  }

  lemma SortedCons(t: Timer, ts: seq<Timer>)
    requires Sorted(ts) && forall u :: u in ts ==> Before(t, u) && t.id != u.id
    ensures Sorted([t] + ts)
  {
  }

  lemma {:induction false} InsertSorted(ts: seq<Timer>, t: Timer)
    requires Sorted(ts) && forall u :: u in ts ==> u.id < t.id
    ensures Sorted(Insert(ts, t))
    ensures forall u :: u in Insert(ts, t) <==> u in ts || u == t
  {
    if ts != [] {
      SortedTail(ts);
      if Before(t, ts[0]) {
        SortedCons(t, ts);
      } else {
        InsertSorted(ts[1..], t);
        SortedCons(ts[0], Insert(ts[1..], t));
      }
    }
  }

  lemma SetTimerValid(c: State, name: string, at: Time)
    requires Valid(c)
    ensures Valid(SetTimer(c, name, at))
  {
    InsertSorted(c.timers, Timer(at, c.nextId, name));
  }

  lemma SortedTail(ts: seq<Timer>)
    requires Sorted(ts) && ts != []
    ensures Sorted(ts[1..]) && forall u :: u in ts[1..] ==> Before(ts[0], u) && u.id != ts[0].id
    ensures forall u :: u in ts <==> u == ts[0] || u in ts[1..]
  {
    assert ts == [ts[0]] + ts[1..];
    assert forall i :: 0 <= i < |ts[1..]| ==> ts[1..][i] == ts[i + 1];
  }

  /** Popping fires exactly the due timers that were not cancelled, in (time, id) order, and
      leaves exactly the timers that are not due. */
  lemma {:induction false} PopDueExact(c: State, frontier: Time)
    requires Valid(c)
    ensures var p := PopDue(c, frontier);
      && Valid(p.c) && p.c.now == c.now && p.c.nextId == c.nextId
      && (forall t :: t in p.c.timers <==> t in c.timers && t.at > frontier)
      && (forall t :: t in p.fired <==> t in c.timers && t.at <= frontier && t.id !in c.cancelled)
      && Sorted(p.fired)
    decreases |c.timers|
  {
    if c.timers != [] {
      var t, rest := c.timers[0], c.timers[1..];
      SortedTail(c.timers);
      if t.at <= frontier {
        if t.id in c.cancelled {
          PopDueExact(c.(timers := rest, cancelled := c.cancelled - {t.id}), frontier);
        } else {
          PopDueExact(c.(timers := rest), frontier);
          var fired := PopDue(c.(timers := rest), frontier).fired;
          assert forall i :: 0 <= i < |fired| ==> fired[i] in fired;
        }
      }
    }
  }

  /** `peek_next_timer` is the time of the earliest live timer. */
  lemma {:induction false} PeekIsEarliest(ts: seq<Timer>, cancelled: set<nat>)
    requires Sorted(ts)
    ensures var f := First(ts, cancelled);
      && (f.None? <==> forall t :: t in ts ==> t.id in cancelled)
      && (f.Some? ==> exists t :: t in ts && t.id !in cancelled && t.at == f.value)
      && (f.Some? ==> forall t :: t in ts && t.id !in cancelled ==> f.value <= t.at)
    decreases |ts|
  {
    if ts != [] {
      SortedTail(ts);
      PeekIsEarliest(ts[1..], cancelled);
      assert ts[0] in ts;
    }
  }

  /** However far the timer lies, popping at the peeked time shrinks the heap. */
  lemma {:induction false} PopShrinks(c: State, frontier: Time)
    ensures |PopDue(c, frontier).c.timers| <= |c.timers|
    ensures c.timers != [] && c.timers[0].at <= frontier ==> |PopDue(c, frontier).c.timers| < |c.timers|
    decreases |c.timers|
  {
    if c.timers != [] && c.timers[0].at <= frontier {
      var t := c.timers[0];
      PopShrinks(if t.id in c.cancelled then c.(timers := c.timers[1..], cancelled := c.cancelled - {t.id})
                 else c.(timers := c.timers[1..]), frontier);
    }
  }

  // --- runs -----------------------------------------------------------------------------------

  datatype Op = OpAdvance(ts: Time) | OpArm(name: string, at: Time) | OpDisarm(id: nat) | OpPop(frontier: Time)

  function Apply(c: State, op: Op): State {
    match op
    case OpAdvance(ts) => AdvanceTo(c, ts)
    case OpArm(name, at) => SetTimer(c, name, at)
    case OpDisarm(id) => CancelTimer(c, id)
    case OpPop(frontier) => PopDue(c, frontier).c
  }

  function Run(c: State, ops: seq<Op>): State {
    if ops == [] then c else Apply(Run(c, ops[..|ops| - 1]), ops[|ops| - 1])
  }

  /** Operation `k` of the run fires the timer with this id. */
  ghost predicate Fires(c: State, ops: seq<Op>, k: nat, id: nat)
    requires k < |ops|
  {
    ops[k].OpPop? && exists t :: t in PopDue(Run(c, ops[..k]), ops[k].frontier).fired && t.id == id
  }

  /** The id is cancelled, or was used and is no longer on the heap. */
  ghost predicate Silenced(c: State, id: nat) {
    id in c.cancelled || (id < c.nextId && forall t :: t in c.timers ==> t.id != id)
  }

  lemma {:induction false} PopKeepsSilence(c: State, frontier: Time, id: nat)
    requires Valid(c)
    ensures var p := PopDue(c, frontier);
      && (Silenced(c, id) ==> Silenced(p.c, id) && forall t :: t in p.fired ==> t.id != id)
      && (forall t :: t in p.fired && t.id == id ==> Silenced(p.c, id))
    decreases |c.timers|
  {
    if c.timers != [] && c.timers[0].at <= frontier {
      var t := c.timers[0];
      SortedTail(c.timers);
      var rest := c.(timers := c.timers[1..]);
      if t.id in c.cancelled {
        PopKeepsSilence(rest.(cancelled := c.cancelled - {t.id}), frontier, id);
      } else {
        PopKeepsSilence(rest, frontier, id);
      }
    }
  }

  lemma ApplyKeepsSilence(c: State, op: Op, id: nat)
    requires Valid(c)
    ensures Valid(Apply(c, op)) && (Silenced(c, id) ==> Silenced(Apply(c, op), id))
  {
    match op
    case OpAdvance(ts) =>
    case OpArm(name, at) =>
      SetTimerValid(c, name, at);
      InsertSorted(c.timers, Timer(at, c.nextId, name));
    case OpDisarm(_) =>
    case OpPop(frontier) =>
      PopDueExact(c, frontier);
      PopKeepsSilence(c, frontier, id);
  }

  lemma {:induction false} RunKeepsSilence(c: State, ops: seq<Op>, k: nat, id: nat)
    requires Valid(c) && k <= |ops|
    ensures Valid(Run(c, ops)) && (Silenced(Run(c, ops[..k]), id) ==> Silenced(Run(c, ops), id))
  {
    var n := |ops| - 1;
    if k == |ops| {
      assert ops[..k] == ops;
    }
    if ops != [] {
      RunKeepsSilence(c, ops[..n], Min(k, n), id);
      ApplyKeepsSilence(Run(c, ops[..n]), ops[n], id);
      assert k <= n ==> ops[..n][..k] == ops[..k];
    }
  }

  lemma RunSnoc(c: State, ops: seq<Op>, k: nat)
    requires k < |ops|
    ensures Run(c, ops[..k + 1]) == Apply(Run(c, ops[..k]), ops[k])
  {
    assert ops[..k + 1][..k] == ops[..k];
  }

  /** Once disarmed, even before it is armed, a timer never fires; once fired, it never fires again:
      whatever operations lie between or follow. */
  lemma DisarmedOrFiredIsSilent(c: State, ops: seq<Op>, k: nat, q: nat, id: nat)
    requires Valid(c) && k < q < |ops| && (ops[k] == OpDisarm(id) || Fires(c, ops, k, id))
    ensures !Fires(c, ops, q, id)
  {
    hide Run;
    RunSnoc(c, ops, k);
    RunKeepsSilence(c, ops[..k], 0, id);
    if ops[k].OpPop? {
      PopKeepsSilence(Run(c, ops[..k]), ops[k].frontier, id);
    }
    assert ops[..q][..k + 1] == ops[..k + 1];
    RunKeepsSilence(c, ops[..q], k + 1, id);
    if ops[q].OpPop? {
      PopKeepsSilence(Run(c, ops[..q]), ops[q].frontier, id);
    }
  }

  class HistoricalClock {
    var now: Time
    var timers: seq<Timer>
    var cancelled: set<nat>
    var nextId: nat

    ghost function St(): State
      reads this
    {
      State(now, timers, cancelled, nextId)
    }

    constructor (start: Time)
      ensures St() == State(start, [], {}, 1)
    {
      now, timers, cancelled, nextId := start, [], {}, 1;
    }

    method Advance(ts: Time)
      modifies this
      ensures St() == AdvanceTo(old(St()), ts)
    {
      if ts > now {
        now := ts;
      }
    }

    method Arm(name: string, at: Time) returns (id: nat)
      modifies this
      ensures St() == SetTimer(old(St()), name, at) && id == old(nextId)
    {
      id := nextId;
      nextId := nextId + 1;
      timers := Insert(timers, Timer(at, id, name));
    }

    method Disarm(id: nat)
      modifies this
      ensures St() == CancelTimer(old(St()), id)
    {
      cancelled := cancelled + {id};
    }

    method Pop(frontier: Time) returns (out: seq<Timer>)
      modifies this
      ensures var p := PopDue(old(St()), frontier); St() == p.c && out == p.fired
    {
      out := [];
      while timers != [] && timers[0].at <= frontier
        invariant var p := PopDue(St(), frontier); Popped(p.c, out + p.fired) == PopDue(old(St()), frontier)
        decreases |timers|
      {
        var t := timers[0];
        timers := timers[1..];
        if t.id in cancelled {
          cancelled := cancelled - {t.id};
        } else {
          out := out + [t];
        }
      }
    }

    /** The minimum fire time over the timers not cancelled. */
    method Peek() returns (next: Option<Time>)
      requires Valid(St())
      ensures next == PeekNext(St())
    {
      next := None;
      for i := 0 to |timers|
        invariant next == First(timers[..i], cancelled)
      {
        var t := timers[i];
        FirstSnoc(timers[..i], t, cancelled);
        assert timers[..i + 1] == timers[..i] + [t];
        if t.id !in cancelled && (next.None? || t.at < next.value) {
          PeekIsEarliest(timers[..i], cancelled);
          assert forall u :: u in timers[..i] ==> Before(u, t);
          next := Some(t.at);
        }
      }
      assert timers[..|timers|] == timers;
    }
  }

  lemma {:induction false} FirstSnoc(ts: seq<Timer>, t: Timer, cancelled: set<nat>)
    ensures First(ts + [t], cancelled) ==
      if First(ts, cancelled).Some? then First(ts, cancelled)
      else if t.id in cancelled then None else Some(t.at)
    decreases |ts|
  {
    if ts != [] {
      assert (ts + [t])[0] == ts[0] && (ts + [t])[1..] == ts[1..] + [t];
      FirstSnoc(ts[1..], t, cancelled);
    }
  }
}
