/**
 * What an action does over its whole life: the scene calls logic once per
 * frame with the elapsed time and the source user's pending count. These
 * lemmas are about sequences of such ticks.
 */
module Lifecycle {
  import opened Actions

  /** One call of logic: the elapsed time and the pending count it sees. */
  datatype Tick = Tick(dt: real, pending: int)

  /** The action after the ticks, one by one. */
  function Run(s: Snapshot, ticks: seq<Tick>): Snapshot
    decreases |ticks|
  {
    if ticks == [] then s
    else Run(Next(s, ticks[0].dt, ticks[0].pending), ticks[1..])
  }

  /** Every call the action makes during the ticks, in order. */
  function Log(s: Snapshot, ticks: seq<Tick>): seq<Event>
    decreases |ticks|
  {
    if ticks == [] then []
    else LogicEvents(s, ticks[0].dt, ticks[0].pending) + Log(Next(s, ticks[0].dt, ticks[0].pending), ticks[1..])
  }

  predicate NoTimeTravel(ticks: seq<Tick>)
  {
    forall i :: 0 <= i < |ticks| ==> 0.0 <= ticks[i].dt
  }

  function CountRemovals(es: seq<Event>): nat
  {
    if es == [] then 0
    else (if es[0].RemoveTarget? then 1 else 0) + CountRemovals(es[1..])
  }

  lemma {:induction false} CountRemovalsAppend(a: seq<Event>, b: seq<Event>)
    ensures CountRemovals(a + b) == CountRemovals(a) + CountRemovals(b)
  {
    if a != [] {
      assert (a + b)[0] == a[0] && (a + b)[1..] == a[1..] + b;
      CountRemovalsAppend(a[1..], b);
      assert CountRemovals(a + b) == (if a[0].RemoveTarget? then 1 else 0) + CountRemovals(a[1..] + b);
    } else {
      assert a + b == b;
    }
  }

  lemma {:induction false} NoRemovalsCounted(es: seq<Event>)
    requires forall e :: e in es ==> !e.RemoveTarget?
    ensures CountRemovals(es) == 0
  {
    if es != [] {
      assert es[0] in es;
      NoRemovalsCounted(es[1..]);
    }
  }

  /** Ticks only ever change progress. */
  lemma {:induction false} RunKeepsIdentity(s: Snapshot, ticks: seq<Tick>)
    ensures Run(s, ticks) == s.(progress := Run(s, ticks).progress)
    decreases |ticks|
  {
    if ticks != [] {
      RunKeepsIdentity(Next(s, ticks[0].dt, ticks[0].pending), ticks[1..]);
    }
  }

  /** A finished action stays put and calls nothing, whatever the ticks. */
  lemma {:induction false} FinishedIsInert(s: Snapshot, ticks: seq<Tick>)
    requires Finished(s)
    ensures Run(s, ticks) == s && Log(s, ticks) == []
    decreases |ticks|
  {
    if ticks != [] {
      assert Next(s, ticks[0].dt, ticks[0].pending) == s;
      FinishedIsInert(s, ticks[1..]);
    }
  }

  /**
   * With no negative time steps, progress starting in [0, 1] only grows and
   * stays in [0, 1].
   */
  lemma {:induction false} ProgressMonotone(s: Snapshot, ticks: seq<Tick>)
    requires 0.0 <= s.progress <= 1.0 && 0.0 <= s.rate
    requires NoTimeTravel(ticks)
    ensures s.progress <= Run(s, ticks).progress <= 1.0
    decreases |ticks|
  {
    if ticks != [] {
      var s' := Next(s, ticks[0].dt, ticks[0].pending);
      assert ticks[0] in ticks;
      ProgressMonotone(s', ticks[1..]);
    }
  }

  /**
   * The file's removal is requested at most once in an action's life,
   * whatever the time steps: once progress reaches 1 logic does nothing.
   */
  lemma {:induction false} RemovalAtMostOnce(s: Snapshot, ticks: seq<Tick>)
    ensures CountRemovals(Log(s, ticks)) <= 1
    decreases |ticks|
  {
    if ticks != [] {
      var t := ticks[0];
      var s' := Next(s, t.dt, t.pending);
      var first := LogicEvents(s, t.dt, t.pending);
      CountRemovalsAppend(first, Log(s', ticks[1..]));
      if RemovesOn(s, t.dt, t.pending) {
        FinishedIsInert(s', ticks[1..]);
        var applied := BaseLogicEvents(s);
        NoRemovalsCounted(applied);
        CountRemovalsAppend(applied, [RemoveTarget(s.timestamp)]);
        assert CountRemovals([RemoveTarget(s.timestamp)]) == 1;
      } else {
        NoRemovalsCounted(first);
        RemovalAtMostOnce(s', ticks[1..]);
      }
    }
  }

  /**
   * With a positive rate and no negative time steps, apply runs on a tick
   * exactly when the action started unmoved and every earlier tick had zero
   * elapsed time.
   */
  lemma {:induction false} AppliesOnlyWhileUnmoved(s: Snapshot, ticks: seq<Tick>, i: nat)
    requires 0.0 <= s.progress && 0.0 < s.rate
    requires NoTimeTravel(ticks) && i <= |ticks|
    ensures AppliesOn(Run(s, ticks[..i])) <==> s.progress == 0.0 && forall j :: 0 <= j < i ==> ticks[j].dt == 0.0
    decreases |ticks|
  {
    if i > 0 {
      var t := ticks[0];
      var s' := Next(s, t.dt, t.pending);
      assert ticks[..i][0] == t && ticks[..i][1..] == ticks[1..][..i - 1];
      assert t in ticks;
      AppliesOnlyWhileUnmoved(s', ticks[1..], i - 1);
      assert s'.progress == 0.0 <==> s.progress == 0.0 && t.dt == 0.0;
      assert (forall j :: 0 <= j < i ==> ticks[j].dt == 0.0) <==>
             t.dt == 0.0 && forall j :: 0 <= j < i - 1 ==> ticks[1..][j].dt == 0.0 by {
        forall j | 0 <= j < i - 1 ensures ticks[1..][j] == ticks[j + 1] { }
      }
    }
  }

  /** When every tick moves time forward, apply runs on the first tick and on no other. */
  lemma AppliesOnFirstTickOnly(s: Snapshot, ticks: seq<Tick>, i: nat)
    requires s.progress == 0.0 && 0.0 < s.rate
    requires forall k :: 0 <= k < |ticks| ==> 0.0 < ticks[k].dt
    requires i < |ticks|
    ensures AppliesOn(Run(s, ticks[..i])) <==> i == 0
  {
    AppliesOnlyWhileUnmoved(s, ticks, i);
    if i > 0 {
      assert ticks[0].dt != 0.0;
    }
  }

  /**
   * Once an action has moved, the only call left is the removal of a
   * removed file on the tick that finishes it.
   */
  lemma {:induction false} QuietAfterStart(s: Snapshot, ticks: seq<Tick>)
    requires 0.0 < s.progress && 0.0 <= s.rate
    requires NoTimeTravel(ticks)
    ensures Log(s, ticks) ==
      if s.kind.Remove? && !Finished(s) && Finished(Run(s, ticks)) then [RemoveTarget(s.timestamp)] else []
    decreases |ticks|
  {
    if ticks == [] {
    } else if Finished(s) {
      FinishedIsInert(s, ticks);
    } else {
      var t := ticks[0];
      var s' := Next(s, t.dt, t.pending);
      assert t in ticks;
      if Finished(s') {
        FinishedIsInert(s', ticks[1..]);
      } else {
        QuietAfterStart(s', ticks[1..]);
      }
    }
  }

  /**
   * The whole life of an action that starts unmoved and whose first tick
   * moves time forward: apply's calls once, then, for a removal that
   * finishes, the one removal of its file.
   */
  lemma LifetimeLog(s: Snapshot, ticks: seq<Tick>)
    requires s.progress == 0.0 && 0.0 < s.rate
    requires NoTimeTravel(ticks) && |ticks| > 0 && 0.0 < ticks[0].dt
    ensures Log(s, ticks) ==
      ApplyEvents(s.kind, s.timestamp, s.colour) +
      if s.kind.Remove? && Finished(Run(s, ticks)) then [RemoveTarget(s.timestamp)] else []
  {
    var t := ticks[0];
    var s' := Next(s, t.dt, t.pending);
    if Finished(s') {
      FinishedIsInert(s', ticks[1..]);
    } else {
      QuietAfterStart(s', ticks[1..]);
    }
  }

  /** The time that passes during the ticks. */
  function Elapsed(ticks: seq<Tick>): real
    decreases |ticks|
  {
    if ticks == [] then 0.0 else ticks[0].dt + Elapsed(ticks[1..])
  }

  /** One tick moves an unfinished action at the default rate at least half of dt along, or finishes it. */
  lemma OneTickAtLeast(s: Snapshot, t: Tick)
    requires !Finished(s) && s.rate == DefaultRate && 0.0 <= t.dt
    ensures Min(1.0, s.progress + DefaultRate * t.dt) <= NextProgress(s, t.dt, t.pending)
  {
    var r := EffectiveRate(s.rate, t.pending);
    assert DefaultRate <= r;
    var slow, fast := DefaultRate * t.dt, r * t.dt;
    MulMonotone(t.dt, DefaultRate, r);
    assert slow <= fast;
    assert NextProgress(s, t.dt, t.pending) == Min(s.progress + fast, 1.0);
  }

  /**
   * However the pending counts vary, an action at the default rate has come
   * at least half the elapsed time along, or finished.
   */
  lemma {:induction false} ProgressAtLeast(s: Snapshot, ticks: seq<Tick>)
    requires 0.0 <= s.progress && s.rate == DefaultRate
    requires NoTimeTravel(ticks)
    ensures Min(1.0, s.progress + DefaultRate * Elapsed(ticks)) <= Run(s, ticks).progress
    decreases |ticks|
  {
    if ticks == [] {
    } else if Finished(s) {
      FinishedIsInert(s, ticks);
    } else {
      var t, rest := ticks[0], ticks[1..];
      var s' := Next(s, t.dt, t.pending);
      assert t in ticks;
      OneTickAtLeast(s, t);
      ProgressAtLeast(s', rest);
      if Finished(s') {
        FinishedIsInert(s', rest);
      }
    }
  }

  /** Two time units of ticks finish every action at the default rate. */
  lemma Finishes(s: Snapshot, ticks: seq<Tick>)
    requires 0.0 <= s.progress && s.rate == DefaultRate
    requires NoTimeTravel(ticks) && 2.0 <= Elapsed(ticks)
    ensures Finished(Run(s, ticks))
  {
    ProgressAtLeast(s, ticks);
  }
}
