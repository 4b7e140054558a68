/**
 * The action lifecycle: an animated beam from a user to a file that applies
 * its effect on the file when it starts and, for a removal, removes the file
 * when it finishes. Pure functions give the meaning of one tick; the class
 * Action is the mutable object the scene steps every frame.
 */
module Actions {
  import opened Geometry

  /** Which action this is; Plain is a bare RAction with the caller's colour. */
  datatype Kind = Plain | Create | Remove | Modify(modifyColour: Rgb)

  /** A call the action makes on its collaborators (the target file, the audio sink). */
  datatype Event =
    | Touch(timestamp: int, colour: Rgb)   // target->touch(timestamp, colour)
    | SetFileColour(colour: Rgb)           // target->setFileColour(colour)
    | RemoveTarget(timestamp: int)         // target->remove(timestamp)
    | Tone(pitch: int)                     // a 0.1 s tone of instrument 1 on the audio sink

  const Green := Rgb(0.0, 1.0, 0.0)
  const Red := Rgb(1.0, 0.0, 0.0)
  const Orange := Rgb(1.0, 0.7, 0.3)

  const DefaultRate: real := 0.5
  const MaxRate: real := 10.0

  const CreatePitch := 440
  const ModifyPitch := 220
  const RemovePitch := 110

  function Min(a: real, b: real): real { if a < b then a else b }

  function Max(a: real, b: real): real { if a < b then b else a }

  /** The base rate scaled by the pending count, counted as at least one. */
  function ScaledRate(rate: real, pending: int): (r: real)
    ensures 0.0 <= rate ==> rate <= r
    ensures pending <= 1 ==> r == rate
  {
    var k := Max(1.0, pending as real);
    assert 0.0 <= rate ==> rate <= rate * k by {
      if 0.0 <= rate { MulMonotone(rate, 1.0, k); }
    }
    rate * k
  }

  /**
   * The speed of one tick: the base rate scaled up by the number of actions
   * still pending on the source user, never below the base rate and never
   * above MaxRate.
   */
  function EffectiveRate(rate: real, pending: int): (r: real)
    ensures r <= MaxRate
    ensures 0.0 <= rate ==> Min(rate, MaxRate) <= r
    ensures 0.0 < rate ==> 0.0 < r
    ensures pending <= 1 ==> r == Min(rate, MaxRate)
  {
    Min(MaxRate, ScaledRate(rate, pending))
  }

  lemma MulMonotone(a: real, k1: real, k2: real)
    requires 0.0 <= a && k1 <= k2
    ensures a * k1 <= a * k2 && k1 * a <= k2 * a
  {
    assert a * k2 - a * k1 == a * (k2 - k1);
    assert k1 * a == a * k1 && k2 * a == a * k2;
  }

  /** More pending actions never slow an action down. */
  lemma EffectiveRateMonotone(rate: real, p1: int, p2: int)
    requires 0.0 <= rate && p1 <= p2
    ensures EffectiveRate(rate, p1) <= EffectiveRate(rate, p2)
  {
    var k1, k2 := Max(1.0, p1 as real), Max(1.0, p2 as real);
    var r1, r2 := ScaledRate(rate, p1), ScaledRate(rate, p2);
    assert r1 == rate * k1 && r2 == rate * k2;
    MulMonotone(rate, k1, k2);
    assert r1 <= r2;
  }

  /** With the default rate every tick runs between 0.5 and 10 units per second. */
  lemma DefaultRateBounds(pending: int)
    ensures DefaultRate <= EffectiveRate(DefaultRate, pending) <= MaxRate
    ensures pending >= 20 ==> EffectiveRate(DefaultRate, pending) == MaxRate
  {
  }

  /** The two worked rates: one pending action leaves the base rate, fifty hit the cap. */
  lemma DefaultRateExamples()
    ensures EffectiveRate(DefaultRate, 1) == 0.5
    ensures EffectiveRate(DefaultRate, 50) == 10.0
  {
  }

  /** The calls RAction::apply makes. */
  function BaseApplyEvents(timestamp: int, colour: Rgb): seq<Event>
  {
    [Touch(timestamp, colour)]
  }

  /**
   * The calls the apply of each kind makes. A creation and a removal only
   * play a tone; a modification touches the file, recolours it and plays a
   * tone, in that order.
   */
  function ApplyEvents(kind: Kind, timestamp: int, colour: Rgb): (es: seq<Event>)
    ensures (Touch(timestamp, colour) in es) <==> (kind.Plain? || kind.Modify?)
    ensures |es| > 0 && (es[|es| - 1].Tone? <==> !kind.Plain?)
    ensures forall e :: e in es ==> !e.RemoveTarget?
    ensures kind.Modify? ==>
      es[0] == Touch(timestamp, colour) && es[1] == SetFileColour(kind.modifyColour) && es[2].Tone?
  {
    match kind
    case Plain => BaseApplyEvents(timestamp, colour)
    case Create => [Tone(CreatePitch)]
    case Remove => [Tone(RemovePitch)]
    case Modify(c) => BaseApplyEvents(timestamp, colour) + [SetFileColour(c), Tone(ModifyPitch)]
  }

  /** What one tick reads and writes of an action. */
  datatype Snapshot = Snapshot(kind: Kind, timestamp: int, colour: Rgb, rate: real, progress: real)

  predicate Finished(s: Snapshot) { s.progress >= 1.0 }

  /** A tick applies the effect exactly when the action has not moved yet. */
  predicate AppliesOn(s: Snapshot) { !Finished(s) && s.progress == 0.0 }

  /** The progress after one tick of RAction::logic. */
  function NextProgress(s: Snapshot, dt: real, pending: int): (p: real)
    ensures Finished(s) ==> p == s.progress
    ensures !Finished(s) ==> p <= 1.0
    ensures !Finished(s) && 0.0 <= s.rate && 0.0 <= dt ==> s.progress <= p
    ensures !Finished(s) && 0.0 < s.rate && 0.0 < dt ==> s.progress < p
    ensures !Finished(s) && 0.0 <= s.progress && 0.0 <= s.rate && 0.0 <= dt ==> 0.0 <= p <= 1.0
    ensures !Finished(s) ==> (p == 1.0 || p == s.progress + EffectiveRate(s.rate, pending) * dt)
    ensures !Finished(s) ==> p <= s.progress + EffectiveRate(s.rate, pending) * dt
  {
    if Finished(s) then s.progress
    else
      var r := EffectiveRate(s.rate, pending);
      assert 0.0 <= s.rate && 0.0 <= dt ==> 0.0 <= r * dt;
      assert 0.0 < s.rate && 0.0 < dt ==> 0.0 < r * dt;
      Min(s.progress + r * dt, 1.0)
  }

  function Next(s: Snapshot, dt: real, pending: int): Snapshot
  {
    s.(progress := NextProgress(s, dt, pending))
  }

  /** The calls one tick of RAction::logic makes. */
  function BaseLogicEvents(s: Snapshot): seq<Event>
  {
    if AppliesOn(s) then ApplyEvents(s.kind, s.timestamp, s.colour) else []
  }

  /** Whether this tick is the one on which a removal finishes. */
  predicate RemovesOn(s: Snapshot, dt: real, pending: int)
  {
    s.kind.Remove? && !Finished(s) && Finished(Next(s, dt, pending))
  }

  /**
   * The calls one tick makes: apply's calls on a tick that starts at
   * progress 0, and for a removal the one call to remove the file on the
   * tick that finishes it, and nothing else.
   */
  function LogicEvents(s: Snapshot, dt: real, pending: int): (es: seq<Event>)
    ensures Finished(s) ==> es == []
    ensures AppliesOn(s) ==> ApplyEvents(s.kind, s.timestamp, s.colour) <= es
    ensures forall e :: e in es && !e.RemoveTarget? ==> AppliesOn(s)
    ensures !RemovesOn(s, dt, pending) ==> forall e :: e in es ==> !e.RemoveTarget?
    ensures RemovesOn(s, dt, pending) ==> |es| > 0 && es[|es| - 1] == RemoveTarget(s.timestamp)
    ensures |es| == (if AppliesOn(s) then |ApplyEvents(s.kind, s.timestamp, s.colour)| else 0) +
                    (if RemovesOn(s, dt, pending) then 1 else 0)
  {
    BaseLogicEvents(s) + if RemovesOn(s, dt, pending) then [RemoveTarget(s.timestamp)] else []
  }

  /** The alpha at the target end: opaque at the start, fading out as the action completes. */
  function TargetAlpha(progress: real): real { 1.0 - progress }

  /** The alpha at the source end: a tenth of the target end's. */
  function SourceAlpha(progress: real): real { TargetAlpha(progress) * 0.1 }

  /** Half the quad's width at the target end, across the direction n. */
  function TargetOffset(n: Vec2, size: real): Vec2 { Times(Perp(n), size * 0.5) }

  /** The narrower half-width at the source end. */
  function SourceOffset(n: Vec2, size: real): Vec2 { Times(TargetOffset(n, size), 0.3) }

  /**
   * The quad drawToVBO adds: centred on src at one end and on dest at the
   * other, as wide as the target across the unit direction n at the target
   * end and 0.3 times as wide at the source end, with the target end's alpha
   * 1 - progress and the source end's a tenth of it.
   */
  function ActionQuad(colour: Rgb, progress: real, src: Vec2, dest: Vec2, n: Vec2, size: real): (q: Quad)
    ensures q.texture == 0
    ensures Midpoint(q.v1.pos, q.v2.pos) == src && Midpoint(q.v3.pos, q.v4.pos) == dest
    ensures Minus(q.v3.pos, q.v4.pos) == Times(Perp(n), size)
    ensures Minus(q.v2.pos, q.v1.pos) == Times(Minus(q.v3.pos, q.v4.pos), 0.3)
    ensures q.v3.colour == q.v4.colour == WithAlpha(colour, 1.0 - progress)
    ensures q.v1.colour == q.v2.colour == WithAlpha(colour, q.v3.colour.a * 0.1)
    ensures q.v1.texcoord == Vec2(0.0, 0.0) && q.v2.texcoord == Vec2(0.0, 1.0)
    ensures q.v3.texcoord == Vec2(1.0, 1.0) && q.v4.texcoord == Vec2(1.0, 0.0)
  {
    var offset := TargetOffset(n, size);
    var offsetSrc := SourceOffset(n, size);
    var col1 := WithAlpha(colour, TargetAlpha(progress));
    var col2 := WithAlpha(colour, SourceAlpha(progress));
    Quad(0,
         Vertex(Minus(src, offsetSrc), col2, Vec2(0.0, 0.0)),
         Vertex(Plus(src, offsetSrc), col2, Vec2(0.0, 1.0)),
         Vertex(Plus(dest, offset), col1, Vec2(1.0, 1.0)),
         Vertex(Minus(dest, offset), col1, Vec2(1.0, 0.0)))
  }

  /** Alphas stay within [0, 1] while the action runs, the source end never more opaque. */
  lemma QuadAlphaBounds(colour: Rgb, progress: real, src: Vec2, dest: Vec2, n: Vec2, size: real)
    requires 0.0 <= progress <= 1.0
    ensures var q := ActionQuad(colour, progress, src, dest, n, size);
      0.0 <= q.v1.colour.a <= q.v3.colour.a <= 1.0
  {
  }

  /** The quad's half-width at the target end is at right angles to n and half the size long. */
  lemma OffsetGeometry(n: Vec2, size: real)
    requires Dot(n, n) == 1.0
    ensures Dot(TargetOffset(n, size), n) == 0.0
    ensures Dot(TargetOffset(n, size), TargetOffset(n, size)) == size * size / 4.0
  {
    var p := Perp(n);
    var k := size * 0.5;
    PerpGeometry(n);
    calc {
      Dot(Times(p, k), Times(p, k));
      (p.x * k) * (p.x * k) + (p.y * k) * (p.y * k);
      { assert (p.x * k) * (p.x * k) + (p.y * k) * (p.y * k) == (p.x * p.x + p.y * p.y) * (k * k); }
      Dot(p, p) * (k * k);
    }
    assert Dot(Times(p, k), n) == Dot(p, n) * k;
  }

  /**
   * An action pointing along the x axis: both ends straddle their centre
   * vertically, half the target's size at the target end and 0.15 of it at
   * the source end.
   */
  lemma AxisAlignedQuad(colour: Rgb, progress: real, src: Vec2, dest: Vec2, size: real)
    ensures var q := ActionQuad(colour, progress, src, dest, Vec2(1.0, 0.0), size);
      q.v1.pos == Vec2(src.x, src.y - 0.15 * size) && q.v2.pos == Vec2(src.x, src.y + 0.15 * size) &&
      q.v3.pos == Vec2(dest.x, dest.y + 0.5 * size) && q.v4.pos == Vec2(dest.x, dest.y - 0.5 * size)
  {
  }

  /**
   * A user at (0, 0) acting on a file of size 2 at (10, 0): the target end
   * spans (10, -1) to (10, 1), the source end (0, -0.3) to (0, 0.3).
   */
  lemma QuadExamplePositions(colour: Rgb, progress: real, src: Vec2, dest: Vec2, n: Vec2, size: real)
    requires src == Vec2(0.0, 0.0) && dest == Vec2(10.0, 0.0) && n == Vec2(1.0, 0.0) && size == 2.0
    ensures var q := ActionQuad(colour, progress, src, dest, n, size);
      q.v1.pos == Vec2(0.0, -0.3) && q.v2.pos == Vec2(0.0, 0.3) &&
      q.v3.pos == Vec2(10.0, 1.0) && q.v4.pos == Vec2(10.0, -1.0)
  {
    AxisAlignedQuad(colour, progress, src, dest, size);
  }

  /** Half done, the target end is at alpha 0.5 and the source end at 0.05. */
  lemma QuadExampleAlphas(colour: Rgb, src: Vec2, dest: Vec2, n: Vec2, size: real)
    ensures var q := ActionQuad(colour, 0.5, src, dest, n, size);
      q.v1.colour.a == q.v2.colour.a == 0.05 && q.v3.colour.a == q.v4.colour.a == 0.5
  {
  }

  /**
   * One action in flight. Its identity (kind, timestamp, colour, rate) is
   * fixed at construction; only progress changes. The source user and the
   * target file are not held: what logic reads of them (the pending count,
   * positions, size) is passed in, and what it does to them is recorded in
   * events.
   */
  class Action {
    const kind: Kind
    const timestamp: int
    /** Stored start offset; nothing in the lifecycle reads it. */
    const startDelay: real
    const colour: Rgb
    /** Only ever the default: nothing changes it after construction. */
    const rate: real := DefaultRate
    var progress: real
    ghost var events: seq<Event>

    function Snap(): Snapshot
      reads this
    {
      Snapshot(kind, timestamp, colour, rate, progress)
    }

    predicate IsFinished()
      reads this
    {
      progress >= 1.0
    }

    /** RAction::RAction: a bare action with the caller's colour. */
    constructor (timestamp: int, t: real, colour: Rgb)
      ensures kind == Plain && this.timestamp == timestamp && startDelay == t && this.colour == colour
      ensures progress == 0.0 && rate == DefaultRate && events == []
    {
      kind := Plain;
      this.timestamp := timestamp;
      startDelay := t;
      this.colour := colour;
      progress := 0.0;
      events := [];
    }

    constructor CreateAction(timestamp: int, t: real)
      ensures kind == Create && this.timestamp == timestamp && startDelay == t && colour == Green
      ensures progress == 0.0 && rate == DefaultRate && events == []
    {
      kind := Create;
      this.timestamp := timestamp;
      startDelay := t;
      colour := Green;
      progress := 0.0;
      events := [];
    }

    constructor RemoveAction(timestamp: int, t: real)
      ensures kind == Remove && this.timestamp == timestamp && startDelay == t && colour == Red
      ensures progress == 0.0 && rate == DefaultRate && events == []
    {
      kind := Remove;
      this.timestamp := timestamp;
      startDelay := t;
      colour := Red;
      progress := 0.0;
      events := [];
    }

    /** The modify colour is what the file is recoloured to; the beam itself is orange. */
    constructor ModifyAction(timestamp: int, t: real, modifyColour: Rgb)
      ensures kind == Modify(modifyColour) && this.timestamp == timestamp && startDelay == t
      ensures colour == Orange && progress == 0.0 && rate == DefaultRate && events == []
    {
      kind := Modify(modifyColour);
      this.timestamp := timestamp;
      startDelay := t;
      colour := Orange;
      progress := 0.0;
      events := [];
    }

    /** RAction::apply: touch the target with this action's time and colour. */
    method BaseApply()
      modifies this`events
      ensures events == old(events) + BaseApplyEvents(timestamp, colour)
    {
      events := events + [Touch(timestamp, colour)];
    }

    /** The apply of this action's kind. */
    method Apply()
      modifies this`events
      ensures events == old(events) + ApplyEvents(kind, timestamp, colour)
    {
      match kind
      case Plain =>
        BaseApply();
      case Create =>
        events := events + [Tone(CreatePitch)];
      case Remove =>
        events := events + [Tone(RemovePitch)];
      case Modify(c) =>
        BaseApply();
        events := events + [SetFileColour(c)];
        events := events + [Tone(ModifyPitch)];
    }

    /** RAction::logic: apply on the first tick, then advance at the effective rate, up to 1. */
    method BaseLogic(dt: real, pending: int)
      modifies this
      ensures progress == NextProgress(old(Snap()), dt, pending)
      ensures events == old(events) + BaseLogicEvents(old(Snap()))
      ensures old(progress) >= 1.0 ==> progress == old(progress) && events == old(events)
      ensures old(IsFinished()) || (0.0 <= old(progress) && 0.0 <= dt) ==> old(progress) <= progress
    {
      if progress >= 1.0 {
        return;
      }
      if progress == 0.0 {
        Apply();
      }
      var actionRate := Min(MaxRate, rate * Max(1.0, pending as real));
      progress := Min(progress + actionRate * dt, 1.0);
    }

    /** One tick; a removal also removes its target on the tick that finishes it. */
    method Logic(dt: real, pending: int)
      modifies this
      ensures Snap() == Next(old(Snap()), dt, pending)
      ensures events == old(events) + LogicEvents(old(Snap()), dt, pending)
      ensures old(progress) >= 1.0 ==> progress == old(progress) && events == old(events)
    {
      if kind.Remove? {
        var oldProgress := progress;
        BaseLogic(dt, pending);
        if oldProgress < 1.0 && progress >= 1.0 {
          events := events + [RemoveTarget(timestamp)];
        }
      } else {
        BaseLogic(dt, pending);
      }
    }

    /**
     * Adds this action's quad to the batch, unless it is finished. src and
     * dest are the user's and the file's positions, n the unit direction
     * from src to dest, size the file's size.
     */
    method DrawToVBO(buffer: QuadBuffer, src: Vec2, dest: Vec2, n: Vec2, size: real)
      modifies buffer
      ensures IsFinished() ==> buffer.quads == old(buffer.quads)
      ensures !IsFinished() ==>
        buffer.quads == old(buffer.quads) + [ActionQuad(colour, progress, src, dest, n, size)]
    {
      if IsFinished() {
        return;
      }
      var perp := Perp(n);
      var offset := Times(perp, size * 0.5);
      var offsetSrc := Times(offset, 0.3);
      var alpha := 1.0 - progress;
      var alpha2 := alpha * 0.1;
      var col1 := WithAlpha(colour, alpha);
      var col2 := WithAlpha(colour, alpha2);
      var v1 := Vertex(Minus(src, offsetSrc), col2, Vec2(0.0, 0.0));
      var v2 := Vertex(Plus(src, offsetSrc), col2, Vec2(0.0, 1.0));
      var v3 := Vertex(Plus(dest, offset), col1, Vec2(1.0, 1.0));
      var v4 := Vertex(Minus(dest, offset), col1, Vec2(1.0, 0.0));
      buffer.Add(0, v1, v2, v3, v4);
    }
  }
}
