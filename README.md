# Gource action lifecycle, modelled in Dafny

Gource animates each commit event as an *action*: a beam from the committing
user to the file that fades as the action plays out. This project models the
action lifecycle of `src/action.cpp`. One field, `progress`, changes in
place. Each frame the scene calls `logic(dt)`. On every tick that starts
at `progress == 0` the action runs its `apply` effect. A tick with `dt = 0`
leaves progress at 0, so apply runs again on the next tick. Apply runs
exactly once, on the first tick, when every tick has `dt > 0`. The action
then advances `progress` at a rate scaled by the user's pending-action count,
capped at 10, and clamps it to 1. A `RemoveAction` also removes its file on
the tick that finishes it. `drawToVBO` adds the beam's quad to the frame's
batch.

- `geometry.dfy`, module `Geometry`: plane vectors, colours, vertices,
  quads, and the caller-owned quad batch (`QuadBuffer`, a sequence of quads).
- `action.dfy`, module `Actions`: the pure meaning of one tick and of the
  drawn quad, and the class `Action`, whose methods update `progress` in
  place.
  - `NextProgress` gives the progress after one tick; `Next` the whole state.
  - `LogicEvents` gives the calls one tick makes; `ApplyEvents` the calls
    each kind's apply makes; `ActionQuad` the quad.
  - The three subclasses are one `Kind` tag: `Plain` for a bare `RAction`,
    plus `Create`, `Remove` and `Modify(modifyColour)`. `Apply`
    dispatches on it with a single match; `Logic` tests `kind.Remove?`.
  - The calls an action makes on its file and on the audio sink are recorded
    in the ghost sequence `events`: `Touch(ts, colour)`, `SetFileColour(c)`,
    `RemoveTarget(ts)` and `Tone(pitch)`.
- `lifecycle.dfy`, module `Lifecycle`: whole lives of an action, as
  sequences of ticks. `Run` gives the final state and `Log` every call made.
  The lemmas cover monotone progress and removal at most once. They show
  that apply runs on every tick that starts at progress 0, and on the first
  tick only when every tick has `dt > 0`. For a life that starts at
  progress 0 and whose first tick has `dt > 0` they give the complete event
  log. They also show that two time units of ticks finish every action.

Inputs that the source reads from collaborators are parameters. `logic`
takes the source user's pending count. `drawToVBO` takes the positions of
the user and the file, the unit direction `n` between them, and the file's
size.

Notes on the code as written:
- `RemoveAction::apply` only plays a tone. It does not touch the file
  (src/action.cpp:173-175).
- `logic` has no guard against a negative `dt`. The model does not clamp
  `dt`, and the monotonicity results assume `dt >= 0`.
- The stored start offset `t` is kept (`Action.startDelay`). Nothing reads
  it.

## Model

| member | source | states |
|---|---|---|
| Actions.Action.constructor | src/action.cpp:23-25 | a new bare action has the caller's timestamp, delay and colour, progress 0, rate 0.5 and has made no calls |
| Actions.Action.CreateAction | src/action.cpp:141-143 | a creation is green, starts at progress 0 with rate 0.5 |
| Actions.Action.RemoveAction | src/action.cpp:145-147 | a removal is red, starts at progress 0 with rate 0.5 |
| Actions.Action.ModifyAction | src/action.cpp:159-161 | a modification is orange (1, 0.7, 0.3) and keeps the colour the file is recoloured to |
| Actions.Action.BaseApply | src/action.cpp:64-66 | the base apply makes exactly one call: touch the file with the action's timestamp and colour |
| Actions.ApplyEvents | src/action.cpp:163-175 | apply touches the file exactly for a bare action and a modification; every kind except the bare one ends with a tone; no apply removes; a modification touches, then recolours, then plays a tone |
| Actions.Action.Apply | src/action.cpp:163-175 | running apply appends exactly the calls `ApplyEvents` gives for the action's kind |
| Actions.ScaledRate | src/action.cpp:75 | the rate scaled by the pending count is never below the base rate, and equals it for a pending count of at most one |
| Actions.EffectiveRate | src/action.cpp:75 | the effective rate is at most 10, at least min(rate, 10), positive for a positive rate, and min(rate, 10) for a pending count of at most one |
| Actions.EffectiveRateMonotone | src/action.cpp:75 | more pending actions never give a lower rate |
| Actions.DefaultRateBounds | src/action.cpp:75 | at rate 0.5 the effective rate lies in [0.5, 10] for every pending count, and is 10 from 20 pending on |
| Actions.DefaultRateExamples | src/action.cpp:75 | at rate 0.5, one pending action gives 0.5 and fifty give 10 |
| Actions.NextProgress | src/action.cpp:68-78 | a finished action's progress is unchanged; otherwise the new progress is the smaller of 1 and old + rate·dt; for dt ≥ 0 it does not decrease and stays in [0, 1]; for dt > 0 and a positive rate it strictly increases |
| Actions.Action.BaseLogic | src/action.cpp:68-78 | the new progress is `NextProgress` of the old state; the calls made are apply's exactly when progress was 0 at entry; a finished action changes nothing and calls nothing |
| Actions.LogicEvents | src/action.cpp:149-157 | a finished action makes no calls; a tick starting at progress 0 begins with apply's calls; every other call is a removal; a removal is made exactly on a removal's tick from below 1 to at least 1, and it comes last; the tick makes no other calls: its length is apply's calls (when progress was 0) plus one (when it removes) |
| Actions.Action.Logic | src/action.cpp:149-157 | one tick moves the action to `Next` of its old state and appends exactly `LogicEvents`; a finished action is untouched |
| Actions.ActionQuad | src/action.cpp:88-105 | the quad is centred on the user at one end and on the file at the other; it is the file's size wide across n at the file end and 0.3 times that at the user end; the file end has alpha 1 − progress, the user end a tenth of that; the texture square is (0,0), (0,1), (1,1), (1,0) on texture 0 |
| Actions.Action.DrawToVBO | src/action.cpp:80-106 | a finished action adds nothing; otherwise exactly one quad, `ActionQuad` of the current state, is appended to the batch |
| Actions.QuadAlphaBounds | src/action.cpp:94-98 | while progress is in [0, 1], both alphas are in [0, 1] and the user end is never more opaque than the file end |
| Geometry.PerpGeometry | src/action.cpp:89 | the perpendicular is at right angles to n and as long as n |
| Actions.OffsetGeometry | src/action.cpp:91 | for a unit n, the file-end half-width is perpendicular to n and half the file's size long |
| Actions.AxisAlignedQuad | src/action.cpp:100-103 | for n = (1, 0), the file end spans dest ± (0, size/2) and the user end src ± (0, 0.15·size) |
| Actions.QuadExamplePositions | src/action.cpp:100-103 | from (0,0) to a size-2 file at (10,0), the file end is at (10, ±1) and the user end at (0, ±0.3) |
| Actions.QuadExampleAlphas | src/action.cpp:94-98 | half done, the file end has alpha 0.5 and the user end 0.05 |
| Lifecycle.RunKeepsIdentity | src/action.cpp:77 | ticks change only progress: kind, timestamp, colour and rate stay as constructed |
| Lifecycle.FinishedIsInert | src/action.cpp:69 | once progress is at least 1, any number of ticks leave the action unchanged and make no calls |
| Lifecycle.ProgressMonotone | src/action.cpp:75-77 | over any ticks with dt ≥ 0, progress starting in [0, 1] never decreases and stays at most 1 |
| Lifecycle.RemovalAtMostOnce | src/action.cpp:149-157 | over any ticks, even with negative dt, the file's removal is requested at most once |
| Lifecycle.AppliesOnlyWhileUnmoved | src/action.cpp:71-73 | with dt ≥ 0 and a positive rate, apply runs on tick i exactly when progress started at 0 and every earlier tick had dt = 0 |
| Lifecycle.AppliesOnFirstTickOnly | src/action.cpp:71-75 | when every tick has dt > 0, apply runs on the first tick and on no other |
| Lifecycle.QuietAfterStart | src/action.cpp:149-157 | once progress is positive, the only call left is a removal's single removal, on the tick that finishes it |
| Lifecycle.LifetimeLog | src/action.cpp:68-78 | starting at progress 0 with a first tick of dt > 0, the whole life's calls are exactly apply's calls, followed by one removal when a removal finishes |
| Lifecycle.OneTickAtLeast | src/action.cpp:75-77 | at the default rate, one tick moves an unfinished action at least dt/2 along, or finishes it |
| Lifecycle.ProgressAtLeast | src/action.cpp:75-77 | at the default rate, whatever the pending counts, progress after some ticks is at least min(1, start + elapsed/2) |
| Lifecycle.Finishes | src/action.cpp:75-77 | at the default rate, two time units of ticks finish every action |

## Left out

- `csoundPerform` (src/action.cpp:27-62) drives the Csound audio library, which is not part of this model. A call to it is the recorded event `Tone(pitch)`, with the pitch of its score line (440, 220 or 110). The fixed instrument, start time and 0.1 s duration of the score are not recorded.
- `RAction::draw` (src/action.cpp:108-139) is immediate-mode OpenGL. It draws the same quad as `drawToVBO`, which is modelled.
- The direction `normalise(dest - src)` is an input `n`. The model does not compute a square root, and it invents no fallback for a user and file at the same position.
- Floating point: progress, rates, alphas and positions are reals. Single-precision rounding is not modelled, nor the double-precision intermediate of the alpha. Neither is a tick so short that `progress + rate*dt` rounds back to 0 and apply runs again.
- The source user and the target file (`RUser`, `RFile`, `getPendingActionCount`, `getPos`, `getAbsolutePos`, `getSize`, `touch`, `remove`, `setFileColour`) are not part of this model. What the action reads from them is a parameter, and what it calls on them is an event in `events`. The quad batch is a sequence of quads.
- `Action.rate` is a constant 0.5; nothing in the modelled source changes it after construction.
- Lifecycle.OneTickAtLeast, Lifecycle.ProgressAtLeast and Lifecycle.Finishes are stated only for the default rate 0.5 that every action has; a general rate would make these bounds products of two unknowns.
