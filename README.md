# Motion default animator — a Dafny model

This project models the default animator of the Motion transition library
(`Sources/Animator/MotionDefaultAnimator.swift`). It has two parts:

* **`Duration`** (`duration.dfy`) models `UIView.optimizedDuration(fromPosition:toPosition:size:transform:)`.
  This is the heuristic that turns how far a view moves and resizes into an animation duration.
  * A missing target position, size or transform defaults to the view's current one.
  * Both positions are shifted by where the origin lands under their transforms, and both sizes are transformed.
  * The movement is the distance between the two positions plus the distance between the two sizes.
  * The movement is clamped to `[0, 500]` and divided by 3000, and 0.208 s is added.
* **`Animator`** (`animator.dfy`) models the class `MotionDefaultAnimator`.
  * It keeps at most one per-view animation context in `viewContexts`. A context is the object of the generic `ViewContext` type, which is an external animation driver.
  * `animate(fromViews:toViews:)` builds and starts a context for every view. It starts the to-views first when `insertToViewFirst` is set, and the from-views first otherwise. It returns the longest duration in the map.
  * `seekTo` fans out to every context.
  * `resume` fans out to every context and returns the longest duration reported afterwards.
  * `apply` forwards to one view's context.
  * `clean` cleans every context, empties the map and resets the flag.

In the class `Animator.DefaultAnimator`:

* A context is a value `ViewContext(id, target, duration)`. Its identity `id` is drawn from a construction counter, `constructed`. Replacing a view's context is therefore visible.
* Every call the animator makes on a context (start, seek, resume, apply, clean) is appended to a ghost `log`, in order. This makes three things statable:
  * the order of starts;
  * "each context exactly once" for the fan-outs;
  * "nothing else is called".
* The behaviour of the context implementation is a `Driver` record of functions:
  * the duration a context reports when started, which also depends on the construction (its identity), since the source computes it from a fresh snapshot and the view's geometry at that moment;
  * the duration it reports after a resume;
  * its static `canAnimate`.
* The transition context's per-view target states are a map, `targets`.
* The invariant `Valid` says two things:
  * every stored context was constructed by this animator;
  * no two views share a context.

Geometry is abstract (`Duration.Geometry`): the point and size transforms and the distance are parameters. The properties that need a genuine distance (zero on equal points, never negative) require `IsDistance`.

Where the code and its own comment disagree, the model follows the code:

* The comment at line 48 says the duration runs from 0.2 s to 0.375 s.
* The code gives exactly 0.208 s for no movement and 0.208 + 1/6 s (about 0.3747 s) at the cap. `Duration.BandEndPoints` states both figures.

`animate` takes its maximum over the whole map after starting. Contexts left over from earlier calls are included, and so is the initial 0. `Animator.DefaultAnimator.Animate` states exactly that.

## Model

| member | source | states |
|---|---|---|
| Duration.Clamp | Sources/Animator/MotionDefaultAnimator.swift:49 | the clamped value lies in `[lo, hi]`; it is `lo` below the band, `hi` above it, and the input itself inside it |
| Duration.DurationFor | Sources/Animator/MotionDefaultAnimator.swift:48-50 | the duration lies between 0.208 s and 0.208 + 500/3000 s; it is exactly the base for no (or negative) movement and exactly the longest duration from 500 points on |
| Duration.OptimizedDuration | Sources/Animator/MotionDefaultAnimator.swift:32-51 | whatever the geometry, the optimized duration lies between 0.208 s and 0.208 + 1/6 s |
| Duration.BandEndPoints | Sources/Animator/MotionDefaultAnimator.swift:48-49 | the duration is exactly 0.208 at movement 0 and exactly 0.208 + 1/6 at movement 500, which is below the 0.375 the comment gives |
| Duration.DurationLinear | Sources/Animator/MotionDefaultAnimator.swift:49 | inside `[0, 500]` the duration grows by exactly movement/3000 |
| Duration.DurationStrictlyIncreasing | Sources/Animator/MotionDefaultAnimator.swift:49 | inside `[0, 500]` more movement gives a strictly longer duration |
| Duration.DurationMonotonic | Sources/Animator/MotionDefaultAnimator.swift:49 | more movement never gives a shorter duration; the duration is constant below 0 and from 500 on |
| Duration.Movement | Sources/Animator/MotionDefaultAnimator.swift:33-46 | the movement is the position distance plus the size distance after each missing target (position, size, transform) defaults to the current value; with a genuine distance it is never negative, and it is 0 when every target is missing or equal to the current value |
| Duration.NoChangeGivesBaseDuration | Sources/Animator/MotionDefaultAnimator.swift:33-49 | when position, size and transform are absent or equal to the current ones, the movement is 0 and the duration is exactly 0.208 s |
| Animator.MaxDuration | Sources/Animator/MotionDefaultAnimator.swift:99-101 | the result is the larger of 0 and every context's duration: at least each of them, non-negative, and equal to one of them unless it is 0 |
| Animator.MaxOverUnique | Sources/Animator/MotionDefaultAnimator.swift:69-74 | that maximum is unique, so any two computations of it agree whatever the iteration order |
| Animator.NewContext | Sources/Animator/MotionDefaultAnimator.swift:108-110 | a context built for a view carries the identity handed to it and the view's target state; its duration is what the context implementation reports for that construction once started, so a rebuilt context may report a different duration |
| Animator.Resumed | Sources/Animator/MotionDefaultAnimator.swift:71 | resuming keeps the context's identity and target state; only the duration it reports changes |
| Animator.VisitOrder | Sources/Animator/MotionDefaultAnimator.swift:91-97 | the start order holds one visit per from-view and to-view; every appearing visit is of a to-view and every disappearing visit of a from-view |
| Animator.AppearingFirstIffFlag | Sources/Animator/MotionDefaultAnimator.swift:91-97 | in the start order, an appearing view comes before a disappearing one exactly when `insertToViewFirst` is set |
| Animator.ViewsOfVisitOrder | Sources/Animator/MotionDefaultAnimator.swift:91-97 | the views started are exactly the from-views and the to-views |
| Animator.StartAll | Sources/Animator/MotionDefaultAnimator.swift:92-96 | the map after starting a run of views, each storing a new context with the next identity; starting never removes a view's entry |
| Animator.StartEvents | Sources/Animator/MotionDefaultAnimator.swift:106-110 | the calls a run of starts makes: one start per visit, in order, on the context with identity `firstId + k` for the visit at index `k` |
| Animator.StartAllKeys | Sources/Animator/MotionDefaultAnimator.swift:106-111 | after starting a run of views, the map's keys are the old keys plus every started view |
| Animator.StartAllLastWins | Sources/Animator/MotionDefaultAnimator.swift:108-109 | a view started more than once keeps the context of its last start, built from its declared target with that start's identity |
| Animator.StartAllElsewhere | Sources/Animator/MotionDefaultAnimator.swift:109 | a view that is not started keeps its old context, or stays without one |
| Animator.StartAllAppend | Sources/Animator/MotionDefaultAnimator.swift:91-97 | starting one run of views and then another is the same as starting their concatenation |
| Animator.StartAllDistinct | Sources/Animator/MotionDefaultAnimator.swift:108-109 | starting contexts with fresh identities keeps every context constructed by the animator and keeps views from sharing one |
| Animator.StartEventsAppend | Sources/Animator/MotionDefaultAnimator.swift:91-97 | the calls logged by two consecutive runs are those of their concatenation |
| Animator.StartInOrder | Sources/Animator/MotionDefaultAnimator.swift:91-97 | for either value of the flag, the two loops together leave the map that starting the views in the flag's order leaves |
| Animator.StartEventsInOrder | Sources/Animator/MotionDefaultAnimator.swift:91-97 | for either value of the flag, the two loops together log one start per view, in the flag's order |
| Animator.StartInOrderFrame | Sources/Animator/MotionDefaultAnimator.swift:88-97 | after the two loops the keys are the old keys plus the from- and to-views, and every other view keeps its context |
| Animator.FannedOutStep | Sources/Animator/MotionDefaultAnimator.swift:63-65 | logging the call on one more view keeps "each context called exactly once, and no other" |
| Animator.ResumeStep | Sources/Animator/MotionDefaultAnimator.swift:70-73 | resuming one more context keeps the other contexts as they were and keeps the running maximum correct |
| Animator.ResumedAll | Sources/Animator/MotionDefaultAnimator.swift:70-73 | once every context is resumed, each is its resumed old self, and identities stay distinct |
| Animator.DefaultAnimator.constructor | Sources/Animator/MotionDefaultAnimator.swift:57-60 | a new animator has no contexts, the flag is off, and nothing has been called |
| Animator.DefaultAnimator.SeekTo | Sources/Animator/MotionDefaultAnimator.swift:62-66 | seek is called exactly once on every context and on nothing else; the map is unchanged |
| Animator.DefaultAnimator.Resume | Sources/Animator/MotionDefaultAnimator.swift:68-75 | resume is called exactly once on every context; the keys stay the same; each context reports its resumed duration; the result is the larger of 0 and those durations |
| Animator.DefaultAnimator.Apply | Sources/Animator/MotionDefaultAnimator.swift:77-81 | apply is called once on the view's context when it has one, and nothing is called otherwise |
| Animator.DefaultAnimator.CanAnimate | Sources/Animator/MotionDefaultAnimator.swift:83-86 | false for a view without a declared target state, otherwise exactly the context implementation's verdict on that state |
| Animator.DefaultAnimator.AnimateView | Sources/Animator/MotionDefaultAnimator.swift:106-111 | a new context with the next identity, built from the view's declared target, replaces the view's entry and is started once |
| Animator.DefaultAnimator.AnimateEach | Sources/Animator/MotionDefaultAnimator.swift:92-96 | one loop of `animate(view:appearing:)` leaves the map and the log of starting those views in order, with consecutive identities |
| Animator.DefaultAnimator.Animate | Sources/Animator/MotionDefaultAnimator.swift:88-104 | the map and the log are those of starting the views in the flag's order; the keys grow by exactly the views passed; every other context is untouched; identities stay distinct; the result is the larger of 0 and every duration in the map |
| Animator.DefaultAnimator.Clean | Sources/Animator/MotionDefaultAnimator.swift:113-119 | clean is called exactly once on every context present and on nothing else (nothing at all on an empty map); the map ends empty and the flag off |

## Left out

- The presentation layer: the current size and transform of the view's layer (its presentation layer when there is one, otherwise the model layer) are an input, `LayerState`.
- The geometry of `CATransform3D`, `CGPoint.transform`, `CGSize.transform` and `distance` is abstract: functions supplied in `Geometry`. Only the two distance facts that `IsDistance` names are assumed of them.
- Floating point: `CGFloat` and `TimeInterval` are modelled as exact reals, so 0.208 + 1/6 is exact.
- `context.snapshotView(for:)` is not modelled. A context is built from the view and its target state only.
- The internals of the per-view context (its animations, and what seek, apply and clean do inside it) are external. Only the calls are recorded. Seek, apply and clean are taken not to change the duration a context reports.
- The weak reference to the transition context is taken to be present. Its per-view target states are the map `targets`. It does not change while the animator runs.
- Animator.DefaultAnimator.Animate: requires every view to have a declared target state, because the source force-unwraps `context[view]!` and traps otherwise. The trap itself is not modelled. `StartAll` skips undeclared views only so that it is a total function.
- Dictionary iteration order is unspecified in the source, so the fan-outs pick an arbitrary next view. The contracts hold for every order. The order of seeks, resumes and cleans among contexts is not pinned down.
- A context replaced in the map by a later `animate(view:appearing:)` is never cleaned. The log shows this, but no lemma states it.
- The `HasInsertOrder` protocol and the `MotionAnimator` conformance are not modelled separately. The flag is a field of the class.
