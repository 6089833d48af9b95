# Loaf: toast scheduling and dismissal, modelled in Dafny

Loaf shows transient "toast" messages ("loaves") over an iOS screen. This
project models the part with real control flow:

- the **scheduler** (`LoafManager` with its generic `Queue`): a FIFO queue of
  toasts and an `isPresenting` flag, so that one toast is presented at a time
  and the next one follows when the current one is dismissed; toasts whose
  sender has gone away are dropped when they reach the head;
- the entry points `Loaf.show` (store duration and completion handler, then
  enqueue) and the static `Loaf.dismiss`;
- the **view controller** of one toast (`LoafViewController`): its preferred
  size, the icon and cancel-button layout chosen when its view loads, and the
  table that turns each dismissal trigger (tap, swipe, timeout, cancel button)
  into a delegate notification and, depending on the dismissal mode, a call of
  the completion handler with reason `.all` or `.interactive`;
- `Duration.length`, the timeout in seconds.

Files and modules:

- `loaf_core.dfy` — `LoafCore`: the specifiers (dismissal reason, style, state,
  duration, ...), `Length`, and the class `Loaf`.
- `loaf_view.dfy` — `LoafView`: the decision functions `PreferredSize`,
  `IconLayoutFor`, `CompletionReason`, `Effects`, and the class
  `LoafViewController`, whose methods are proved to follow them.
- `loaf_scheduling.dfy` — `LoafScheduling`: the scheduler as functions over an
  abstract state `Sched` (`TryPresent`, `Enqueued`, `Dismissed`), the classes
  `Queue` and `LoafManager` proved to follow them, `Show`, `Dismiss`, `Deliver`
  (a trigger reaching a presented view and its delegate), and a client that
  walks through "A is tapped, then B is presented".
- `loaf_runs.dfy` — `LoafRuns`: whole runs of the scheduler, the FIFO and
  one-toast-on-screen theorems, and the double-dismissal counterexample.

Inputs from the platform are parameters: the screen width, the measured
height of a message (`measure`), whether a toast's weak `sender` is still
alive (`Loaf.senderAlive`, and `headAlive` in the abstract model), and which
view the sender is presenting (`presented` in `Dismiss`). The process-wide
`LoafManager.shared` is passed explicitly.

### Behaviour of the code worth knowing

- **No double-dismissal guard.** The timeout closures
  (Sources/Loaf/LoafViewController.swift:93-98 for `.all`, :109-113 for
  `.interactive`) are never cancelled and
  nothing records that a view was already dismissed, so a tap followed by the
  timeout runs the dismissal completion twice: the delegate is told twice
  and, in mode `.all`, the completion handler is called twice. The model
  answers every trigger independently (`HandleTrigger` changes no state).
  `LoafRuns.RunKeepsConsistent` proves that one toast at most is on screen,
  and exactly one while `isPresenting` holds, only under the explicit
  assumption that every `loafDidDismiss` comes from a toast still on screen;
  `LoafRuns.TapThenTimeout` shows a run where that fails and two toasts end up
  on screen. That run relies on two things the source does not show: the
  platform running the completion of a second `dismiss(animated:)` on an
  already dismissed view, and `presentToast` (Sources/Loaf/Loaf.swift:231)
  putting the third toast on screen while the second is still up.
- **Screen ratio range.** The doc comment at Sources/Loaf/Loaf.swift:42 asks
  for a ratio between 0 and 1, and the guard at
  Sources/Loaf/LoafViewController.swift:37 accepts exactly the closed range
  [0, 1]. For a ratio outside it `init` returns early and
  `preferredContentSize` keeps its default (`PreferredSize` returns `None`).
- **Durations.** The doc comment at Sources/Loaf/Loaf.swift:128-132 says 2, 4
  and 8 seconds; `length` returns 1.5, 3 and 7 seconds, which the model uses.
- **Timeout in `.interactive` mode** dismisses without calling the completion
  handler, and `Loaf.dismiss` never calls it either.
- **A dropped head stalls the queue.** `presentIfPossible` tries only the head
  of the queue (Sources/Loaf/Loaf.swift:227). If that toast's sender is gone
  it is dropped and the call ends, so toasts behind it wait, with nothing on
  screen, until the next `show` or a stray `loafDidDismiss` (such as the
  pending timeout of the toast whose tap started the dismissal);
  `LoafRuns.DroppedHeadStallsQueue` shows the drop. `Loaf.dismiss` cannot end
  the wait, because it returns at once while nothing is presenting
  (Sources/Loaf/Loaf.swift:202).

## Model

| member | source | states |
|---|---|---|
| `LoafCore.Length` | Sources/Loaf/Loaf.swift:140-148 | a custom duration passes its interval through; the presets lie between 1.5 and 7 seconds |
| `LoafCore.PresetLengths` | Sources/Loaf/Loaf.swift:128-148 | short, average and long are 1.5, 3 and 7 seconds and strictly increase (not the 2/4/8 of the doc comment) |
| `LoafCore.Loaf.constructor` | Sources/Loaf/Loaf.swift:161-187 | a new toast keeps its message, mode, state, location and directions (defaulting to `.all`, `.info`, `.bottom`, `.vertical`, `.vertical`), has duration `.average`, no completion handler and a live sender |
| `LoafCore.Loaf.ReleaseSender` | Sources/Loaf/Loaf.swift:170 | the weak sender reference reads as gone |
| `LoafView.ScreenShare` | Sources/Loaf/LoafViewController.swift:36-38 | a ratio in [0, 1] of a non-negative screen width lies between 0 and the screen width |
| `LoafView.ShareBounds` | Sources/Loaf/LoafViewController.swift:36-38 | a ratio in [0, 1] of a non-negative width lies between 0 and that width |
| `LoafView.PreferredSize` | Sources/Loaf/LoafViewController.swift:28-43 | no size exactly when a custom ratio is outside [0, 1]; otherwise width is the fixed value, the screen share, or 280 for non-custom states, and height is max(text height + 12, 40) |
| `LoafView.IconLayoutFor` | Sources/Loaf/LoafViewController.swift:116-145 | success, warning, error and info put the icon left of the text; withCancelButton puts it right; custom uses its alignment and hides the icon exactly when it has none |
| `LoafView.CompletionReason` | Sources/Loaf/LoafViewController.swift:83-183 | the completion gets `.all` exactly for tap, swipe and timeout in mode `.all`, `.interactive` exactly for a view tap in mode `.interactive`, and nothing otherwise |
| `LoafView.Effects` | Sources/Loaf/LoafViewController.swift:93-183 | every trigger that reaches a handler tells the delegate once and first; the completion is called at most once, last, exactly when a handler is set and `CompletionReason` gives a reason |
| `LoafView.LoafViewController.constructor` | Sources/Loaf/LoafViewController.swift:23-44 | the stored preferred size is `PreferredSize` of the toast's state (unset on the early return) |
| `LoafView.LoafViewController.ViewDidLoad` | Sources/Loaf/LoafViewController.swift:50-147 | the cancel button is needed exactly in mode `.interactive`, and is visible and interactive exactly when needed; the icon layout is `IconLayoutFor` the state; the timeout is scheduled after `Length` of the duration |
| `LoafView.LoafViewController.ConstrainWithIconAlignment` | Sources/Loaf/LoafViewController.swift:186-301 | the icon is shown at the alignment or hidden, and each layout variant shows the cancel button exactly when it is needed |
| `LoafView.LoafViewController.IsButtonNeeded` | Sources/Loaf/LoafViewController.swift:303-311 | the button is opaque and interactive when needed, transparent and inert otherwise |
| `LoafView.LoafViewController.HandleTrigger` | Sources/Loaf/LoafViewController.swift:83-183 | the handler a trigger reaches in the toast's mode produces exactly `Effects`, whatever triggers came before |
| `LoafView.LoafViewController.DismissCompletion` | Sources/Loaf/LoafViewController.swift:152-155 | the dismissal completion notifies the delegate (if set) before calling the completion handler (if set) with the reason (if any) |
| `LoafScheduling.TryPresent` | Sources/Loaf/Loaf.swift:226-232 | nothing changes while presenting or on an empty queue; otherwise exactly the head leaves the queue, and it is presented (flag set) iff its sender is alive, else dropped with the flag still clear |
| `LoafScheduling.Enqueued` | Sources/Loaf/Loaf.swift:216-219 | the toast joins the tail with no queued toast moved; while presenting it only waits; when idle the head is taken |
| `LoafScheduling.Dismissed` | Sources/Loaf/Loaf.swift:221-224 | the flag is cleared, then the next queued toast (if any) is taken, and the scheduler ends presenting iff it was presented |
| `LoafScheduling.Queue.constructor` | Sources/Loaf/Loaf.swift:235-236 | a new queue is empty |
| `LoafScheduling.Queue.Enqueue` | Sources/Loaf/Loaf.swift:238-240 | the element is appended at the tail |
| `LoafScheduling.Queue.Dequeue` | Sources/Loaf/Loaf.swift:242-248 | an empty queue yields nothing and stays empty; otherwise the oldest element is returned and removed |
| `LoafScheduling.LoafManager.constructor` | Sources/Loaf/Loaf.swift:210-214 | the scheduler starts with an empty queue and not presenting |
| `LoafScheduling.LoafManager.QueueAndPresent` | Sources/Loaf/Loaf.swift:216-219 | the new state and attempt are `Enqueued` of the old state; a fresh view exists exactly when a toast is presented |
| `LoafScheduling.LoafManager.LoafDidDismiss` | Sources/Loaf/Loaf.swift:221-224 | the new state and attempt are `Dismissed` of the old state |
| `LoafScheduling.LoafManager.PresentIfPossible` | Sources/Loaf/Loaf.swift:226-232 | the new state and attempt are `TryPresent` of the old state; a presented toast gets a fresh view, sized by `PreferredSize`, with the scheduler as delegate |
| `LoafScheduling.Show` | Sources/Loaf/Loaf.swift:192-196 | the duration and handler (defaulting to `.average` and none) are stored on the toast before it is enqueued as by `Enqueued` |
| `LoafScheduling.Dismiss` | Sources/Loaf/Loaf.swift:201-207 | no effect unless presenting and a toast's view is presented; then the scheduler advances as by `Dismissed` and no completion is called |
| `LoafScheduling.Deliver` | Sources/Loaf/LoafViewController.swift:151-183 | a trigger's effects are `Effects`; the scheduler advances as by `Dismissed` exactly when the delegate is told |
| `LoafRuns.Run` | Sources/Loaf/Loaf.swift:216-232 | a run makes one attempt per call |
| `LoafRuns.StepIsFifo` | Sources/Loaf/Loaf.swift:216-232 | one call takes toasts only from the head and adds only its own toast at the tail |
| `LoafRuns.RunIsFifo` | Sources/Loaf/Loaf.swift:216-248 | over any run, the toasts taken off the queue followed by those still queued are exactly the initial queue followed by the submitted toasts, in order |
| `LoafRuns.PresentedAreHandled` | Sources/Loaf/Loaf.swift:226-232 | the presented toasts are the toasts taken off the queue with exactly the dropped ones left out, in the same order |
| `LoafRuns.HandledArePresentedOrDropped` | Sources/Loaf/Loaf.swift:226-232 | as multisets, the toasts taken off the queue are the presented ones plus the dropped ones |
| `LoafRuns.PresentedInOrder` | Sources/Loaf/Loaf.swift:226-232 | the presented toasts form a subsequence of the toasts taken off the queue, keeping their order |
| `LoafRuns.StepKeepsConsistent` | Sources/Loaf/Loaf.swift:214-232 | one call keeps "one toast on screen iff presenting", given a dismissal comes from a toast on screen |
| `LoafRuns.RunKeepsConsistent` | Sources/Loaf/Loaf.swift:214-232 | in any run whose dismissals come from toasts on screen, at most one toast is on screen, and one exactly while presenting |
| `LoafRuns.DroppedHeadStallsQueue` | Sources/Loaf/Loaf.swift:221-232 | with toasts 2 and 3 waiting, a dismissal whose head sender is gone drops 2 and leaves 3 queued, nothing on screen and the scheduler idle |
| `LoafRuns.TapThenTimeoutSteps` | Sources/Loaf/LoafViewController.swift:93-98 | the five scheduler steps of the tap-then-timeout run |
| `LoafRuns.TapThenTimeout` | Sources/Loaf/LoafViewController.swift:93-98 | a tap and the uncancelled timeout each notify the delegate and call the completion; the second `loafDidDismiss` leaves two toasts on screen |

## Left out

- Colours, fonts, text alignment, the underlining of "Настройки" in the label,
  icon images (`Loaf.Icon`, `Images.swift`) and all Auto Layout constraints:
  styling with no effect on control flow. Only the icon layout choice and the
  cancel button's visibility are kept.
- `presentToast`, `heightWithConstrainedWidth` and `UIScreen.main.bounds`:
  their code is not part of this model; the screen width and the measured text
  height are inputs, the latter a function of the message and its state.
- The transition delegate (`Manager(loaf:size:)`), presentation and dismissal
  animations, gesture-recogniser wiring and `DispatchQueue.main.asyncAfter`:
  triggers are discrete inputs, and the timeout is recorded only as its delay.
- `init?(coder:)`, which only traps.
- The `animated` argument of `Loaf.dismiss` (default `true`): animations are
  not modelled, so it has no effect on the model.
- Floating-point behaviour of `CGFloat`/`TimeInterval`: sizes and durations are
  exact reals, with no rounding.
- Weak references: the sender is a liveness flag, the delegate a flag that the
  scheduler sets, and `Loaf.dismiss` receives the sender's presented view.
- Which triggers can still reach a view once it is gone: the model lets every
  trigger run its handler again and assumes the platform then runs the
  dismissal completion of a second `dismiss(animated:)` as well.
- Location and presenting/dismissing directions are stored but only passed
  through, as in the source.
- `Package.swift`: a build manifest with no logic.
