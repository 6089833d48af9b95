/** Whole runs of the scheduler: a sequence of calls to `queueAndPresent`
    and `loafDidDismiss`, each one step of `Enqueued` or `Dismissed`. Beside
    the scheduler's own state the run tracks which toasts are on screen, so
    that "at most one toast is visible" can be stated and its precondition
    made explicit: every `loafDidDismiss` must come from a toast that is
    still on screen. The view controller does not guarantee that (a tap and
    the uncancelled timeout both dismiss), and `TapThenTimeout` shows what
    follows when it fails.
 */
module LoafRuns {
  import opened LoafCore
  import opened LoafView
  import opened LoafScheduling

  /** One call into the scheduler. `headAlive` is whether the sender of the
      toast at the head of the queue is alive when the call tries to present. */
  datatype Event<T> =
    | Submit(toast: T, headAlive: bool)
    | DidDismiss(from: T, headAlive: bool)

  /** The scheduler's state plus the toasts whose views are on screen. */
  datatype World<T> = World(sched: Sched<T>, onScreen: multiset<T>)

  /** The toast an attempt put on screen. */
  function Shown<T>(a: Attempt<T>): multiset<T> {
    if a.Presented? then multiset{a.toast} else multiset{}
  }

  /** One event: a submission enqueues; a dismissal removes the dismissed
      toast's view from the screen and advances the queue. */
  function Step<T>(w: World<T>, e: Event<T>): (World<T>, Attempt<T>) {
    match e
    case Submit(x, alive) =>
      var (s, a) := Enqueued(w.sched, x, alive);
      (World(s, w.onScreen + Shown(a)), a)
    case DidDismiss(x, alive) =>
      var (s, a) := Dismissed(w.sched, alive);
      (World(s, w.onScreen - multiset{x} + Shown(a)), a)
  }

  /** The final world of a run and the attempt each event made. */
  function Run<T>(w: World<T>, evs: seq<Event<T>>): (r: (World<T>, seq<Attempt<T>>))
    ensures |r.1| == |evs|
    decreases |evs|
  {
    if evs == [] then (w, [])
    else
      var first := Step(w, evs[0]);
      var rest := Run(first.0, evs[1..]);
      (rest.0, [first.1] + rest.1)
  }

  /** The toast an event submits, if any. */
  function SubmittedBy<T>(e: Event<T>): seq<T> {
    if e.Submit? then [e.toast] else []
  }

  /** The toasts submitted by a run, in order. */
  function Submitted<T>(evs: seq<Event<T>>): seq<T> {
    if evs == [] then [] else SubmittedBy(evs[0]) + Submitted(evs[1..])
  }

  /** The toasts a run took off the queue (presented or dropped), in order. */
  function Handled<T>(attempts: seq<Attempt<T>>): seq<T> {
    if attempts == [] then [] else Taken(attempts[0]) + Handled(attempts[1..])
  }

  /** The toasts a run presented, in order. */
  function PresentedToasts<T>(attempts: seq<Attempt<T>>): seq<T> {
    if attempts == [] then []
    else (if attempts[0].Presented? then [attempts[0].toast] else []) + PresentedToasts(attempts[1..])
  }

  /** The toasts a run dropped because their sender was gone, in order. */
  function DroppedToasts<T>(attempts: seq<Attempt<T>>): seq<T> {
    if attempts == [] then []
    else (if attempts[0].Dropped? then [attempts[0].toast] else []) + DroppedToasts(attempts[1..])
  }

  /** The scheduler's flag agrees with the screen: one toast on screen while
      presenting, none while idle. */
  ghost predicate Consistent<T>(w: World<T>) {
    |w.onScreen| == if w.sched.isPresenting then 1 else 0
  }

  /** Every dismissal in the run comes from a toast whose view is on screen at
      that moment (no view reports its dismissal twice). */
  ghost predicate DismissalsFromScreen<T>(w: World<T>, evs: seq<Event<T>>)
    decreases |evs|
  {
    evs != [] ==>
      (evs[0].DidDismiss? ==> evs[0].from in w.onScreen) &&
      DismissalsFromScreen(Step(w, evs[0]).0, evs[1..])
  }

  /** One event takes toasts off the queue only from its head and adds only
      the toast it submits, at the tail. */
  lemma StepIsFifo<T>(w: World<T>, e: Event<T>)
    ensures Taken(Step(w, e).1) + Step(w, e).0.sched.queue == w.sched.queue + SubmittedBy(e)
  {
  }

  /** The toasts taken over a nonempty list of attempts are those of the first
      attempt followed by those of the rest. */
  lemma HandledCons<T>(a: Attempt<T>, rest: seq<Attempt<T>>)
    ensures Handled([a] + rest) == Taken(a) + Handled(rest)
  {
    assert ([a] + rest)[1..] == rest;
  }

  /** Regrouping of the two halves of the FIFO equation. */
  lemma Regroup<T>(taken: seq<T>, handled: seq<T>, left: seq<T>, mid: seq<T>,
                   later: seq<T>, start: seq<T>, added: seq<T>)
    requires handled + left == mid + later
    requires taken + mid == start + added
    ensures (taken + handled) + left == start + (added + later)
  {
    calc {
      (taken + handled) + left;
      taken + (handled + left);
      taken + (mid + later);
      (taken + mid) + later;
      (start + added) + later;
    }
  }

  /** FIFO: the toasts leave the queue in exactly the order they were queued,
      and whatever has not left is still queued behind them. */
  lemma {:induction false} RunIsFifo<T>(w: World<T>, evs: seq<Event<T>>)
    ensures Handled(Run(w, evs).1) + Run(w, evs).0.sched.queue == w.sched.queue + Submitted(evs)
    decreases |evs|
  {
    if evs != [] {
      var first := Step(w, evs[0]);
      var rest := Run(first.0, evs[1..]);
      RunIsFifo(first.0, evs[1..]);
      StepIsFifo(w, evs[0]);
      HandledCons(first.1, rest.1);
      assert Run(w, evs) == (rest.0, [first.1] + rest.1);
      assert Submitted(evs) == SubmittedBy(evs[0]) + Submitted(evs[1..]);
      Regroup(Taken(first.1), Handled(rest.1), rest.0.sched.queue, first.0.sched.queue,
              Submitted(evs[1..]), w.sched.queue, SubmittedBy(evs[0]));
    }
  }

  /** `a` is `b` with some elements left out, the rest kept in order. */
  predicate IsSubseq<T(==)>(a: seq<T>, b: seq<T>)
    decreases |b|
  {
    if a == [] then true
    else if b == [] then false
    else (a[0] == b[0] && IsSubseq(a[1..], b[1..])) || IsSubseq(a, b[1..])
  }

  /** The presented toasts are the handled toasts with the dropped ones left
      out, in the same order: every toast taken off the queue is either
      presented or dropped, and presentations too follow the queue's order. */
  lemma {:induction false} PresentedAreHandled<T>(attempts: seq<Attempt<T>>)
    ensures IsSubseq(PresentedToasts(attempts), Handled(attempts))
    ensures multiset(Handled(attempts)) ==
      multiset(PresentedToasts(attempts)) + multiset(DroppedToasts(attempts))
    decreases |attempts|
  {
    HandledArePresentedOrDropped(attempts);
    PresentedInOrder(attempts);
  }

  /** Every toast taken off the queue was either presented or dropped. */
  lemma {:induction false} HandledArePresentedOrDropped<T>(attempts: seq<Attempt<T>>)
    ensures multiset(Handled(attempts)) ==
      multiset(PresentedToasts(attempts)) + multiset(DroppedToasts(attempts))
    decreases |attempts|
  {
    if attempts != [] {
      HandledArePresentedOrDropped(attempts[1..]);
    }
  }

  /** The presented toasts keep the order in which they left the queue. */
  lemma {:induction false} PresentedInOrder<T>(attempts: seq<Attempt<T>>)
    ensures IsSubseq(PresentedToasts(attempts), Handled(attempts))
    decreases |attempts|
  {
    if attempts != [] {
      var a, rest := attempts[0], attempts[1..];
      PresentedInOrder(rest);
      HandledCons(a, rest);
      assert [a] + rest == attempts;
      var p, h := PresentedToasts(rest), Handled(rest);
      if a.Presented? {
        var pa := [a.toast] + p;
        var ha := [a.toast] + h;
        assert PresentedToasts(attempts) == pa && Handled(attempts) == ha;
        assert pa[0] == ha[0] && pa[1..] == p && ha[1..] == h;
      } else if a.Dropped? {
        var ha := [a.toast] + h;
        assert PresentedToasts(attempts) == p && Handled(attempts) == ha;
        assert ha[1..] == h;
        SkipHead(p, ha);
      } else {
        assert PresentedToasts(attempts) == p && Handled(attempts) == h;
      }
    }
  }

  /** Skipping the first element of `b` keeps `a` a subsequence. */
  lemma SkipHead<T>(a: seq<T>, b: seq<T>)
    requires b != [] && IsSubseq(a, b[1..])
    ensures IsSubseq(a, b)
  {
  }

  /** One step keeps the flag in agreement with the screen, provided a
      dismissal comes from a toast on screen. */
  lemma StepKeepsConsistent<T>(w: World<T>, e: Event<T>)
    requires Consistent(w)
    requires e.DidDismiss? ==> e.from in w.onScreen
    ensures Consistent(Step(w, e).0)
  {
    match e
    case Submit(x, alive) =>
      var (s, a) := Enqueued(w.sched, x, alive);
      assert a.Presented? ==> !w.sched.isPresenting;
    case DidDismiss(x, alive) =>
      var (s, a) := Dismissed(w.sched, alive);
      assert |w.onScreen - multiset{x}| == 0;
  }

  /** At most one toast is on screen, and exactly one while the scheduler says
      it is presenting, for every run whose dismissals come from toasts on screen. */
  lemma {:induction false} RunKeepsConsistent<T>(w: World<T>, evs: seq<Event<T>>)
    requires Consistent(w)
    requires DismissalsFromScreen(w, evs)
    ensures Consistent(Run(w, evs).0)
    ensures |Run(w, evs).0.onScreen| <= 1
    decreases |evs|
  {
    if evs != [] {
      StepKeepsConsistent(w, evs[0]);
      RunKeepsConsistent(Step(w, evs[0]).0, evs[1..]);
    }
  }

  /** The five steps of the run in `TapThenTimeout`, one at a time. */
  lemma TapThenTimeoutSteps()
    ensures Step(World(Sched([], false), multiset{}), Submit(1, true)) ==
      (World(Sched([], true), multiset{1}), Presented(1))
    ensures Step(World(Sched([], true), multiset{1}), Submit(2, true)) ==
      (World(Sched([2], true), multiset{1}), Idle)
    ensures Step(World(Sched([2], true), multiset{1}), Submit(3, true)) ==
      (World(Sched([2, 3], true), multiset{1}), Idle)
    ensures Step(World(Sched([2, 3], true), multiset{1}), DidDismiss(1, true)) ==
      (World(Sched([3], true), multiset{2}), Presented(2))
    ensures Step(World(Sched([3], true), multiset{2}), DidDismiss(1, true)) ==
      (World(Sched([], true), multiset{2, 3}), Presented(3))
  {
    var noneShown: multiset<int> := multiset{};
    var empty: seq<int> := [];
    assert noneShown + multiset{1} == multiset{1} && empty + [1] == [1] && [1][1..] == empty;
    assert multiset{1} + noneShown == multiset{1};
    assert [] + [2] == [2] && [2] + [3] == [2, 3];
    assert [2, 3][1..] == [3] && [3][1..] == [];
    assert multiset{1} - multiset{1} + multiset{2} == multiset{2};
    assert multiset{2} - multiset{1} + multiset{3} == multiset{2, 3};
  }

  /** A presentation attempt tries only the head of the queue. With toasts 2
      and 3 waiting behind toast 1, if 2's sender is gone when 1 is dismissed,
      2 is dropped and 3 stays queued while nothing is on screen and the
      scheduler is idle, until the next `show`. */
  lemma DroppedHeadStallsQueue()
    ensures Step(World(Sched([2, 3], true), multiset{1}), DidDismiss(1, false)) ==
      (World(Sched([3], false), multiset{}), Dropped(2))
  {
    assert [2, 3][1..] == [3];
    assert multiset{1} - multiset{1} + multiset{} == multiset{};
  }

  /** The view controller has no double-dismissal guard. With three toasts of
      mode `All` queued, a tap on the first and then its timeout both reach the
      delegate and both call the completion handler, and the second
      `loafDidDismiss` puts the third toast on screen beside the second. */
  lemma TapThenTimeout(h: HandlerId)
    ensures Effects(All, ViewTap, true, Some(h)) == [NotifyDelegate, CallCompletion(h, All)]
    ensures Effects(All, Timeout, true, Some(h)) == [NotifyDelegate, CallCompletion(h, All)]
    ensures var start := World(Sched([], false), multiset{});
            var evs := [Submit(1, true), Submit(2, true), Submit(3, true),
                        DidDismiss(1, true), DidDismiss(1, true)];
            && !DismissalsFromScreen(start, evs)
            && Run(start, evs).1 == [Presented(1), Idle, Idle, Presented(2), Presented(3)]
            && Run(start, evs).0.onScreen == multiset{2, 3}
            && Run(start, evs).0.sched == Sched([], true)
  {
    TapThenTimeoutSteps();
    var start: World<int> := World(Sched([], false), multiset{});
    var e1, e2, e3, e4 := Submit(1, true), Submit(2, true), Submit(3, true), DidDismiss(1, true);
    var evs := [e1, e2, e3, e4, e4];
    var w1 := World(Sched([], true), multiset{1});
    var w2 := World(Sched([2], true), multiset{1});
    var w3 := World(Sched([2, 3], true), multiset{1});
    var w4 := World(Sched([3], true), multiset{2});
    var w5 := World(Sched([], true), multiset{2, 3});
    assert evs[1..] == [e2, e3, e4, e4] && [e2, e3, e4, e4][1..] == [e3, e4, e4];
    assert [e3, e4, e4][1..] == [e4, e4] && [e4, e4][1..] == [e4] && [e4][1..] == [];
    assert Run(w4, [e4]) == (w5, [Presented(3)]) by {
      var noAttempts: seq<Attempt<int>> := [];
      assert Run(w5, []) == (w5, noAttempts);
      assert [Presented(3)] + noAttempts == [Presented(3)];
    }
    assert Run(w3, [e4, e4]) == (w5, [Presented(2), Presented(3)]) by {
      assert [Presented(2)] + [Presented(3)] == [Presented(2), Presented(3)];
    }
    assert Run(w2, [e3, e4, e4]) == (w5, [Idle, Presented(2), Presented(3)]) by {
      assert [Idle] + [Presented(2), Presented(3)] == [Idle, Presented(2), Presented(3)];
    }
    assert Run(w1, [e2, e3, e4, e4]) == (w5, [Idle, Idle, Presented(2), Presented(3)]) by {
      assert [Idle] + [Idle, Presented(2), Presented(3)] == [Idle, Idle, Presented(2), Presented(3)];
    }
    assert Run(start, evs) == (w5, [Presented(1), Idle, Idle, Presented(2), Presented(3)]) by {
      assert [Presented(1)] + [Idle, Idle, Presented(2), Presented(3)] ==
        [Presented(1), Idle, Idle, Presented(2), Presented(3)];
    }
    assert 1 !in w4.onScreen;
    assert !DismissalsFromScreen(w4, [e4]);
    assert !DismissalsFromScreen(w3, [e4, e4]);
    assert !DismissalsFromScreen(w2, [e3, e4, e4]);
    assert !DismissalsFromScreen(w1, [e2, e3, e4, e4]);
  }
}
