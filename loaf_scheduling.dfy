/** The one-at-a-time presentation scheduler: a FIFO queue of toasts and a
    flag saying whether one is on screen, plus the two public entry points
    that feed it (`show`, which enqueues a toast, and the static `dismiss`).

    The abstract behaviour is stated once, as functions over `Sched`; the
    `LoafManager` and `Queue` classes update their fields in place and are
    proved to follow those functions. The process-wide `shared` manager is
    passed explicitly.
 */
module LoafScheduling {
  import opened LoafCore
  import opened LoafView

  /** The scheduler's abstract state: the waiting toasts, oldest first, and
      whether a toast is being presented. */
  datatype Sched<T> = Sched(queue: seq<T>, isPresenting: bool)

  /** What one presentation attempt did: nothing, presented the head of the
      queue, or dropped the head because its sender was gone. */
  datatype Attempt<T> = Idle | Presented(toast: T) | Dropped(toast: T)

  /** The toasts an attempt took off the queue. */
  function Taken<T>(a: Attempt<T>): seq<T> {
    if a.Idle? then [] else [a.toast]
  }

  /** `presentIfPossible`: only when idle and the queue is not empty, take the
      head; present it if its sender is alive (`headAlive`), else drop it and
      stay idle. No later toast is tried in the same call. */
  function TryPresent<T>(s: Sched<T>, headAlive: bool): (r: (Sched<T>, Attempt<T>))
    ensures Taken(r.1) + r.0.queue == s.queue
    ensures r.1.Idle? <==> s.isPresenting || s.queue == []
    ensures r.1.Idle? ==> r.0 == s
    ensures r.1.Presented? <==> !s.isPresenting && s.queue != [] && headAlive
    ensures r.0.isPresenting <==> s.isPresenting || r.1.Presented?
  {
    if s.isPresenting || s.queue == [] then (s, Idle)
    else if headAlive then (Sched(s.queue[1..], true), Presented(s.queue[0]))
    else (Sched(s.queue[1..], false), Dropped(s.queue[0]))
  }

  /** `queueAndPresent`: the toast goes to the tail, nothing already queued
      moves, and a presentation is then attempted; while a toast is on screen
      the new one only waits. */
  function Enqueued<T>(s: Sched<T>, toast: T, headAlive: bool): (r: (Sched<T>, Attempt<T>))
    ensures Taken(r.1) + r.0.queue == s.queue + [toast]
    ensures s.isPresenting ==> r == (Sched(s.queue + [toast], true), Idle)
    ensures !s.isPresenting ==> !r.1.Idle? && Taken(r.1) == [(s.queue + [toast])[0]]
  {
    TryPresent(Sched(s.queue + [toast], s.isPresenting), headAlive)
  }

  /** `loafDidDismiss`: the scheduler becomes idle and then tries the next
      toast, so it ends presenting exactly when that attempt presented one. */
  function Dismissed<T>(s: Sched<T>, headAlive: bool): (r: (Sched<T>, Attempt<T>))
    ensures Taken(r.1) + r.0.queue == s.queue
    ensures r.0.isPresenting <==> r.1.Presented?
    ensures r.1.Idle? <==> s.queue == []
  {
    TryPresent(Sched(s.queue, false), headAlive)
  }

  /** Whether the head of a queue of toasts still has a live sender. */
  predicate HeadAlive(q: seq<Loaf>)
    reads if q == [] then {} else {q[0]}
  {
    q != [] && q[0].senderAlive
  }

  /** A generic FIFO queue over a growable array (`array` in the source). */
  class Queue<T> {
    var elements: seq<T>

    constructor ()
      ensures elements == []
    {
      elements := [];
    }

    method Enqueue(element: T)
      modifies this
      ensures elements == old(elements) + [element]
    {
      elements := elements + [element];
    }

    /** Removes and returns the oldest element; on an empty queue returns
        `None` and leaves the queue as it was. */
    method Dequeue() returns (r: Option<T>)
      modifies this
      ensures old(elements) == [] ==> r == None && elements == old(elements)
      ensures old(elements) != [] ==> r == Some(old(elements)[0]) && elements == old(elements)[1..]
    {
      if elements == [] {
        return None;
      } else {
        r := Some(elements[0]);
        elements := elements[1..];
      }
    }
  }

  /** The view a presentation attempt created: one exactly when a toast was
      presented, showing that toast, sized for it, with this scheduler as its
      delegate and its view not yet loaded. */
  ghost predicate ShowsPresented(vc: LoafViewController?, attempt: Attempt<Loaf>,
                                 screenWidth: real, measure: (string, State) -> real)
    reads vc
  {
    (vc != null <==> attempt.Presented?) &&
    (vc != null ==>
      vc.loaf == attempt.toast && vc.delegateAttached &&
      vc.preferredContentSize ==
        PreferredSize(vc.loaf.state, screenWidth, measure(vc.loaf.message, vc.loaf.state)) &&
      vc.iconLayout == None && vc.timeoutAfter == None)
  }

  /** The scheduler. `screenWidth` and `measure` (the platform's height of a
      message set in the font its state selects, at a width of 240 points) are
      what the view controller it creates needs from the host. */
  class LoafManager {
    const queue: Queue<Loaf>
    var isPresenting: bool
    const screenWidth: real
    const measure: (string, State) -> real

    ghost function Abstract(): Sched<Loaf>
      reads this, queue
    {
      Sched(queue.elements, isPresenting)
    }

    constructor (screenWidth: real, measure: (string, State) -> real)
      ensures fresh(queue) && Abstract() == Sched([], false)
      ensures this.screenWidth == screenWidth && this.measure == measure
    {
      queue := new Queue<Loaf>();
      isPresenting := false;
      this.screenWidth := screenWidth;
      this.measure := measure;
    }

    method QueueAndPresent(loaf: Loaf) returns (attempt: Attempt<Loaf>, vc: LoafViewController?)
      modifies this, queue
      ensures (Abstract(), attempt) == Enqueued(old(Abstract()), loaf, HeadAlive(old(queue.elements) + [loaf]))
      ensures vc != null ==> fresh(vc)
      ensures ShowsPresented(vc, attempt, screenWidth, measure)
    {
      queue.Enqueue(loaf);
      attempt, vc := PresentIfPossible();
    }

    /** The delegate callback every dismissal of the presented view makes. */
    method LoafDidDismiss() returns (attempt: Attempt<Loaf>, vc: LoafViewController?)
      modifies this, queue
      ensures (Abstract(), attempt) == Dismissed(old(Abstract()), HeadAlive(old(queue.elements)))
      ensures vc != null ==> fresh(vc)
      ensures ShowsPresented(vc, attempt, screenWidth, measure)
    {
      isPresenting := false;
      attempt, vc := PresentIfPossible();
    }

    method PresentIfPossible() returns (attempt: Attempt<Loaf>, vc: LoafViewController?)
      modifies this, queue
      ensures (Abstract(), attempt) == TryPresent(old(Abstract()), HeadAlive(old(queue.elements)))
      ensures vc != null ==> fresh(vc)
      ensures ShowsPresented(vc, attempt, screenWidth, measure)
    {
      vc := null;
      if isPresenting {
        return Idle, null;
      }
      var next := queue.Dequeue();
      if next.None? {
        return Idle, null;
      }
      var loaf := next.value;
      if !loaf.senderAlive {
        return Dropped(loaf), null;
      }
      isPresenting := true;
      vc := new LoafViewController(loaf, screenWidth, measure(loaf.message, loaf.state));
      vc.delegateAttached := true;
      attempt := Presented(loaf);
    }
  }

  /** `Loaf.show`: store the duration and the completion handler on the toast,
      then hand it to the scheduler. Omitted, they default to `Average` and no
      handler. */
  method Show(loaf: Loaf, manager: LoafManager, duration: Duration := Average,
              completionHandler: Option<HandlerId> := None)
    returns (attempt: Attempt<Loaf>, vc: LoafViewController?)
    modifies loaf`duration, loaf`completionHandler, manager, manager.queue
    ensures loaf.duration == duration && loaf.completionHandler == completionHandler
    ensures (manager.Abstract(), attempt) ==
      Enqueued(old(manager.Abstract()), loaf, HeadAlive(old(manager.queue.elements) + [loaf]))
    ensures vc != null ==> fresh(vc)
    ensures ShowsPresented(vc, attempt, manager.screenWidth, manager.measure)
  {
    loaf.duration := duration;
    loaf.completionHandler := completionHandler;
    attempt, vc := manager.QueueAndPresent(loaf);
  }

  /** The static `Loaf.dismiss`: nothing happens unless the scheduler is
      presenting and the sender's presented view is a toast's view; then that
      view is dismissed and only its delegate is told (the toast's completion
      handler is not called). `presented` is the sender's presented view when
      it is a toast's view. */
  method Dismiss(manager: LoafManager, presented: LoafViewController?)
    returns (attempt: Attempt<Loaf>, vc: LoafViewController?)
    modifies manager, manager.queue
    ensures !old(manager.isPresenting) || presented == null || !presented.delegateAttached ==>
      manager.Abstract() == old(manager.Abstract()) && attempt == Idle && vc == null
    ensures old(manager.isPresenting) && presented != null && presented.delegateAttached ==>
      (manager.Abstract(), attempt) == Dismissed(old(manager.Abstract()), HeadAlive(old(manager.queue.elements)))
    ensures vc != null ==> fresh(vc)
    ensures ShowsPresented(vc, attempt, manager.screenWidth, manager.measure)
  {
    if !manager.isPresenting {
      return Idle, null;
    }
    if presented == null {
      return Idle, null;
    }
    if presented.delegateAttached {
      attempt, vc := manager.LoafDidDismiss();
    } else {
      attempt, vc := Idle, null;
    }
  }

  /** A trigger reaching a presented view: its dismissal completion tells the
      delegate (the scheduler) first, which advances the queue, and then calls
      the completion handler. No state records that the view was already
      dismissed, so a second trigger for the same view advances the queue again. */
  method Deliver(manager: LoafManager, view: LoafViewController, t: Trigger)
    returns (effects: seq<Effect>, attempt: Attempt<Loaf>, vc: LoafViewController?)
    modifies manager, manager.queue
    ensures effects == Effects(view.loaf.dismissalReason, t, view.delegateAttached,
                               view.loaf.completionHandler)
    ensures NotifyDelegate !in effects ==>
      manager.Abstract() == old(manager.Abstract()) && attempt == Idle && vc == null
    ensures NotifyDelegate in effects ==>
      (manager.Abstract(), attempt) == Dismissed(old(manager.Abstract()), HeadAlive(old(manager.queue.elements)))
    ensures vc != null ==> fresh(vc)
    ensures ShowsPresented(vc, attempt, manager.screenWidth, manager.measure)
  {
    effects := view.HandleTrigger(t);
    if NotifyDelegate in effects {
      attempt, vc := manager.LoafDidDismiss();
    } else {
      attempt, vc := Idle, null;
    }
  }

  /** A client: toast A (all defaults, shown short with a handler) and toast B
      (mode `Interactive`, shown with the defaults) are shown while idle. A is
      presented at once and B waits; a tap on A calls A's completion with `All`
      and presents B. */
  method TapOnFirstPresentsSecond(screenWidth: real, measure: (string, State) -> real)
  {
    var manager := new LoafManager(screenWidth, measure);
    var a := new Loaf("A");
    assert a.dismissalReason == All && a.state == Info && a.location == Bottom;
    assert a.presentingDirection == Vertical && a.dismissingDirection == Vertical;
    var b := new Loaf("B", Interactive);
    var attempt, viewA := Show(a, manager, Short, Some(1));
    assert attempt == Presented(a) && viewA != null;
    assert manager.Abstract() == Sched([], true);
    var attemptB, none := Show(b, manager);
    assert b.duration == Average && b.completionHandler == None;
    assert attemptB == Idle && none == null;
    assert manager.Abstract() == Sched([b], true);
    viewA.ViewDidLoad();
    assert viewA.timeoutAfter == Some(1.5);
    var effects, next, viewB := Deliver(manager, viewA, ViewTap);
    assert effects == [NotifyDelegate, CallCompletion(1, All)];
    assert next == Presented(b) && viewB != null && viewB.loaf == b;
    assert manager.Abstract() == Sched([], true);
  }
}
