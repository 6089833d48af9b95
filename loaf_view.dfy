/** The view controller that shows one toast: its preferred size, the
    icon and cancel-button layout chosen when the view loads, and the
    table that turns each dismissal trigger into callbacks.

    The view controller has no guard against a second dismissal: every
    trigger it receives runs its dismissal handler again, and the timeout
    closure is never cancelled. `HandleTrigger` therefore changes nothing
    and answers each trigger on its own.
 */
module LoafView {
  import opened LoafCore

  /** The toast's preferred content size in points. */
  datatype Size = Size(width: real, height: real)

  /** Width used when the state is not custom. */
  const DefaultWidth: real := 280.0
  /** The height never goes below this. */
  const MinHeight: real := 40.0
  /** Added to the measured text height. */
  const TextPadding: real := 12.0

  /** What the view does with the icon image. */
  datatype IconLayout = IconShown(alignment: IconAlignment) | IconHidden

  /** The inputs that can end a presentation: a tap on the toast's view, an
      upward swipe, the timeout, and a tap on the cancel ("X") button. */
  datatype Trigger = ViewTap | SwipeUp | Timeout | CancelButtonTap

  /** What a dismissal does once the view is gone, in order. */
  datatype Effect = NotifyDelegate | CallCompletion(handler: HandlerId, reason: DismissalReason)

  /** The size `init` stores, or `None` when `init` returns early on a screen
      ratio outside [0, 1] and never assigns one. `textHeight` is the message's
      height as measured by the platform at a constrained width of 240 points. */
  function PreferredSize(state: State, screenWidth: real, textHeight: real): (size: Option<Size>)
    ensures size.None? <==>
      state.Custom? && state.style.width.ScreenPercentage? && !(0.0 <= state.style.width.ratio <= 1.0)
    ensures size.Some? ==>
      size.value.height >= MinHeight && size.value.height >= textHeight + TextPadding &&
      (size.value.height == MinHeight || size.value.height == textHeight + TextPadding)
    ensures !state.Custom? ==> size.Some? && size.value.width == DefaultWidth
    ensures state.Custom? && state.style.width.Fixed? ==>
      size.Some? && size.value.width == state.style.width.points
    ensures size.Some? && state.Custom? && state.style.width.ScreenPercentage? ==>
      size.value.width == ScreenShare(screenWidth, state.style.width.ratio) &&
      (0.0 <= screenWidth ==> 0.0 <= size.value.width <= screenWidth)
  {
    var height := if textHeight + TextPadding < MinHeight then MinHeight else textHeight + TextPadding;
    match state
    case Custom(style) =>
      (match style.width
       case Fixed(v) => Some(Size(v, height))
       case ScreenPercentage(p) =>
         if 0.0 <= p <= 1.0 then Some(Size(ScreenShare(screenWidth, p), height)) else None)
    case _ => Some(Size(DefaultWidth, height))
  }

  /** The width a screen ratio gives; a ratio in [0, 1] of a non-negative
      screen width stays within the screen. */
  function ScreenShare(screenWidth: real, ratio: real): (width: real)
    ensures 0.0 <= ratio <= 1.0 && 0.0 <= screenWidth ==> 0.0 <= width <= screenWidth
  {
    ShareBounds(screenWidth, ratio);
    screenWidth * ratio
  }

  /** A share in [0, 1] of a non-negative width lies between 0 and that width. */
  lemma ShareBounds(w: real, r: real)
    ensures 0.0 <= r <= 1.0 && 0.0 <= w ==> 0.0 <= w * r <= w
  {
    if 0.0 <= r <= 1.0 && 0.0 <= w {
      assert w - w * r == w * (1.0 - r);
      assert 0.0 <= w * (1.0 - r);
      assert 0.0 <= w * r;
    }
  }

  /** The icon layout `viewDidLoad` picks for a state: the four status states put
      the icon left of the text, the cancel-button state puts it on the right, and
      a custom style uses its own alignment and hides the icon when it has none. */
  function IconLayoutFor(state: State): (layout: IconLayout)
    ensures state.Success? || state.Warning? || state.Error? || state.Info? ==>
      layout == IconShown(LeftOfText)
    ensures state.WithCancelButton? ==> layout == IconShown(RightOfText)
    ensures state.Custom? ==>
      (layout.IconHidden? <==> !state.style.hasIcon) &&
      (layout.IconShown? ==> layout.alignment == state.style.iconAlignment)
  {
    match state
    case Success => IconShown(LeftOfText)
    case Warning => IconShown(LeftOfText)
    case Error => IconShown(LeftOfText)
    case Info => IconShown(LeftOfText)
    case WithCancelButton => IconShown(RightOfText)
    case Custom(style) => if style.hasIcon then IconShown(style.iconAlignment) else IconHidden
  }

  /** Whether a trigger reaches a dismissal handler: in `All` mode no
      recogniser is attached to the cancel button. */
  predicate Dismisses(mode: DismissalReason, t: Trigger) {
    !(mode == All && t == CancelButtonTap)
  }

  /** The reason handed to the completion handler, if it is called at all. */
  function CompletionReason(mode: DismissalReason, t: Trigger): (r: Option<DismissalReason>)
    ensures r.Some? ==> Dismisses(mode, t)
    ensures r == Some(All) <==> mode == All && t != CancelButtonTap
    ensures r == Some(Interactive) <==> mode == Interactive && t == ViewTap
  {
    match mode
    case All => if t == CancelButtonTap then None else Some(All)
    case Interactive => if t == ViewTap then Some(Interactive) else None
  }

  /** The callbacks a trigger produces: the delegate (when set) is told first
      and exactly once, then the completion handler (when set) is called once
      with the reason from `CompletionReason`. */
  function Effects(mode: DismissalReason, t: Trigger, delegateSet: bool,
                   handler: Option<HandlerId>): (r: seq<Effect>)
    ensures |r| <= 2
    ensures NotifyDelegate in r <==> Dismisses(mode, t) && delegateSet
    ensures forall i :: 0 < i < |r| ==> r[i] != NotifyDelegate
    ensures forall i :: 0 <= i < |r| - 1 ==> r[i] == NotifyDelegate
    ensures forall h: HandlerId, reason :: CallCompletion(h, reason) in r <==>
      handler == Some(h) && CompletionReason(mode, t) == Some(reason)
  {
    if !Dismisses(mode, t) then []
    else
      var notify := if delegateSet then [NotifyDelegate] else [];
      match (handler, CompletionReason(mode, t))
      case (Some(h), Some(reason)) => notify + [CallCompletion(h, reason)]
      case _ => notify
  }

  class LoafViewController {
    const loaf: Loaf
    var isCancelButtonNeeded: bool
    /** `None` while `preferredContentSize` has never been assigned. */
    var preferredContentSize: Option<Size>
    var cancelButtonAlpha: real
    var cancelButtonInteractive: bool
    /** `None` until the view has loaded and laid out its icon. */
    var iconLayout: Option<IconLayout>
    /** The delay of the scheduled timeout, once the view has loaded. */
    var timeoutAfter: Option<real>
    /** Whether the weak `delegate` reference is set. */
    var delegateAttached: bool

    /** `init`: the width is taken from a custom style (a fixed value, or the
        screen width times a ratio in [0, 1]); otherwise it defaults to 280.
        A ratio outside [0, 1] returns before the size is assigned. The button
        starts with the platform's defaults (opaque and interactive). */
    constructor (toast: Loaf, screenWidth: real, textHeight: real)
      ensures loaf == toast
      ensures preferredContentSize == PreferredSize(toast.state, screenWidth, textHeight)
      ensures !isCancelButtonNeeded && cancelButtonAlpha == 1.0 && cancelButtonInteractive
      ensures iconLayout == None && timeoutAfter == None && !delegateAttached
    {
      loaf := toast;
      isCancelButtonNeeded := false;
      preferredContentSize := None;
      cancelButtonAlpha := 1.0;
      cancelButtonInteractive := true;
      iconLayout := None;
      timeoutAfter := None;
      delegateAttached := false;
      new;
      var width: Option<real> := None;
      if toast.state.Custom? {
        match toast.state.style.width {
          case Fixed(value) =>
            width := Some(value);
          case ScreenPercentage(percentage) =>
            if !(0.0 <= percentage <= 1.0) {
              return;
            }
            width := Some(ScreenShare(screenWidth, percentage));
        }
      }
      var height := textHeight + TextPadding;
      if height < MinHeight {
        height := MinHeight;
      }
      preferredContentSize := Some(Size(if width.Some? then width.value else DefaultWidth, height));
    }

    /** `viewDidLoad`: hides the cancel button, records the mode's need for it,
        schedules the timeout, and lays out the icon for the state, which shows
        the cancel button exactly when it is needed. */
    method ViewDidLoad()
      modifies this
      ensures isCancelButtonNeeded <==> loaf.dismissalReason == Interactive
      ensures cancelButtonAlpha == (if isCancelButtonNeeded then 1.0 else 0.0)
      ensures cancelButtonInteractive == isCancelButtonNeeded
      ensures iconLayout == Some(IconLayoutFor(loaf.state))
      ensures timeoutAfter == Some(Length(loaf.duration))
      ensures preferredContentSize == old(preferredContentSize)
      ensures delegateAttached == old(delegateAttached)
    {
      cancelButtonAlpha := 0.0;
      cancelButtonInteractive := false;
      match loaf.dismissalReason {
        case All =>
          isCancelButtonNeeded := false;
          timeoutAfter := Some(Length(loaf.duration));
        case Interactive =>
          isCancelButtonNeeded := true;
          timeoutAfter := Some(Length(loaf.duration));
      }
      match loaf.state
      case Success => ConstrainWithIconAlignment(LeftOfText, true);
      case Warning => ConstrainWithIconAlignment(LeftOfText, true);
      case Error => ConstrainWithIconAlignment(LeftOfText, true);
      case Info => ConstrainWithIconAlignment(LeftOfText, true);
      case WithCancelButton => ConstrainWithIconAlignment(RightOfText, true);
      case Custom(style) => ConstrainWithIconAlignment(style.iconAlignment, style.hasIcon);
    }

    /** Lays out the icon; each of the three constraint variants (icon left,
        icon right, no icon) then shows or hides the cancel button according to
        `isCancelButtonNeeded`. */
    method ConstrainWithIconAlignment(alignment: IconAlignment, showsIcon: bool)
      modifies this`iconLayout, this`cancelButtonAlpha, this`cancelButtonInteractive
      ensures iconLayout == Some(if showsIcon then IconShown(alignment) else IconHidden)
      ensures cancelButtonAlpha == (if isCancelButtonNeeded then 1.0 else 0.0)
      ensures cancelButtonInteractive == isCancelButtonNeeded
    {
      if showsIcon {
        iconLayout := Some(IconShown(alignment));
      } else {
        iconLayout := Some(IconHidden);
      }
      if isCancelButtonNeeded {
        IsButtonNeeded(true);
      } else {
        IsButtonNeeded(false);
      }
    }

    /** Shows and enables the cancel button, or hides and disables it. */
    method IsButtonNeeded(needed: bool)
      modifies this`cancelButtonAlpha, this`cancelButtonInteractive
      ensures cancelButtonAlpha == (if needed then 1.0 else 0.0)
      ensures cancelButtonInteractive == needed
    {
      if needed {
        cancelButtonAlpha := 1.0;
        cancelButtonInteractive := true;
      } else {
        cancelButtonAlpha := 0.0;
        cancelButtonInteractive := false;
      }
    }

    /** Runs the handler the trigger reaches in the toast's mode and returns the
        callbacks its dismissal completion makes. Nothing records that the view
        was already dismissed, so a later trigger is answered again. */
    method HandleTrigger(t: Trigger) returns (effects: seq<Effect>)
      ensures effects == Effects(loaf.dismissalReason, t, delegateAttached, loaf.completionHandler)
    {
      match loaf.dismissalReason
      case All =>
        match t {
          case ViewTap => effects := DismissCompletion(Some(All));
          case SwipeUp => effects := DismissCompletion(Some(All));
          case Timeout => effects := DismissCompletion(Some(All));
          case CancelButtonTap => effects := [];
        }
      case Interactive =>
        match t {
          case ViewTap => effects := DismissCompletion(Some(Interactive));
          case SwipeUp => effects := DismissCompletion(None);
          case Timeout => effects := DismissCompletion(None);
          case CancelButtonTap => effects := DismissCompletion(None);
        }
    }

    /** The completion block of `dismiss(animated:)`: notify the delegate if it
        is set, then call the completion handler, if any, with the reason, if any. */
    method DismissCompletion(reason: Option<DismissalReason>) returns (effects: seq<Effect>)
      ensures NotifyDelegate in effects <==> delegateAttached
      ensures |effects| > 0 && delegateAttached ==> effects[0] == NotifyDelegate
      ensures forall h: HandlerId, r :: CallCompletion(h, r) in effects <==>
        loaf.completionHandler == Some(h) && reason == Some(r)
      ensures |effects| == (if delegateAttached then 1 else 0) +
        (if loaf.completionHandler.Some? && reason.Some? then 1 else 0)
    {
      effects := [];
      if delegateAttached {
        effects := effects + [NotifyDelegate];
      }
      if loaf.completionHandler.Some? && reason.Some? {
        effects := effects + [CallCompletion(loaf.completionHandler.value, reason.value)];
      }
    }
  }
}
