/** The specifiers of a toast ("loaf") and the toast entity itself.

    Colours, fonts, text alignment and icon images are styling and are
    reduced here to the parts that steer control flow: whether a custom
    style has an icon, where the icon goes and how wide the toast is.
 */
module LoafCore {

  datatype Option<T> = None | Some(value: T)

  /** Why a toast was dismissed. The same enum is stored on every toast as its
      dismissal mode: `All` dismisses on tap, swipe and timeout and reports `All`;
      `Interactive` adds a cancel button and reports `Interactive` only for a tap. */
  datatype DismissalReason = All | Interactive

  /** Where the icon sits relative to the text. */
  datatype IconAlignment = LeftOfText | RightOfText

  /** Width of a custom toast: a fixed number of points, or a ratio of the
      screen width that is meant to lie between 0 and 1. */
  datatype Width = Fixed(points: real) | ScreenPercentage(ratio: real)

  /** A custom style, reduced to what decides layout: whether an icon image is
      given, the icon alignment and the width. */
  datatype Style = Style(hasIcon: bool, iconAlignment: IconAlignment, width: Width)

  /** The toast's visual status. */
  datatype State = Success | Error | Warning | Info | WithCancelButton | Custom(style: Style)

  datatype Location = Top | Bottom

  /** Presenting or dismissing direction. */
  datatype Direction = Left | Right | Vertical

  /** How long a toast stays up before its timeout fires. */
  datatype Duration = Short | Average | Long | CustomInterval(interval: real)

  /** The identity of a completion closure supplied by the caller. */
  type HandlerId = nat

  /** The timeout in seconds. The values are the ones the code uses
      (1.5, 3 and 7 seconds), not the 2, 4 and 8 of its doc comment. */
  function Length(d: Duration): (seconds: real)
    ensures d.CustomInterval? ==> seconds == d.interval
    ensures !d.CustomInterval? ==> 1.5 <= seconds <= 7.0
  {
    match d
    case Short => 1.5
    case Average => 3.0
    case Long => 7.0
    case CustomInterval(t) => t
  }

  /** The three preset durations are strictly ordered and are exactly
      1.5, 3 and 7 seconds. */
  lemma PresetLengths()
    ensures Length(Short) == 1.5 && Length(Average) == 3.0 && Length(Long) == 7.0
    ensures Length(Short) < Length(Average) < Length(Long)
  {
  }

  /** One toast. The descriptive fields are fixed at construction; `duration`
      and `completionHandler` are overwritten when the toast is shown, and the
      weak `sender` reference is reduced to whether its target is still alive. */
  class Loaf {
    const message: string
    const dismissalReason: DismissalReason
    const state: State
    const location: Location
    const presentingDirection: Direction
    const dismissingDirection: Direction
    var duration: Duration
    var completionHandler: Option<HandlerId>
    var senderAlive: bool

    /** A new toast has the `Average` duration, no completion handler and a
        live sender. Omitted arguments default to mode `All`, state `Info`,
        location `Bottom` and vertical presenting and dismissing. */
    constructor (message: string, dismissalReason: DismissalReason := All,
                 state: State := Info, location: Location := Bottom,
                 presentingDirection: Direction := Vertical,
                 dismissingDirection: Direction := Vertical)
      ensures this.message == message && this.dismissalReason == dismissalReason
      ensures this.state == state && this.location == location
      ensures this.presentingDirection == presentingDirection
      ensures this.dismissingDirection == dismissingDirection
      ensures duration == Average && completionHandler == None && senderAlive
    {
      this.message := message;
      this.dismissalReason := dismissalReason;
      this.state := state;
      this.location := location;
      this.presentingDirection := presentingDirection;
      this.dismissingDirection := dismissingDirection;
      duration := Average;
      completionHandler := None;
      senderAlive := true;
    }

    /** The view controller that sent the toast has been deallocated, so the
        weak `sender` reference now reads as nil. */
    method ReleaseSender()
      modifies this`senderAlive
      ensures !senderAlive
    {
      senderAlive := false;
    }
  }
}
