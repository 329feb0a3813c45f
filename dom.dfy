/** The few browser notions that the overlays of the site react to. */
module Dom {

  /** The key name a keydown event carries when the Escape key is pressed. */
  const EscapeKey: string := "Escape"

  /**
   * Where a click lands on an open overlay: on the dimmed backdrop itself,
   * on the overlay's close control, or anywhere inside its content panel
   * (whose handler stops the event from reaching the backdrop).
   */
  datatype ClickTarget = Backdrop | CloseButton | Content
}
