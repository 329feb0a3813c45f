/** The CSS values the theme modules write, held as their components rather than as text. */
module Css {
  /** One entry of a CSS `transition` list: a property, a duration in milliseconds and an easing. */
  datatype TransitionItem = TransitionItem(property: string, durationMs: int, easing: string)

  /** A CSS colour, held as its components: `#rrggbb`, or `rgba(r, g, b, a)` with the alpha in hundredths. */
  datatype Color = Hex(red: int, green: int, blue: int) | Rgba(red: int, green: int, blue: int, alphaPercent: int)

  /** A `linear-gradient(angle, colour percent, ...)` value. */
  datatype ColorStop = ColorStop(color: Color, percent: int)
  datatype Gradient = LinearGradient(angleDeg: int, stops: seq<ColorStop>)

  function HexDigit(n: int): char
    requires 0 <= n < 16
  {
    "0123456789abcdef"[n]
  }

  /** The `#rrggbb` text of a colour within range. */
  function HexText(c: Color): (r: string)
    requires c.Hex? && 0 <= c.red < 256 && 0 <= c.green < 256 && 0 <= c.blue < 256
    ensures |r| == 7 && r[0] == '#'
  {
    ['#', HexDigit(c.red / 16), HexDigit(c.red % 16), HexDigit(c.green / 16), HexDigit(c.green % 16),
     HexDigit(c.blue / 16), HexDigit(c.blue % 16)]
  }

  /** `background 0.5s ease-in-out, color 0.3s ease-in-out`, the transition both theme modules give the body. */
  const BodyTransition: seq<TransitionItem> :=
    [TransitionItem("background", 500, "ease-in-out"), TransitionItem("color", 300, "ease-in-out")]
}
