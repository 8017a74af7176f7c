/** The <canvas> element behind the renderer: its backing-store size, the CSS
    size in its style, and its attribute list. Numbers reach the style and the
    attributes as JavaScript renders a non-negative integer: decimal digits
    without leading zeros. */
module CanvasElement {

  datatype Option<T> = None | Some(value: T)

  datatype Canvas = Canvas(
    width: nat,
    height: nat,
    styleWidth: string,
    styleHeight: string,
    attributes: map<string, string>)

  predicate IsDigit(c: char) {
    '0' <= c <= '9'
  }

  function DigitChar(d: nat): (c: char)
    requires d < 10
    ensures IsDigit(c) && c as int - '0' as int == d
  {
    ['0', '1', '2', '3', '4', '5', '6', '7', '8', '9'][d]
  }

  /** The decimal text of `n`, as `String(n)` gives it for an integer below
      10^21 (larger numbers switch to exponent form in JavaScript). */
  function Decimal(n: nat): (s: string)
    ensures |s| > 0
    ensures forall i :: 0 <= i < |s| ==> IsDigit(s[i])
    ensures s[0] == '0' ==> n == 0 && s == "0"
  {
    if n < 10 then [DigitChar(n)] else Decimal(n / 10) + [DigitChar(n % 10)]
  }

  function DigitValue(c: char): (d: nat)
    requires IsDigit(c)
    ensures d < 10
  {
    c as int - '0' as int
  }

  /** The value of a string of decimal digits, read most significant first. */
  function DigitsValue(s: string): (n: nat)
    requires forall i :: 0 <= i < |s| ==> IsDigit(s[i])
  {
    if s == [] then 0
    else DigitsValue(s[..|s| - 1]) * 10 + DigitValue(s[|s| - 1])
  }

  /** Reads back a decimal number: a non-empty run of digits, nothing else. */
  function ParseDecimal(s: string): (r: Option<nat>)
    ensures r.Some? <==> |s| > 0 && forall i :: 0 <= i < |s| ==> IsDigit(s[i])
  {
    if |s| > 0 && forall i :: 0 <= i < |s| ==> IsDigit(s[i]) then Some(DigitsValue(s))
    else None
  }

  /** Reads back a CSS length written as a decimal number of pixels. */
  function ParsePixels(s: string): (r: Option<nat>)
    ensures r.Some? ==> |s| > 2 && s[|s| - 2..] == "px"
  {
    if |s| >= 2 && s[|s| - 2..] == "px" then ParseDecimal(s[..|s| - 2]) else None
  }

  lemma {:induction false} DecimalRoundTrip(n: nat)
    ensures ParseDecimal(Decimal(n)) == Some(n)
    decreases n
  {
    var s := Decimal(n);
    if n < 10 {
      assert s[..|s| - 1] == [];
      assert DigitsValue(s) == DigitValue(DigitChar(n));
    } else {
      DecimalRoundTrip(n / 10);
      var prefix := Decimal(n / 10);
      assert s[..|s| - 1] == prefix;
      assert DigitsValue(prefix) == n / 10;
    }
  }

  lemma PixelsRoundTrip(n: nat)
    ensures ParsePixels(Decimal(n) + "px") == Some(n)
  {
    var s := Decimal(n) + "px";
    assert s[..|s| - 2] == Decimal(n);
    assert s[|s| - 2..] == "px";
    DecimalRoundTrip(n);
  }

  /** The three views of the width agree: backing store, CSS and attribute. */
  predicate WidthInStep(c: Canvas) {
    && ParsePixels(c.styleWidth) == Some(c.width)
    && "width" in c.attributes && ParseDecimal(c.attributes["width"]) == Some(c.width)
  }

  predicate HeightInStep(c: Canvas) {
    && ParsePixels(c.styleHeight) == Some(c.height)
    && "height" in c.attributes && ParseDecimal(c.attributes["height"]) == Some(c.height)
  }

  /** The width setter: CSS width, backing-store width and the `width`
      attribute all take `w`; the height is untouched. */
  function SetWidth(c: Canvas, w: nat): (r: Canvas)
    ensures r.width == w && r.styleWidth == Decimal(w) + "px"
    ensures r.attributes == c.attributes["width" := Decimal(w)]
    ensures r.height == c.height && r.styleHeight == c.styleHeight
    ensures WidthInStep(r)
    ensures HeightInStep(c) ==> HeightInStep(r)
  {
    PixelsRoundTrip(w);
    DecimalRoundTrip(w);
    c.(styleWidth := Decimal(w) + "px", width := w,
       attributes := c.attributes["width" := Decimal(w)])
  }

  /** The height setter, symmetric to the width setter. */
  function SetHeight(c: Canvas, h: nat): (r: Canvas)
    ensures r.height == h && r.styleHeight == Decimal(h) + "px"
    ensures r.attributes == c.attributes["height" := Decimal(h)]
    ensures r.width == c.width && r.styleWidth == c.styleWidth
    ensures HeightInStep(r)
    ensures WidthInStep(c) ==> WidthInStep(r)
  {
    PixelsRoundTrip(h);
    DecimalRoundTrip(h);
    c.(styleHeight := Decimal(h) + "px", height := h,
       attributes := c.attributes["height" := Decimal(h)])
  }
}
