/** Shared vocabulary of the banner model: optional values, results, plane
    geometry over exact reals, decoded-image sizes and decimal rendering of
    naturals (JavaScript's `n.toString()` for the small positive integers the
    program formats). */
module Common {

  /** A value that may be absent: a JavaScript `null`, a failed image load or a
      `parseFloat` that produced `NaN`. */
  datatype Option<+T> = None | Some(value: T) {
    function GetOr(default: T): T {
      match this
      case Some(v) => v
      case None => default
    }
  }

  /** The outcome of a step that may abort the whole render. */
  datatype Result<+T> = Ok(value: T) | Err(message: string)

  datatype Point = Point(x: real, y: real)

  /** An axis-aligned rectangle given by its top-left corner and its size, the
      argument shape of the canvas calls `rect`, `fillRect` and `drawImage`. */
  datatype Rect = Rect(x: real, y: real, w: real, h: real) {
    function Right(): real { x + w }
    function Bottom(): real { y + h }
    function Center(): Point { Point(x + w / 2.0, y + h / 2.0) }
  }

  /** `inner` lies within `outer` (both of non-negative size). */
  predicate Within(inner: Rect, outer: Rect) {
    outer.x <= inner.x && inner.Right() <= outer.Right() &&
    outer.y <= inner.y && inner.Bottom() <= outer.Bottom()
  }

  /** The interiors of `a` and `b` do not meet. */
  predicate Disjoint(a: Rect, b: Rect) {
    a.Right() <= b.x || b.Right() <= a.x || a.Bottom() <= b.y || b.Bottom() <= a.y
  }

  /** The canvas `textAlign` in force when a line is drawn: which point of
      the line `at.x` names (`Start` is the canvas default, the left end for
      left-to-right text). */
  datatype Align = Start | Centre | Right

  /** The canvas `textBaseline` in force: whether `at.y` names the top of
      the em box or the alphabetic baseline (the canvas default). */
  datatype Baseline = Alphabetic | Top

  /** A line of text drawn by `fillText` at `at` with a font of pixel size
      `size`, anchored as `align` and `baseline` say. */
  datatype TextLine = TextLine(text: string, at: Point, size: real, align: Align, baseline: Baseline)

  /** The intrinsic size of a decoded image; a decoded image is never empty. */
  datatype Dims = Dims(width: real, height: real)
  type Image = d: Dims | d.width > 0.0 && d.height > 0.0 witness Dims(1.0, 1.0)

  /** `w` by `h` has the same aspect ratio as `img` (cross-multiplied, so that
      no division is needed). */
  predicate SameAspect(w: real, h: real, img: Image) {
    w * img.height == h * img.width
  }

  /** A file chosen in the browser, known only by its identity. */
  datatype File = File(id: nat)

  // ---------------------------------------------------------------------
  // Decimal rendering of naturals
  // ---------------------------------------------------------------------

  predicate IsDigit(c: char) { '0' <= c <= '9' }

  predicate AllDigits(s: string) {
    forall k :: 0 <= k < |s| ==> IsDigit(s[k])
  }

  function DigitChar(d: nat): (c: char)
    requires d < 10
    ensures IsDigit(c)
    ensures c as int - '0' as int == d
  {
    ('0' as int + d) as char
  }

  /** The decimal text of `n`, as JavaScript's `n.toString()` writes it for
      a non-negative integer: no sign, no leading zeros. */
  function NatText(n: nat): (s: string)
    ensures 1 <= |s|
    ensures AllDigits(s)
    ensures |s| > 1 ==> s[0] != '0'
    decreases n
  {
    if n < 10 then [DigitChar(n)] else NatText(n / 10) + [DigitChar(n % 10)]
  }

  /** The number a string of decimal digits denotes. */
  function DigitsValue(s: string): nat
    requires AllDigits(s)
    decreases |s|
  {
    if |s| == 0 then 0
    else DigitsValue(s[..|s| - 1]) * 10 + (s[|s| - 1] as int - '0' as int)
  }

  /** Reading back the text `NatText` writes gives the number again. */
  lemma {:induction false} NatTextRoundTrip(n: nat)
    ensures DigitsValue(NatText(n)) == n
    decreases n
  {
    if n >= 10 {
      var prefix := NatText(n / 10);
      var s := prefix + [DigitChar(n % 10)];
      assert s[..|s| - 1] == prefix;
      NatTextRoundTrip(n / 10);
    }
  }

  /** Distinct numbers get distinct texts, so the default ward labels of
      distinct photo slots differ. */
  lemma NatTextInjective(a: nat, b: nat)
    ensures NatText(a) == NatText(b) ==> a == b
  {
    NatTextRoundTrip(a);
    NatTextRoundTrip(b);
  }
}
