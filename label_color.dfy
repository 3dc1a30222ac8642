/**
 * The colours a shape derives from its label, and the fixed default colours
 * every shape shares.
 */
module LabelColor {
  import opened Wrappers

  /** An RGBA colour. */
  datatype Color = Color(r: int, g: int, b: int, a: int)

  /** Every channel fits in one byte. */
  predicate IsRgba(c: Color) {
    0 <= c.r < 256 && 0 <= c.g < 256 && 0 <= c.b < 256 && 0 <= c.a < 256
  }

  // The shared defaults. A colour given as RGB only is fully opaque.
  const DefaultLineColor := Color(0, 255, 0, 128)
  const DefaultFillColor := Color(255, 0, 0, 128)
  const DefaultSelectLineColor := Color(255, 255, 255, 255)
  const DefaultSelectFillColor := Color(0, 128, 255, 155)
  const DefaultVertexFillColor := Color(0, 255, 0, 255)
  const DefaultHighlightVertexFillColor := Color(255, 0, 0, 255)

  /** The alpha of every label-derived colour. */
  const LabelAlpha := 200

  /** The green channel used when the label has a single character. */
  const SingleCharGreen := 128

  /**
   * One byte derived from a character: its code point less that of 'a',
   * times ten, reduced modulo 256. The reduction is floored, as in Python,
   * which for the positive modulus 256 agrees with Dafny's `%`.
   */
  function OnebyteHash(c: char): (h: int)
    ensures 0 <= h < 256
    ensures 'a' <= c <= 'z' ==> h == (c as int - 'a' as int) * 10
  {
    (c as int - 97) * 10 % 256
  }

  /** A label the colour derivation can read: absent, or at least one character long. */
  predicate WellFormedLabel(labelText: Option<string>) {
    labelText.None? || |labelText.value| > 0
  }

  /** The green channel shared by the line and the fill colour. */
  function LabelGreen(s: string): (g: int)
    requires |s| > 0
    ensures 0 <= g < 256
  {
    if |s| > 1 then OnebyteHash(s[1]) else SingleCharGreen
  }

  /** The line colour for a label: first character, second character, last character. */
  function LineColorFor(labelText: Option<string>): (c: Color)
    requires WellFormedLabel(labelText)
    ensures IsRgba(c)
    ensures labelText.None? <==> c == DefaultLineColor
  {
    match labelText
    case None => DefaultLineColor
    case Some(s) => Color(OnebyteHash(s[0]), LabelGreen(s), OnebyteHash(s[|s| - 1]), LabelAlpha)
  }

  /** The fill colour for a label: last character, second character, first character. */
  function FillColorFor(labelText: Option<string>): (c: Color)
    requires WellFormedLabel(labelText)
    ensures IsRgba(c)
    ensures labelText.None? <==> c == DefaultFillColor
  {
    match labelText
    case None => DefaultFillColor
    case Some(s) => Color(OnebyteHash(s[|s| - 1]), LabelGreen(s), OnebyteHash(s[0]), LabelAlpha)
  }

  /** For a label, the fill colour is the line colour with red and blue exchanged. */
  lemma FillMirrorsLine(labelText: Option<string>)
    requires WellFormedLabel(labelText) && labelText.Some?
    ensures var line := LineColorFor(labelText);
      FillColorFor(labelText) == Color(line.b, line.g, line.r, line.a)
  {
  }

  /** Lower-case letters hash to distinct bytes, 'a' to 0 and 'z' to 250. */
  lemma HashSeparatesLetters(c: char, d: char)
    requires 'a' <= c <= 'z' && 'a' <= d <= 'z'
    ensures OnebyteHash(c) == OnebyteHash(d) <==> c == d
    ensures OnebyteHash('a') == 0 && OnebyteHash('z') == 250
  {
  }

  /** Worked values: "ab", a single character, and a character below 'a'. */
  lemma LabelColorExamples()
    ensures LineColorFor(Some("ab")) == Color(0, 10, 10, 200)
    ensures FillColorFor(Some("ab")) == Color(10, 10, 0, 200)
    ensures LineColorFor(Some("c")) == Color(20, 128, 20, 200)
    ensures OnebyteHash('A') == 192
  {
  }
}
