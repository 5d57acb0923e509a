/** One label (`criar_imagem`): the texts drawn onto a fresh copy of the
    background template, with their anchors and sizes. The pixels
    themselves are not modelled; the width the drawing library measures for
    the price text is taken as a parameter. */
module Label {
  import opened Text
  import opened NameWrap
  import opened PricePosition

  /** One row of the product table. `priceText` is `str(varejo)` for the
      value the table reader produced. */
  datatype Record = Record(name: string, reference: string, priceText: string)

  /** The point sizes for the name, the reference and the price; all are
      cuts of one bold font. */
  datatype FontSizes = FontSizes(name: nat, reference: nat, price: nat)

  /** One text drawing call: top-left anchor, text and point size. */
  datatype TextDraw = TextDraw(x: int, y: int, text: string, size: nat)

  const NameAnchor := (40, 20)
  const ReferenceAnchor := (700, 500)
  const PriceY := 700
  const SuffixY := 900
  const Suffix := ",00"

  /** Size of the ",00" suffix: forty percent of the price size. */
  function SuffixSize(priceSize: nat): (s: nat)
    ensures s * 10 <= priceSize * 4 < s * 10 + 10
  {
    priceSize * 4 / 10
  }

  /** The four texts of a label, in drawing order: the wrapped name, the
      reference, the price, and the ",00" suffix drawn right after the price
      at the width `priceWidth` the library measured for the price text. */
  function LabelDraws(r: Record, sizes: FontSizes, priceWidth: nat): (draws: seq<TextDraw>)
    ensures |draws| == 4
    ensures (draws[0].x, draws[0].y) == NameAnchor
    ensures draws[0].text == WrappedName(r.name) && draws[0].size == sizes.name
    ensures (draws[1].x, draws[1].y) == ReferenceAnchor
    ensures draws[1].text == r.reference && draws[1].size == sizes.reference
    ensures draws[2].x == PriceX(r.priceText) && draws[2].y == PriceY
    ensures draws[2].text == r.priceText && draws[2].size == sizes.price
    ensures 290 <= draws[2].x <= 320
    ensures draws[3].x == draws[2].x + priceWidth && draws[3].y == SuffixY
    ensures draws[3].text == Suffix && draws[3].size == SuffixSize(sizes.price)
  {
    var px := PriceX(r.priceText);
    [ TextDraw(NameAnchor.0, NameAnchor.1, WrappedName(r.name), sizes.name),
      TextDraw(ReferenceAnchor.0, ReferenceAnchor.1, r.reference, sizes.reference),
      TextDraw(px, PriceY, r.priceText, sizes.price),
      TextDraw(px + priceWidth, SuffixY, Suffix, SuffixSize(sizes.price)) ]
  }
}
