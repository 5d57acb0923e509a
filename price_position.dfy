/** Horizontal placement of the price (`calcular_posicao_x`): the longer
    the text of the price, the further left it starts, so that the price
    block stays roughly centred on the template. */
module PricePosition {

  /** The x anchor of the price for the text `str(preco)`. It looks at the
      number of characters, not of digits: a price read as a float, such as
      "25.0", counts its point and its decimal too. */
  function PriceX(priceText: string): (x: int)
    ensures x == 290 || x == 300 || x == 310 || x == 320
    ensures x == 320 <==> |priceText| == 1
    ensures x == 290 <==> (|priceText| == 0 || |priceText| >= 4)
  {
    var n := |priceText|;
    if n == 1 then 320
    else if n == 2 then 310
    else if n == 3 then 300
    else 290
  }

  /** A closed form of the lookup: ten pixels further left per character,
      up to four characters. */
  lemma PriceXByLength(priceText: string)
    requires |priceText| >= 1
    ensures PriceX(priceText) == 330 - 10 * (if |priceText| < 4 then |priceText| else 4)
  {
  }

  /** A longer price text never starts further right, and up to four
      characters it starts strictly further left. */
  lemma PriceXNonIncreasing(a: string, b: string)
    requires 1 <= |a| <= |b|
    ensures PriceX(b) <= PriceX(a)
    ensures |a| < |b| <= 4 ==> PriceX(b) < PriceX(a)
  {
  }

  lemma PriceXExamples()
    ensures PriceX("7") == 320 && PriceX("42") == 310 && PriceX("123") == 300
    ensures PriceX("4567") == 290 && PriceX("25.0") == 290
  {
  }
}
