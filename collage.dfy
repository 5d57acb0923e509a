/** Collage geometry (`create_collage`): a white canvas sized for a grid of
    6 rows by 3 columns of the largest label, and one paste per label at a
    grid offset computed from that label's own size. Only sizes and offsets
    are modelled, not pixels. */
module CollageGeometry {
  import opened Outcomes

  const Rows := 6
  const Cols := 3

  datatype Size = Size(width: nat, height: nat)

  /** One `paste`: top-left offset on the canvas and the pasted image's size. */
  datatype Paste = Paste(x: nat, y: nat, size: Size)

  datatype Collage = Collage(canvas: Size, pastes: seq<Paste>)

  /** `max` of an empty sequence raises. */
  datatype CollageError = EmptyBatch

  /** Python's `max` over a non-empty sequence. */
  function MaxOf(xs: seq<nat>): (m: nat)
    requires |xs| > 0
    ensures m in xs
    ensures forall i :: 0 <= i < |xs| ==> xs[i] <= m
  {
    if |xs| == 1 then xs[0]
    else
      var rest := MaxOf(xs[1..]);
      assert forall i :: 1 <= i < |xs| ==> xs[i] == xs[1..][i - 1];
      if xs[0] >= rest then xs[0] else rest
  }

  function Widths(images: seq<Size>): seq<nat> {
    seq(|images|, i requires 0 <= i < |images| => images[i].width)
  }

  function Heights(images: seq<Size>): seq<nat> {
    seq(|images|, i requires 0 <= i < |images| => images[i].height)
  }

  /** Where image `i` goes: column `i mod 3`, row `i div 3`, with the
      image's own width and height as the stride. */
  function PasteAt(i: nat, image: Size): (p: Paste)
    ensures p.size == image
    ensures p.x + image.width <= Cols * image.width
    ensures i < Rows * Cols ==> p.y + image.height <= Rows * image.height
    ensures i >= Rows * Cols ==> p.y >= Rows * image.height
  {
    StrideBelow(i % Cols, Cols, image.width);
    RowBound(i, image.height);
    Paste((i % Cols) * image.width, (i / Cols) * image.height, image)
  }

  /** Rows 0 to 5 end inside six image heights; row 6 onwards starts below them. */
  lemma RowBound(i: nat, h: nat)
    ensures i < Rows * Cols ==> (i / Cols) * h + h <= Rows * h
    ensures i >= Rows * Cols ==> (i / Cols) * h >= Rows * h
  {
    if i < Rows * Cols {
      StrideBelow(i / Cols, Rows, h);
    } else {
      StrideBelow(Rows - 1, i / Cols, h);
    }
  }

  /** The collage a batch of images produces, or the error of an empty batch. */
  function Layout(images: seq<Size>): (r: Result<Collage, CollageError>)
    ensures r.Ok? <==> |images| > 0
    ensures r.Ok? ==> |r.value.pastes| == |images|
  {
    if |images| == 0 then Err(EmptyBatch)
    else
      Ok(Collage(Size(MaxOf(Widths(images)) * Cols, MaxOf(Heights(images)) * Rows),
                 seq(|images|, i requires 0 <= i < |images| => PasteAt(i, images[i]))))
  }

  /** `create_collage`: size the canvas from the largest image, then paste
      the images one by one in sequence order. */
  method CreateCollage(images: seq<Size>) returns (r: Result<Collage, CollageError>)
    ensures r == Layout(images)
  {
    if |images| == 0 {
      return Err(EmptyBatch);
    }
    var canvas := Size(MaxOf(Widths(images)) * Cols, MaxOf(Heights(images)) * Rows);
    var pastes: seq<Paste> := [];
    for i := 0 to |images|
      invariant |pastes| == i
      invariant forall k :: 0 <= k < i ==> pastes[k] == PasteAt(k, images[k])
    {
      pastes := pastes + [PasteAt(i, images[i])];
    }
    assert pastes == Layout(images).value.pastes;
    r := Ok(Collage(canvas, pastes));
  }

  // ---------------------------------------------------------------------
  // Geometry of a collage

  predicate Uniform(images: seq<Size>, s: Size) {
    forall k :: 0 <= k < |images| ==> images[k] == s
  }

  /** Two pasted rectangles do not overlap. */
  predicate Disjoint(p: Paste, q: Paste) {
    p.x + p.size.width <= q.x || q.x + q.size.width <= p.x
    || p.y + p.size.height <= q.y || q.y + q.size.height <= p.y
  }

  lemma {:induction false} StrideBelow(a: nat, b: nat, w: nat)
    requires a < b
    ensures a * w + w <= b * w
    decreases b - a
  {
    if b > a + 1 {
      StrideBelow(a, b - 1, w);
    }
    assert b * w == (b - 1) * w + w;
  }

  /** The canvas is three of the widest images wide and six of the tallest
      high, exactly: it fits every image in every cell, and no smaller grid
      would fit the largest. */
  lemma CanvasSize(images: seq<Size>)
    requires |images| > 0
    ensures Layout(images).Ok?
    ensures var c := Layout(images).value.canvas;
      && (forall i :: 0 <= i < |images| ==> Cols * images[i].width <= c.width && Rows * images[i].height <= c.height)
      && (exists i :: 0 <= i < |images| && c.width == Cols * images[i].width)
      && (exists j :: 0 <= j < |images| && c.height == Rows * images[j].height)
  {
    var ws, hs := Widths(images), Heights(images);
    var c := Layout(images).value.canvas;
    assert forall i :: 0 <= i < |images| ==> ws[i] == images[i].width && hs[i] == images[i].height;
    var iw :| 0 <= iw < |ws| && ws[iw] == MaxOf(ws);
    var ih :| 0 <= ih < |hs| && hs[ih] == MaxOf(hs);
    assert c.width == Cols * images[iw].width;
    assert c.height == Rows * images[ih].height;
  }

  /** A batch of images of one size gets a canvas of exactly 3 by 6 of them. */
  lemma UniformCanvas(images: seq<Size>, s: Size)
    requires |images| > 0 && Uniform(images, s)
    ensures Layout(images).Ok?
    ensures Layout(images).value.canvas == Size(Cols * s.width, Rows * s.height)
  {
    CanvasSize(images);
  }

  /** Each of the first 18 images lies wholly inside the canvas, whatever
      the sizes of the images. */
  lemma PasteInsideCanvas(images: seq<Size>, i: nat)
    requires i < |images| && i < Rows * Cols
    ensures Layout(images).Ok?
    ensures var c := Layout(images).value; var p := c.pastes[i];
      p.x + p.size.width <= c.canvas.width && p.y + p.size.height <= c.canvas.height
  {
    CanvasSize(images);
    var c := Layout(images).value;
    var s := images[i];
    assert c.pastes[i] == PasteAt(i, s);
    StrideBelow(i % Cols, Cols, s.width);
    StrideBelow(i / Cols, Rows, s.height);
  }

  /** With images of one size, different images never overlap: image `i`
      fills exactly cell (`i mod 3`, `i div 3`) of a grid of that size. */
  lemma UniformPastesDisjoint(images: seq<Size>, s: Size, i: nat, j: nat)
    requires Uniform(images, s) && s.width > 0 && s.height > 0
    requires i < |images| && j < |images| && i != j
    ensures Layout(images).Ok?
    ensures Disjoint(Layout(images).value.pastes[i], Layout(images).value.pastes[j])
  {
    var ps := Layout(images).value.pastes;
    assert ps[i] == PasteAt(i, s) && ps[j] == PasteAt(j, s);
    if i % Cols < j % Cols {
      StrideBelow(i % Cols, j % Cols, s.width);
    } else if j % Cols < i % Cols {
      StrideBelow(j % Cols, i % Cols, s.width);
    } else if i / Cols < j / Cols {
      StrideBelow(i / Cols, j / Cols, s.height);
    } else {
      assert j / Cols < i / Cols;
      StrideBelow(j / Cols, i / Cols, s.height);
    }
  }

  /** With images of one size, image 19 onwards is pasted entirely below
      the canvas: nothing guards against an overfull batch, and the extra
      images are clipped away rather than drawn over earlier ones. */
  lemma UniformOverflowOutside(images: seq<Size>, s: Size, i: nat)
    requires Uniform(images, s)
    requires Rows * Cols <= i < |images|
    ensures Layout(images).Ok?
    ensures Layout(images).value.pastes[i].y >= Layout(images).value.canvas.height
  {
    CanvasSize(images);
    var c := Layout(images).value;
    assert c.pastes[i] == PasteAt(i, s);
    assert c.canvas.height == Rows * s.height;
    StrideBelow(Rows - 1, i / Cols, s.height);
  }
}
