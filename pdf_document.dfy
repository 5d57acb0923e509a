/** The document builder (`create_pdf`): one page per collage, in order,
    each page showing its collage stretched over the whole page, and every
    page given the size of the first collage. */
module PdfDocument {
  import opened Outcomes
  import opened CollageGeometry

  /** One `drawInlineImage` call: the image file and the rectangle it fills. */
  datatype InlineImage = InlineImage(path: string, x: int, y: int, width: nat, height: nat)

  datatype Page = Page(images: seq<InlineImage>)

  datatype Document = Document(pageSize: Size, pages: seq<Page>)

  /** A collage file as the builder sees it: its path and the pixel size
      that opening it reports. */
  datatype CollageFile = CollageFile(path: string, size: Size)

  /** `collage_paths[0]` of an empty list raises. */
  datatype PdfError = NoCollages

  /** The document while it is drawn: the pages finished so far and the
      drawings on the page in progress. */
  class PdfCanvas {
    const pageSize: Size
    var pages: seq<Page>
    var current: seq<InlineImage>

    constructor (pageSize: Size)
      ensures this.pageSize == pageSize && pages == [] && current == []
    {
      this.pageSize := pageSize;
      pages := [];
      current := [];
    }

    method DrawInlineImage(path: string, x: int, y: int, width: nat, height: nat)
      modifies this
      ensures pages == old(pages)
      ensures current == old(current) + [InlineImage(path, x, y, width, height)]
    {
      current := current + [InlineImage(path, x, y, width, height)];
    }

    /** Ends the page in progress and starts an empty one. */
    method ShowPage()
      modifies this
      ensures pages == old(pages) + [Page(old(current))]
      ensures current == []
    {
      pages := pages + [Page(current)];
      current := [];
    }
  }

  /** A page showing one image stretched over all of it. */
  function FullPage(path: string, pageSize: Size): Page {
    Page([InlineImage(path, 0, 0, pageSize.width, pageSize.height)])
  }

  /** The document written for a list of collages, or the error of an empty list. */
  function PdfLayout(collages: seq<CollageFile>): (r: Result<Document, PdfError>)
    ensures r.Ok? <==> |collages| > 0
  {
    if |collages| == 0 then Err(NoCollages)
    else
      var size := collages[0].size;
      Ok(Document(size, seq(|collages|, k requires 0 <= k < |collages| => FullPage(collages[k].path, size))))
  }

  /** `create_pdf`: take the page size from the first collage, then draw
      each collage on a page of its own. */
  method CreatePdf(collages: seq<CollageFile>) returns (r: Result<Document, PdfError>)
    ensures r == PdfLayout(collages)
  {
    if |collages| == 0 {
      return Err(NoCollages);
    }
    var size := collages[0].size;
    var c := new PdfCanvas(size);
    for k := 0 to |collages|
      invariant c.pageSize == size && c.current == []
      invariant |c.pages| == k
      invariant forall j :: 0 <= j < k ==> c.pages[j] == FullPage(collages[j].path, size)
    {
      c.DrawInlineImage(collages[k].path, 0, 0, size.width, size.height);
      c.ShowPage();
    }
    assert c.pages == PdfLayout(collages).value.pages;
    r := Ok(Document(size, c.pages));
  }

  // ---------------------------------------------------------------------
  // Properties of the document

  /** One page per collage, in the collages' order; every page shows just
      its collage, from the page's corner, at the first collage's size. */
  lemma PagesFollowCollages(collages: seq<CollageFile>)
    requires |collages| > 0
    ensures PdfLayout(collages).Ok?
    ensures var d := PdfLayout(collages).value;
      && d.pageSize == collages[0].size
      && |d.pages| == |collages|
      && forall k :: 0 <= k < |collages| ==>
           |d.pages[k].images| == 1 && d.pages[k].images[0].path == collages[k].path
           && d.pages[k].images[0].x == 0 && d.pages[k].images[0].y == 0
           && d.pages[k].images[0].width == d.pageSize.width
           && d.pages[k].images[0].height == d.pageSize.height
  {
  }

  /** Every collage is drawn at its own size exactly when all collages have
      the size of the first; any other collage is stretched. */
  lemma UnstretchedIff(collages: seq<CollageFile>)
    requires |collages| > 0
    ensures PdfLayout(collages).Ok?
    ensures var d := PdfLayout(collages).value;
      (forall k :: 0 <= k < |collages| ==>
         Size(d.pages[k].images[0].width, d.pages[k].images[0].height) == collages[k].size)
      <==> (forall k :: 0 <= k < |collages| ==> collages[k].size == collages[0].size)
  {
    var d := PdfLayout(collages).value;
    assert forall k :: 0 <= k < |collages| ==>
      Size(d.pages[k].images[0].width, d.pages[k].images[0].height) == collages[0].size;
  }
}
