/** The driver (`main`): one label per table row, one collage per batch of
    18 labels, one document holding every collage. The output folder is
    modelled as a map from file name to the pixel size of the image stored
    under that name: labels are written there and read back by the collage
    step, and collages are written there and read back by the document step. */
module Pipeline {
  import opened Outcomes
  import opened NameWrap
  import opened PricePosition
  import opened Label
  import opened CollageGeometry
  import opened Batch
  import opened PdfDocument

  /** The point sizes the driver passes for name, reference and price. */
  const DriverFonts := FontSizes(90, 150, 450)

  /** A label image as written: file name, texts drawn, pixel size. */
  datatype LabelFile = LabelFile(path: string, draws: seq<TextDraw>, size: Size)

  /** A collage image as written: file name, the label files it tiles, layout. */
  datatype CollageOutput = CollageOutput(path: string, members: seq<string>, collage: Collage)

  datatype RunOutput = RunOutput(labels: seq<LabelFile>, collages: seq<CollageOutput>, document: Document)

  /** The label of row `index` (`criar_imagem`): a copy of the template
      with the row's texts; `measure(text, size)` is the width the drawing
      library reports for a text at a point size. */
  function LabelOf(index: nat, row: Record, fonts: FontSizes, template: Size,
                   measure: (string, nat) -> nat): (l: LabelFile)
    ensures l.path == LabelFileName(index) && l.size == template
    ensures |l.draws| == 4 && l.draws[0].text == WrappedName(row.name)
    ensures l.draws[1].text == row.reference && l.draws[2].text == row.priceText
    ensures l.draws[2].x == PriceX(row.priceText)
    ensures l.draws[3].x == l.draws[2].x + measure(row.priceText, fonts.price)
  {
    LabelFile(LabelFileName(index), LabelDraws(row, fonts, measure(row.priceText, fonts.price)), template)
  }

  function LabelFiles(rows: seq<Record>, fonts: FontSizes, template: Size,
                      measure: (string, nat) -> nat): seq<LabelFile>
  {
    seq(|rows|, i requires 0 <= i < |rows| => LabelOf(i, rows[i], fonts, template, measure))
  }

  function PathsOf(labels: seq<LabelFile>): seq<string> {
    seq(|labels|, i requires 0 <= i < |labels| => labels[i].path)
  }

  /** Collage `k` (from 0) of a batch of labels that all have the template's
      size: three labels wide and six high, label j in cell (j mod 3, j div 3). */
  function CollageOf(k: nat, group: seq<string>, template: Size): (out: CollageOutput)
    requires |group| > 0
    ensures out.path == CollageFileName(k + 1) && out.members == group
    ensures out.collage.canvas == Size(Cols * template.width, Rows * template.height)
    ensures |out.collage.pastes| == |group|
    ensures forall j :: 0 <= j < |group| ==> out.collage.pastes[j] == PasteAt(j, template)
  {
    var images := seq(|group|, _ => template);
    UniformCanvas(images, template);
    CollageOutput(CollageFileName(k + 1), group, Layout(images).value)
  }

  function CollageOutputs(paths: seq<string>, template: Size): seq<CollageOutput> {
    var groups := Batches(paths);
    seq(|groups|, k requires 0 <= k < |groups| => CollageOf(k, groups[k], template))
  }

  function CollageFiles(collages: seq<CollageOutput>): seq<CollageFile> {
    seq(|collages|, k requires 0 <= k < |collages| => CollageFile(collages[k].path, collages[k].collage.canvas))
  }

  /** Everything one run produces, or the error of a table without rows:
      then there is no collage, and the document step has no first collage
      to size its pages by. */
  function Pipeline(rows: seq<Record>, fonts: FontSizes, template: Size,
                    measure: (string, nat) -> nat): (r: Result<RunOutput, PdfError>)
    ensures r.Ok? <==> |rows| > 0
    ensures r.Ok? ==>
      && |r.value.labels| == |rows|
      && |r.value.collages| == (|rows| + BatchSize - 1) / BatchSize
      && |r.value.document.pages| == |r.value.collages|
  {
    var labels := LabelFiles(rows, fonts, template, measure);
    var collages := CollageOutputs(PathsOf(labels), template);
    var files := CollageFiles(collages);
    match PdfLayout(files)
    case Err(e) => Err(e)
    case Ok(doc) =>
      PagesFollowCollages(files);
      Ok(RunOutput(labels, collages, doc))
  }

  /** `main` after the table is read: write a label per row with the fixed
      font sizes, a collage per batch of 18 labels read back from their
      files, then the document of the collages read back from theirs. Also
      returns the folder: exactly the label and collage files, each with its
      pixel size. */
  method Run(rows: seq<Record>, template: Size, measure: (string, nat) -> nat)
    returns (r: Result<RunOutput, PdfError>, disk: map<string, Size>)
    ensures r == Pipeline(rows, DriverFonts, template, measure)
    ensures disk.Keys == LabelNames(|rows|) + CollageNames((|rows| + BatchSize - 1) / BatchSize)
    ensures forall i :: 0 <= i < |rows| ==> LabelFileName(i) in disk && disk[LabelFileName(i)] == template
    ensures forall k :: 1 <= k <= (|rows| + BatchSize - 1) / BatchSize ==>
      CollageFileName(k) in disk && disk[CollageFileName(k)] == Size(Cols * template.width, Rows * template.height)
  {
    var labels, imagePaths;
    labels, imagePaths, disk := WriteLabels(rows, DriverFonts, template, measure);
    var collages, collagePaths;
    collages, collagePaths, disk := WriteCollages(imagePaths, template, disk);
    forall k | 1 <= k <= |collages|
      ensures CollageFileName(k) in disk && disk[CollageFileName(k)] == Size(Cols * template.width, Rows * template.height)
    {
      assert collages[k - 1].path == CollageFileName(k);
    }
    var collageFiles := seq(|collagePaths|, k requires 0 <= k < |collagePaths| => CollageFile(collagePaths[k], disk[collagePaths[k]]));
    assert collageFiles == CollageFiles(collages);
    var doc := CreatePdf(collageFiles);
    if doc.Err? {
      r := Err(doc.error);
    } else {
      r := Ok(RunOutput(labels, collages, doc.value));
    }
  }

  /** The first loop of `main`: render and save one label per row, in table
      order; the folder then holds exactly these labels. */
  method WriteLabels(rows: seq<Record>, fonts: FontSizes, template: Size, measure: (string, nat) -> nat)
    returns (labels: seq<LabelFile>, imagePaths: seq<string>, disk: map<string, Size>)
    ensures labels == LabelFiles(rows, fonts, template, measure)
    ensures imagePaths == PathsOf(labels)
    ensures LabelsStored(imagePaths, disk, template)
    ensures disk.Keys == LabelNames(|rows|)
  {
    disk := map[];
    labels, imagePaths := [], [];
    for index := 0 to |rows|
      invariant LabelsWritten(rows, fonts, template, measure, index, labels, imagePaths, disk)
    {
      var labelFile := LabelOf(index, rows[index], fonts, template, measure);
      LabelStep(rows, fonts, template, measure, index, labels, imagePaths, disk);
      disk := disk[labelFile.path := template];
      labels := labels + [labelFile];
      imagePaths := imagePaths + [labelFile.path];
    }
    assert rows[..|rows|] == rows;
  }

  /** The state of the first loop after `index` rows. */
  ghost predicate LabelsWritten(rows: seq<Record>, fonts: FontSizes, template: Size, measure: (string, nat) -> nat,
                                index: nat, labels: seq<LabelFile>, imagePaths: seq<string>, disk: map<string, Size>)
  {
    && index <= |rows|
    && labels == LabelFiles(rows[..index], fonts, template, measure)
    && imagePaths == PathsOf(labels)
    && LabelsStored(imagePaths, disk, template)
    && disk.Keys == LabelNames(index)
  }

  /** One pass of the first loop keeps its state. */
  lemma LabelStep(rows: seq<Record>, fonts: FontSizes, template: Size, measure: (string, nat) -> nat,
                  index: nat, labels: seq<LabelFile>, imagePaths: seq<string>, disk: map<string, Size>)
    requires index < |rows|
    requires LabelsWritten(rows, fonts, template, measure, index, labels, imagePaths, disk)
    ensures var l := LabelOf(index, rows[index], fonts, template, measure);
      LabelsWritten(rows, fonts, template, measure, index + 1, labels + [l], imagePaths + [l.path],
                    disk[l.path := template])
  {
    var l := LabelOf(index, rows[index], fonts, template, measure);
    LabelFilesSnoc(rows, index, fonts, template, measure);
    StoreLabel(imagePaths, disk, template);
    LabelNamesStep(index);
    assert PathsOf(labels + [l]) == imagePaths + [l.path];
  }

  lemma LabelFilesSnoc(rows: seq<Record>, index: nat, fonts: FontSizes, template: Size,
                       measure: (string, nat) -> nat)
    requires index < |rows|
    ensures LabelFiles(rows[..index + 1], fonts, template, measure)
      == LabelFiles(rows[..index], fonts, template, measure) + [LabelOf(index, rows[index], fonts, template, measure)]
  {
    var longer := LabelFiles(rows[..index + 1], fonts, template, measure);
    var shorter := LabelFiles(rows[..index], fonts, template, measure);
    var expected := shorter + [LabelOf(index, rows[index], fonts, template, measure)];
    assert |longer| == |expected|;
    forall k | 0 <= k < |longer| ensures longer[k] == expected[k] {
      assert rows[..index + 1][k] == rows[k];
      if k < index {
        assert rows[..index][k] == rows[k];
      }
    }
  }

  /** Saving the label of the next row overwrites no earlier label. */
  lemma StoreLabel(imagePaths: seq<string>, disk: map<string, Size>, template: Size)
    requires LabelsStored(imagePaths, disk, template)
    ensures LabelsStored(imagePaths + [LabelFileName(|imagePaths|)],
                         disk[LabelFileName(|imagePaths|) := template], template)
  {
    var path := LabelFileName(|imagePaths|);
    var paths', disk' := imagePaths + [path], disk[path := template];
    forall j | 0 <= j < |paths'|
      ensures paths'[j] == LabelFileName(j) && paths'[j] in disk' && disk'[paths'[j]] == template
    {
      if j < |imagePaths| {
        assert paths'[j] == imagePaths[j];
        LabelFileNameInjective(j, |imagePaths|);
        assert paths'[j] != path;
      }
    }
  }

  /** The second loop of `main`: one collage per batch of 18 label files,
      each read back from the folder, saved as collage number k + 1; the
      folder gains exactly the collage files. */
  method WriteCollages(imagePaths: seq<string>, template: Size, disk0: map<string, Size>)
    returns (collages: seq<CollageOutput>, collagePaths: seq<string>, disk: map<string, Size>)
    requires LabelsStored(imagePaths, disk0, template)
    ensures collages == CollageOutputs(imagePaths, template)
    ensures |collagePaths| == |collages| && forall k :: 0 <= k < |collages| ==> collagePaths[k] == collages[k].path
    ensures LabelsStored(imagePaths, disk, template) && CollagesStored(collages, disk)
    ensures disk.Keys == disk0.Keys + CollageNames(|collages|)
  {
    disk := disk0;
    var groups := Batches(imagePaths);
    collages, collagePaths := [], [];
    for i := 0 to |groups|
      invariant CollagesWritten(imagePaths, template, disk0, i, collages, collagePaths, disk)
    {
      BatchStored(imagePaths, disk, template, i);
      var out, disk' := WriteCollage(i, groups[i], template, disk);
      CollageStep(imagePaths, template, disk0, i, collages, collagePaths, disk, out);
      disk := disk';
      collages := collages + [out];
      collagePaths := collagePaths + [out.path];
    }
    assert CollageOutputs(imagePaths, template)[..|groups|] == CollageOutputs(imagePaths, template);
  }

  /** The state of the second loop after `i` batches. */
  ghost predicate CollagesWritten(imagePaths: seq<string>, template: Size, disk0: map<string, Size>, i: nat,
                                  collages: seq<CollageOutput>, collagePaths: seq<string>, disk: map<string, Size>)
  {
    && i <= |Batches(imagePaths)|
    && collages == CollageOutputs(imagePaths, template)[..i]
    && |collagePaths| == i && (forall k :: 0 <= k < i ==> collagePaths[k] == collages[k].path)
    && LabelsStored(imagePaths, disk, template) && CollagesStored(collages, disk)
    && disk.Keys == disk0.Keys + CollageNames(i)
  }

  /** One pass of the second loop keeps its state. */
  lemma CollageStep(imagePaths: seq<string>, template: Size, disk0: map<string, Size>, i: nat,
                    collages: seq<CollageOutput>, collagePaths: seq<string>, disk: map<string, Size>,
                    out: CollageOutput)
    requires i < |Batches(imagePaths)|
    requires CollagesWritten(imagePaths, template, disk0, i, collages, collagePaths, disk)
    requires out == CollageOf(i, Batches(imagePaths)[i], template)
    ensures CollagesWritten(imagePaths, template, disk0, i + 1, collages + [out], collagePaths + [out.path],
                            disk[out.path := out.collage.canvas])
  {
    CollageOutputsSnoc(imagePaths, template, i);
    StoreCollage(imagePaths, collages, disk, template, out);
    CollageNamesStep(i);
    var paths' := collagePaths + [out.path];
    forall k | 0 <= k < i + 1 ensures paths'[k] == (collages + [out])[k].path {
      if k < i { assert paths'[k] == collagePaths[k]; }
    }
  }

  lemma CollageOutputsSnoc(imagePaths: seq<string>, template: Size, i: nat)
    requires i < |Batches(imagePaths)|
    ensures CollageOutputs(imagePaths, template)[..i + 1]
      == CollageOutputs(imagePaths, template)[..i] + [CollageOf(i, Batches(imagePaths)[i], template)]
  {
    var expected := CollageOutputs(imagePaths, template);
    assert expected[i] == CollageOf(i, Batches(imagePaths)[i], template);
  }

  /** Every label of batch `i` is in the folder with the template's size. */
  lemma BatchStored(imagePaths: seq<string>, disk: map<string, Size>, template: Size, i: nat)
    requires LabelsStored(imagePaths, disk, template) && i < |Batches(imagePaths)|
    ensures forall j :: 0 <= j < |Batches(imagePaths)[i]| ==>
      Batches(imagePaths)[i][j] in disk && disk[Batches(imagePaths)[i][j]] == template
  {
    forall j | 0 <= j < |Batches(imagePaths)[i]|
      ensures Batches(imagePaths)[i][j] in disk && disk[Batches(imagePaths)[i][j]] == template
    {
      BatchesAt(imagePaths, i, j);
    }
  }

  /** Every label file of the run is in the folder, with the template's size. */
  ghost predicate LabelsStored(imagePaths: seq<string>, disk: map<string, Size>, template: Size) {
    forall j :: 0 <= j < |imagePaths| ==>
      imagePaths[j] == LabelFileName(j) && imagePaths[j] in disk && disk[imagePaths[j]] == template
  }

  /** Every collage written so far is in the folder under its number, with its canvas size. */
  ghost predicate CollagesStored(collages: seq<CollageOutput>, disk: map<string, Size>) {
    forall k :: 0 <= k < |collages| ==>
      collages[k].path == CollageFileName(k + 1) && collages[k].path in disk
      && disk[collages[k].path] == collages[k].collage.canvas
  }

  /** Saving the next collage overwrites no label and no earlier collage. */
  lemma StoreCollage(imagePaths: seq<string>, collages: seq<CollageOutput>, disk: map<string, Size>,
                     template: Size, out: CollageOutput)
    requires LabelsStored(imagePaths, disk, template) && CollagesStored(collages, disk)
    requires out.path == CollageFileName(|collages| + 1)
    ensures LabelsStored(imagePaths, disk[out.path := out.collage.canvas], template)
    ensures CollagesStored(collages + [out], disk[out.path := out.collage.canvas])
  {
    forall j | 0 <= j < |imagePaths| ensures imagePaths[j] != out.path {
      FileKindsDistinct(j, |collages| + 1);
    }
    forall k | 0 <= k < |collages| ensures collages[k].path != out.path {
      CollageFileNameInjective(k + 1, |collages| + 1);
    }
  }

  /** One pass of the second loop: open the labels of one batch, lay them
      out, save the collage as number `k + 1`. */
  method WriteCollage(k: nat, group: seq<string>, template: Size, disk: map<string, Size>)
    returns (out: CollageOutput, disk': map<string, Size>)
    requires |group| > 0
    requires forall j :: 0 <= j < |group| ==> group[j] in disk && disk[group[j]] == template
    ensures out == CollageOf(k, group, template)
    ensures disk' == disk[out.path := out.collage.canvas]
  {
    var images := seq(|group|, j requires 0 <= j < |group| => disk[group[j]]);
    assert images == seq(|group|, _ => template);
    var made := CreateCollage(images);
    out := CollageOutput(CollageFileName(k + 1), group, made.value);
    disk' := disk[out.path := out.collage.canvas];
  }

  // ---------------------------------------------------------------------
  // Properties of a run

  function MembersOf(collages: seq<CollageOutput>): seq<seq<string>> {
    seq(|collages|, k requires 0 <= k < |collages| => collages[k].members)
  }

  /** What a run on a non-empty table writes: label i as `imagem_i.png`;
      ceil(N/18) collages, collage k (from 0) as `3x6_<k+1>.png`, whose
      batches laid end to end are the label files in row order; and a
      document with one page per collage, in the same order. */
  lemma RunShape(rows: seq<Record>, fonts: FontSizes, template: Size, measure: (string, nat) -> nat)
    requires |rows| > 0
    ensures Pipeline(rows, fonts, template, measure).Ok?
    ensures var o := Pipeline(rows, fonts, template, measure).value;
      && |o.labels| == |rows|
      && (forall i :: 0 <= i < |rows| ==> o.labels[i].path == LabelFileName(i))
      && |o.collages| == (|rows| + BatchSize - 1) / BatchSize
      && (forall k :: 0 <= k < |o.collages| ==> o.collages[k].path == CollageFileName(k + 1))
      && Flatten(MembersOf(o.collages)) == PathsOf(o.labels)
      && |o.document.pages| == |o.collages|
      && (forall k :: 0 <= k < |o.collages| ==>
            |o.document.pages[k].images| == 1 && o.document.pages[k].images[0].path == o.collages[k].path)
  {
    var o := Pipeline(rows, fonts, template, measure).value;
    var paths := PathsOf(o.labels);
    assert MembersOf(o.collages) == Batches(paths);
    BatchesFlatten(paths);
    PagesFollowCollages(CollageFiles(o.collages));
  }

  /** Every collage of a run is three labels wide and six high, so all
      collages have the first one's size and every page shows its collage
      unstretched. */
  lemma RunPagesUnstretched(rows: seq<Record>, fonts: FontSizes, template: Size, measure: (string, nat) -> nat)
    requires |rows| > 0
    ensures Pipeline(rows, fonts, template, measure).Ok?
    ensures var o := Pipeline(rows, fonts, template, measure).value;
      forall k :: 0 <= k < |o.collages| ==>
        && o.collages[k].collage.canvas == Size(Cols * template.width, Rows * template.height)
        && o.document.pages[k].images[0].width == o.collages[k].collage.canvas.width
        && o.document.pages[k].images[0].height == o.collages[k].collage.canvas.height
  {
    var o := Pipeline(rows, fonts, template, measure).value;
    UnstretchedIff(CollageFiles(o.collages));
  }

  /** A table of 20 rows gives 20 labels, two collages of 18 and 2 labels,
      and a document of two pages. */
  lemma RunOfTwentyRows(rows: seq<Record>, fonts: FontSizes, template: Size, measure: (string, nat) -> nat)
    requires |rows| == 20
    ensures Pipeline(rows, fonts, template, measure).Ok?
    ensures var o := Pipeline(rows, fonts, template, measure).value;
      && |o.labels| == 20 && |o.collages| == 2
      && |o.collages[0].members| == 18 && |o.collages[1].members| == 2
      && |o.document.pages| == 2
  {
    RunShape(rows, fonts, template, measure);
    var o := Pipeline(rows, fonts, template, measure).value;
    BatchSizes(PathsOf(o.labels));
  }
}
