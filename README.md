# Label sheets: a Dafny model

The script `canvaetiqueta.py` turns a table of products (name, reference,
retail price) into printable label sheets. It draws one label image per row on
a copy of a background template. It tiles the labels 18 at a time into
collages of 6 rows by 3 columns. Then it builds a PDF with one page per
collage. This project models the deterministic logic under the library calls
and proves what that logic promises:

- **Name wrapping** (`adicionar_quebra_de_linha`, module `NameWrap`): the name is
  split on whitespace exactly as Python's `str.split()` splits it (module
  `Text`). The tokens are grouped two per line, and the lines are joined with
  `\n`. The loop is a method, proved equal to a recursive reference definition.
  The lemmas cover the line count ceil(N/2), the tokens on each line, and the
  round trip back to the original tokens.
- **Price position** (`calcular_posicao_x`, module `PricePosition`): the x
  anchor is 320, 310, 300 or 290, chosen by the number of characters of
  `str(preco)`. A float price such as `25.0` has four characters.
- **Label texts** (`criar_imagem`, module `Label`): the four texts a label gets,
  with their anchors and sizes. The ",00" suffix is placed at the width the
  drawing library measures for the price, which is a parameter here.
- **Collage geometry** (`create_collage`, module `CollageGeometry`): the canvas
  size and the sequence of paste offsets. The loop is a method proved against
  `Layout`.
- **Batches and file names** (`main`, module `Batch`): chunks of 18 labels,
  `imagem_<i>.png`, `3x6_<k+1>.png` and `output.pdf`.
- **Document** (`create_pdf`, module `PdfDocument`): a canvas object whose
  pages are appended one at a time. Every page has the first collage's size.
- **Driver** (`main`, module `Pipeline`): the two loops of `main` and the call to
  `create_pdf`. The output folder is a map from file name to pixel size, so
  labels and collages are written and then read back the way the script does it.

Two points where the code says more than its comments:

- The comment at canvaetiqueta.py:14 says the price offset depends on the
  number of digits. The code counts every character of `str(preco)`, so a
  decimal point or a minus sign counts too. The model counts characters.
- Line 71 puts image `i` in row `i div 3`. From index 18 on, a same-size image
  therefore lies wholly below the 6-row canvas and is clipped
  (`CollageGeometry.UniformOverflowOutside`).

## Model

| member | source | states |
|---|---|---|
| Text.Split | canvaetiqueta.py:8 | `str.split()`: every token is non-empty and free of whitespace; there are no tokens exactly when the text is all whitespace |
| Text.SplitAround | canvaetiqueta.py:8 | a whitespace character cuts a text into two parts whose tokens are simply concatenated |
| Text.SplitJoin | canvaetiqueta.py:8-12 | splitting words joined by one whitespace character gives back exactly those words |
| Text.SplitOn | canvaetiqueta.py:49 | splitting on `\n` (how a multi-line text is cut into lines when drawn) always yields at least one piece, none containing `\n` |
| Text.SplitOnJoin | canvaetiqueta.py:12 | splitting on `\n` undoes `'\n'.join` of pieces that contain no `\n` |
| Text.JoinAvoids | canvaetiqueta.py:11-12 | a character that is in no part and not in the separator is not in `sep.join(parts)` |
| Text.DecimalString | canvaetiqueta.py:104 | the f-string text of an index is decimal digits with no leading zero |
| Text.DecimalRoundTrip | canvaetiqueta.py:104 | reading the decimal text back gives the number |
| NameWrap.AddLineBreaks | canvaetiqueta.py:7-12 | the loop's result equals the reference wrapping, splits back to the name's tokens, and has ceil(N/2) lines |
| NameWrap.Lines | canvaetiqueta.py:10-11 | N tokens give ceil(N/2) lines |
| NameWrap.WrappedName | canvaetiqueta.py:7-12 | splitting the wrapped text on whitespace gives the name's own tokens |
| NameWrap.LinesAt | canvaetiqueta.py:10-11 | line k is tokens 2k and 2k+1 (or only 2k at the end) joined by a space |
| NameWrap.LineTokens | canvaetiqueta.py:10-11 | line k splits back into tokens 2k..2k+1; every line but the last has two tokens; the last has one or two |
| NameWrap.WrapRoundTrip | canvaetiqueta.py:8-12 | splitting the wrapped text gives back the original tokens in order |
| NameWrap.LinesRecoverable | canvaetiqueta.py:12 | no line contains `\n`, so splitting the wrapped text on `\n` gives back exactly the lines |
| NameWrap.WrappedEmptyIff | canvaetiqueta.py:8-12 | the wrapped text is empty exactly when the name is all whitespace |
| NameWrap.WrapExample | canvaetiqueta.py:7-12 | "Arroz Branco Tipo 1" wraps to "Arroz Branco\nTipo 1" |
| PricePosition.PriceX | canvaetiqueta.py:15-25 | the offset is one of 290, 300, 310, 320; it is 320 exactly for one character and 290 exactly for none or four and more |
| PricePosition.PriceXByLength | canvaetiqueta.py:16-25 | for a non-empty price text the offset is 330 - 10 × min(length, 4) |
| PricePosition.PriceXNonIncreasing | canvaetiqueta.py:16-25 | a longer price text never starts further right, and strictly further left up to four characters |
| PricePosition.PriceXExamples | canvaetiqueta.py:15-25 | "7"→320, "42"→310, "123"→300, "4567"→290, "25.0"→290 |
| Label.SuffixSize | canvaetiqueta.py:36 | the suffix size is forty percent of the price size, rounded down |
| Label.LabelDraws | canvaetiqueta.py:36-56 | four texts in drawing order: the wrapped name at (40, 20) in the name size; the reference at (700, 500) in the reference size; the price text at (offset, 700) in the price size, with the offset between 290 and 320; and ",00" at (offset + measured price width, 900) in the suffix size |
| CollageGeometry.MaxOf | canvaetiqueta.py:64-65 | `max` over a non-empty list is an element and bounds every element |
| CollageGeometry.Layout | canvaetiqueta.py:61-72 | an empty batch is an error (the `max` of nothing), any other batch gets one paste per image |
| CollageGeometry.CreateCollage | canvaetiqueta.py:61-74 | the paste loop produces exactly the layout of the batch |
| CollageGeometry.PasteAt | canvaetiqueta.py:70-72 | image i is pasted at its own size; its column stays within 3 image widths; it lies within 6 image heights when i < 18 and starts below them otherwise |
| CollageGeometry.UniformCanvas | canvaetiqueta.py:64-65 | a non-empty batch of one image size gets a canvas of exactly 3 × 6 such images |
| CollageGeometry.CanvasSize | canvaetiqueta.py:64-65 | the canvas is exactly 3 × the widest and 6 × the tallest image |
| CollageGeometry.PasteInsideCanvas | canvaetiqueta.py:62-72 | each of the first 18 images lies wholly inside the canvas, for any image sizes |
| CollageGeometry.UniformPastesDisjoint | canvaetiqueta.py:69-72 | with one image size, pastes of different images never overlap |
| CollageGeometry.UniformOverflowOutside | canvaetiqueta.py:62-72 | with one image size, images from index 18 on are pasted wholly below the canvas |
| Batch.Batches | canvaetiqueta.py:118 | ceil(N/18) batches, each holding 1 to 18 labels |
| Batch.BatchesAt | canvaetiqueta.py:118 | element j of batch k is label 18k + j |
| Batch.BatchesFlatten | canvaetiqueta.py:118 | the batches laid end to end are the label list, in order |
| Batch.BatchSizes | canvaetiqueta.py:118 | all batches but the last hold 18; the last holds N mod 18, or 18 when that is 0 |
| Batch.LabelFileName | canvaetiqueta.py:104 | `imagem_` + digits + `.png`, and the digits read back as the row index |
| Batch.CollageFileName | canvaetiqueta.py:120 | `3x6_` + digits + `.png`, and the digits read back as the collage number |
| Batch.LabelFileNameInjective | canvaetiqueta.py:104 | two label file names are equal exactly when their row indices are |
| Batch.CollageFileNameInjective | canvaetiqueta.py:120 | two collage file names are equal exactly when their numbers are |
| Batch.FileKindsDistinct | canvaetiqueta.py:97-120 | a label file, a collage file and the document never share a name |
| PdfDocument.PdfCanvas.constructor | canvaetiqueta.py:81 | a new document has the given page size and no pages |
| PdfDocument.PdfCanvas.DrawInlineImage | canvaetiqueta.py:84 | adds one drawing to the page in progress and leaves finished pages alone |
| PdfDocument.PdfCanvas.ShowPage | canvaetiqueta.py:85 | appends the page in progress to the document and starts an empty one |
| PdfDocument.PdfLayout | canvaetiqueta.py:77-85 | no collages is an error (`collage_paths[0]`), otherwise there is a document |
| PdfDocument.CreatePdf | canvaetiqueta.py:77-87 | the drawing loop produces exactly the reference document |
| PdfDocument.PagesFollowCollages | canvaetiqueta.py:78-85 | one page per collage, in order, each showing only its collage from the corner at the first collage's size |
| PdfDocument.UnstretchedIff | canvaetiqueta.py:79-84 | every collage is shown at its own size exactly when all collages have the first one's size |
| Pipeline.LabelOf | canvaetiqueta.py:103-114 | the label of row i is named `imagem_i.png`, has the template's size, and draws the wrapped name, the reference, the price at its offset and ",00" after the measured price width |
| Pipeline.CollageOf | canvaetiqueta.py:119-122 | collage k of template-sized labels is named `3x6_<k+1>.png`, tiles exactly its batch, has a canvas of 3 × 6 templates, and pastes label j at its grid cell |
| Pipeline.Pipeline | canvaetiqueta.py:102-125 | a run fails exactly when the table has no rows; otherwise it makes one label per row, ceil(N/18) collages and one page per collage |
| Pipeline.Run | canvaetiqueta.py:90-125 | with the fixed sizes 90, 150 and 450, the driver's result equals the reference run; the folder holds exactly the N label files at the template's size and the ceil(N/18) collage files at 3 × 6 template sizes |
| Pipeline.WriteLabels | canvaetiqueta.py:102-115 | one label per row in table order, row i saved as `imagem_i.png` with the template's size; the folder holds exactly these files |
| Pipeline.LabelStep | canvaetiqueta.py:103-115 | one pass of the label loop keeps the labels, the paths and the folder in step with the rows done |
| Pipeline.StoreLabel | canvaetiqueta.py:103-115 | saving the label of the next row overwrites no earlier label |
| Pipeline.WriteCollages | canvaetiqueta.py:117-123 | one collage per batch, in order, its name recorded in the list of collage paths; the folder gains exactly the collage files and no label file is overwritten |
| Pipeline.CollageStep | canvaetiqueta.py:119-123 | one pass of the collage loop keeps the collages, their paths and the folder in step with the batches done |
| Pipeline.BatchStored | canvaetiqueta.py:118-121 | every label of a batch is in the folder at the template's size when the batch is opened |
| Pipeline.WriteCollage | canvaetiqueta.py:119-123 | a batch read back from the folder gives the collage of template-sized labels, saved under its number |
| Pipeline.StoreCollage | canvaetiqueta.py:104-122 | saving collage k+1 overwrites no label file and no earlier collage |
| Pipeline.RunShape | canvaetiqueta.py:102-125 | N labels named by row, ceil(N/18) collages numbered from 1 whose batches are the labels in order, and one page per collage in order |
| Pipeline.RunPagesUnstretched | canvaetiqueta.py:64-85 | every collage of a run is 3 × 6 template sizes, so every page shows its collage at its own size |
| Pipeline.RunOfTwentyRows | canvaetiqueta.py:102-125 | 20 rows give 20 labels, collages of 18 and 2 labels, and 2 pages |

## Left out

- Pixels: `Image.open`, `Image.new` with a white fill, `paste`, `save`,
  `ImageDraw.text` with black fill, and the raster contents of every image
  (canvaetiqueta.py:29-30, 49-58, 67-74). A label is its list of text drawings.
  A collage is its canvas size and its paste offsets. A file is its pixel size.
- Text measurement: `textbbox` (canvaetiqueta.py:54-55) is the parameter
  `measure(text, size)`, an arbitrary non-negative width.
- Fonts: `ImageFont.truetype` and the font file (canvaetiqueta.py:33-36). Only
  the point sizes are kept.
- Label.SuffixSize: computes `int(fonte_varejo * 0.4)` as the exact `size * 4 / 10`.
  Floating-point rounding is not modelled.
- The table: `pd.read_csv` with latin1 (canvaetiqueta.py:91). Rows are given
  as records whose price is already the text `str(varejo)`. Row indices are
  0..N-1, the default index of a freshly read table.
- Folders: `os.path.join`, the hard-coded output folder, and
  `os.path.exists`/`os.makedirs` (canvaetiqueta.py:96-100). File names are
  modelled without the folder. The folder starts empty, so files left by an
  earlier run are not modelled.
- PDF serialisation: `c.save()` (canvaetiqueta.py:87) and the reportlab encoding
  of pages. The document is its page size and its list of pages.
- `varejo_completo` (canvaetiqueta.py:46): computed but never drawn, so not modelled.
- I/O failures: a missing template or font, or an unwritable folder, aborts
  the script. These are not modelled. The only error paths modelled are the
  empty `max` and the empty `collage_paths[0]`.
- Malformed table cells: the name and the reference are taken to be text.
  An empty `nome` cell reads as NaN, and its `.split()` raises at
  canvaetiqueta.py:8. A missing column raises `KeyError` at
  canvaetiqueta.py:106-108. Neither failure is modelled. An empty or
  non-numeric price does not fail: `str()` gives a text such as `nan`, which
  is drawn at the offset for its length. The price text is a free parameter
  of the model, so this case is covered.
- `output.pdf` is not among the folder's files: it is written by `c.save()`.
  `Batch.FileKindsDistinct` shows that its name differs from every label and
  collage name.
