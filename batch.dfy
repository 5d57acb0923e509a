/** Batches and output file names of the driver (`main`): the label paths
    are cut into consecutive groups of 18, one collage per group, and every
    file gets a name built from a running number. */
module Batch {
  import opened Text

  /** Labels per collage: one sheet of 6 rows by 3 columns. */
  const BatchSize := 18

  /** `[items[i:i+18] for i in range(0, len(items), 18)]`; the slice stops
      at the end of the list. */
  function Batches<T>(items: seq<T>): (groups: seq<seq<T>>)
    ensures |groups| == (|items| + BatchSize - 1) / BatchSize
    ensures forall k :: 0 <= k < |groups| ==> 1 <= |groups[k]| <= BatchSize
  {
    seq((|items| + BatchSize - 1) / BatchSize,
        k requires 0 <= k < (|items| + BatchSize - 1) / BatchSize =>
          items[BatchSize * k .. Min(BatchSize * k + BatchSize, |items|)])
  }

  /** The groups laid end to end. */
  function Flatten<T>(groups: seq<seq<T>>): seq<T> {
    if groups == [] then [] else groups[0] + Flatten(groups[1..])
  }

  /** File of the label for row `index` of the table; the row index can be
      read back from the digits between the prefix and the extension. */
  function LabelFileName(index: nat): (name: string)
    ensures |name| > 11 && name[..7] == "imagem_" && name[|name| - 4..] == ".png"
    ensures AllDigits(name[7..|name| - 4]) && DecimalValue(name[7..|name| - 4]) == index
  {
    NumberInName("imagem_", index, ".png");
    DecimalRoundTrip(index);
    "imagem_" + DecimalString(index) + ".png"
  }

  /** File of collage number `number`; numbering starts at 1, and the number
      can be read back from the name. */
  function CollageFileName(number: nat): (name: string)
    ensures |name| > 8 && name[..4] == "3x6_" && name[|name| - 4..] == ".png"
    ensures AllDigits(name[4..|name| - 4]) && DecimalValue(name[4..|name| - 4]) == number
  {
    NumberInName("3x6_", number, ".png");
    DecimalRoundTrip(number);
    "3x6_" + DecimalString(number) + ".png"
  }

  const PdfFileName := "output.pdf"

  /** The label files of the first `n` rows. */
  function LabelNames(n: nat): set<string> {
    set i | 0 <= i < n :: LabelFileName(i)
  }

  /** The files of collages 1 to `n`. */
  function CollageNames(n: nat): set<string> {
    set k | 1 <= k <= n :: CollageFileName(k)
  }

  lemma LabelNamesStep(n: nat)
    ensures LabelNames(n + 1) == LabelNames(n) + {LabelFileName(n)}
  {
    assert LabelFileName(n) in LabelNames(n + 1);
  }

  lemma CollageNamesStep(n: nat)
    ensures CollageNames(n + 1) == CollageNames(n) + {CollageFileName(n + 1)}
  {
    assert CollageFileName(n + 1) in CollageNames(n + 1);
  }

  // ---------------------------------------------------------------------
  // Properties of the batches

  /** Element j of batch k is item 18k + j. */
  lemma BatchesAt<T>(items: seq<T>, k: nat, j: nat)
    requires k < |Batches(items)| && j < |Batches(items)[k]|
    ensures BatchSize * k + j < |items|
    ensures Batches(items)[k][j] == items[BatchSize * k + j]
  {
  }

  lemma BatchesStep<T>(items: seq<T>)
    requires |items| > BatchSize
    ensures Batches(items) == [items[..BatchSize]] + Batches(items[BatchSize..])
  {
    var b, rest := Batches(items), Batches(items[BatchSize..]);
    assert |b| == 1 + |rest|;
    forall k | 1 <= k < |b| ensures b[k] == rest[k - 1] {
      BatchOfTail(items, k);
    }
  }

  /** Batch k of the items is batch k - 1 of the items after the first 18. */
  lemma BatchOfTail<T>(items: seq<T>, k: nat)
    requires |items| > BatchSize && 1 <= k < |Batches(items)|
    ensures k - 1 < |Batches(items[BatchSize..])|
    ensures Batches(items)[k] == Batches(items[BatchSize..])[k - 1]
  {
    var lo := BatchSize * k;
    var hi := Min(lo + BatchSize, |items|);
    assert BatchSize * (k - 1) + BatchSize == lo;
    assert Min(BatchSize * (k - 1) + BatchSize, |items| - BatchSize) == hi - BatchSize;
    SliceOfDrop(items, BatchSize, lo, hi);
  }

  lemma SliceOfDrop<T>(items: seq<T>, d: nat, lo: nat, hi: nat)
    requires d <= lo <= hi <= |items|
    ensures items[d..][lo - d .. hi - d] == items[lo..hi]
  {
  }

  /** Laying the batches end to end gives back the labels, in order: no
      label is lost, repeated or moved. */
  lemma {:induction false} BatchesFlatten<T>(items: seq<T>)
    ensures Flatten(Batches(items)) == items
    decreases |items|
  {
    if |items| == 0 {
    } else if |items| <= BatchSize {
      assert |Batches(items)| == 1;
      assert Batches(items)[0] == items[0 .. |items|] == items;
      assert Flatten([items]) == items + Flatten<T>([]);
    } else {
      BatchesStep(items);
      var b := Batches(items);
      assert b[1..] == Batches(items[BatchSize..]);
      BatchesFlatten(items[BatchSize..]);
      assert items == items[..BatchSize] + items[BatchSize..];
    }
  }

  /** N labels give ceil(N/18) batches; all but the last hold 18 labels,
      the last holds the remainder, or 18 when N is a multiple of 18. */
  lemma BatchSizes<T>(items: seq<T>)
    ensures |Batches(items)| == (|items| + BatchSize - 1) / BatchSize
    ensures forall k :: 0 <= k < |Batches(items)| - 1 ==> |Batches(items)[k]| == BatchSize
    ensures |items| > 0 ==>
      |Batches(items)[|Batches(items)| - 1]| == if |items| % BatchSize == 0 then BatchSize else |items| % BatchSize
  {
  }

  // ---------------------------------------------------------------------
  // Properties of the file names

  lemma NumberInName(prefix: string, n: nat, suffix: string)
    ensures var name := prefix + DecimalString(n) + suffix;
      name[|prefix| .. |name| - |suffix|] == DecimalString(n)
  {
  }

  /** Different rows write different label files, so no label overwrites
      another. */
  lemma LabelFileNameInjective(a: nat, b: nat)
    ensures LabelFileName(a) == LabelFileName(b) <==> a == b
  {
  }

  /** Different collage numbers give different collage files. */
  lemma CollageFileNameInjective(a: nat, b: nat)
    ensures CollageFileName(a) == CollageFileName(b) <==> a == b
  {
  }

  /** Label files, collage files and the document never share a name. */
  lemma FileKindsDistinct(a: nat, b: nat)
    ensures LabelFileName(a) != CollageFileName(b)
    ensures LabelFileName(a) != PdfFileName && CollageFileName(b) != PdfFileName
  {
    assert LabelFileName(a)[0] == 'i' && CollageFileName(b)[0] == '3';
    assert LabelFileName(a)[1] == 'm';
  }
}
