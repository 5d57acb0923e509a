/** Name wrapping (`adicionar_quebra_de_linha`): the product name is cut
    into whitespace-separated tokens and drawn two tokens per line. */
module NameWrap {
  import opened Text

  /** The lines built from the tokens of a name: the tokens taken two at a
      time, in order, each pair joined by one space; an odd token out forms
      the last line on its own. */
  function Lines(tokens: seq<string>): (lines: seq<string>)
    ensures |lines| == (|tokens| + 1) / 2
    decreases |tokens|
  {
    if |tokens| == 0 then []
    else if |tokens| <= 2 then [Join(tokens, " ")]
    else [Join(tokens[..2], " ")] + Lines(tokens[2..])
  }

  /** The name as it is drawn on the label: its lines joined by newlines. */
  function WrappedName(name: string): (wrapped: string)
    ensures Split(wrapped) == Split(name)
  {
    WrapRoundTrip(Split(name));
    Join(Lines(Split(name)), "\n")
  }

  /** The loop of `adicionar_quebra_de_linha`: walk the tokens two at a
      time, append each pair as one line, then join the lines with `\n`. */
  method AddLineBreaks(text: string) returns (wrapped: string)
    ensures wrapped == WrappedName(text)
    ensures Split(wrapped) == Split(text)
    ensures |Lines(Split(text))| == (|Split(text)| + 1) / 2
  {
    var words := Split(text);
    var lines: seq<string> := [];
    var i := 0;
    while i < |words|
      invariant i % 2 == 0 && i <= |words| + 1
      invariant |lines| == i / 2
      invariant forall k :: 0 <= k < |lines| ==> lines[k] == Join(words[2 * k .. Min(2 * k + 2, |words|)], " ")
    {
      lines := lines + [Join(words[i .. Min(i + 2, |words|)], " ")];
      i := i + 2;
    }
    assert |lines| == |Lines(words)|;
    forall k | 0 <= k < |lines| ensures lines[k] == Lines(words)[k] {
      LinesAt(words, k);
    }
    assert lines == Lines(words);
    wrapped := Join(lines, "\n");
    WrapRoundTrip(words);
  }

  // ---------------------------------------------------------------------
  // Properties of the wrapping

  /** Line k holds tokens 2k and 2k+1 (only 2k when that is the last token). */
  lemma {:induction false} LinesAt(tokens: seq<string>, k: nat)
    requires k < (|tokens| + 1) / 2
    ensures |Lines(tokens)| == (|tokens| + 1) / 2
    ensures Lines(tokens)[k] == Join(tokens[2 * k .. Min(2 * k + 2, |tokens|)], " ")
    decreases |tokens|
  {
    if k == 0 {
      FirstLine(tokens);
    } else {
      var hi := Min(2 * k + 2, |tokens|);
      LinesShift(tokens, k);
      LinesAt(tokens[2..], k - 1);
      assert Min(2 * (k - 1) + 2, |tokens| - 2) == hi - 2;
      SliceOfTail(tokens, 2 * k, hi);
    }
  }

  lemma FirstLine(tokens: seq<string>)
    requires |tokens| > 0
    ensures Lines(tokens)[0] == Join(tokens[0 .. Min(2, |tokens|)], " ")
  {
    if |tokens| <= 2 {
      assert tokens[0 .. |tokens|] == tokens;
    } else {
      assert tokens[0 .. 2] == tokens[..2];
    }
  }

  /** Past the first line, the lines are those of the tokens after the first two. */
  lemma LinesShift(tokens: seq<string>, k: nat)
    requires 1 <= k < (|tokens| + 1) / 2
    ensures |tokens| > 2 && |Lines(tokens[2..])| == (|tokens[2..]| + 1) / 2
    ensures Lines(tokens)[k] == Lines(tokens[2..])[k - 1]
  {
  }

  lemma SliceOfTail(tokens: seq<string>, lo: nat, hi: nat)
    requires 2 <= lo <= hi <= |tokens|
    ensures tokens[2..][lo - 2 .. hi - 2] == tokens[lo..hi]
  {
  }

  /** Splitting line k back into tokens gives tokens 2k and 2k+1 of the
      name; every line but the last has exactly two tokens, the last has
      one or two. */
  lemma LineTokens(tokens: seq<string>, k: nat)
    requires AllWords(tokens)
    requires k < (|tokens| + 1) / 2
    ensures |Lines(tokens)| == (|tokens| + 1) / 2
    ensures Split(Lines(tokens)[k]) == tokens[2 * k .. Min(2 * k + 2, |tokens|)]
    ensures 1 <= |Split(Lines(tokens)[k])| <= 2
    ensures k < |Lines(tokens)| - 1 ==> |Split(Lines(tokens)[k])| == 2
  {
    LinesAt(tokens, k);
    var group := tokens[2 * k .. Min(2 * k + 2, |tokens|)];
    assert AllWords(group) by {
      forall j | 0 <= j < |group| ensures IsWord(group[j]) {
        assert group[j] == tokens[2 * k + j];
      }
    }
    SplitJoin(group, ' ');
  }

  /** Splitting the whole wrapped text on whitespace gives back the name's
      tokens, in order: the newlines and spaces added only separate them. */
  lemma {:induction false} WrapRoundTrip(tokens: seq<string>)
    requires AllWords(tokens)
    ensures Split(Join(Lines(tokens), "\n")) == tokens
    decreases |tokens|
  {
    if |tokens| == 0 {
    } else if |tokens| <= 2 {
      SplitJoin(tokens, ' ');
    } else {
      var first := Join(tokens[..2], " ");
      var rest := Lines(tokens[2..]);
      assert Lines(tokens)[1..] == rest;
      assert Join(Lines(tokens), "\n") == first + ['\n'] + Join(rest, "\n");
      SplitAround(first, '\n', Join(rest, "\n"));
      SplitJoin(tokens[..2], ' ');
      assert AllWords(tokens[2..]);
      WrapRoundTrip(tokens[2..]);
      assert tokens == tokens[..2] + tokens[2..];
    }
  }

  /** No line contains a newline, so splitting the wrapped text on `\n`
      (as a multi-line text drawing does) recovers exactly the lines. */
  lemma LinesRecoverable(tokens: seq<string>)
    requires AllWords(tokens) && |tokens| > 0
    ensures SplitOn(Join(Lines(tokens), "\n"), '\n') == Lines(tokens)
  {
    forall k | 0 <= k < |Lines(tokens)| ensures '\n' !in Lines(tokens)[k] {
      LineWithoutNewline(tokens, k);
    }
    SplitOnJoin(Lines(tokens), '\n');
  }

  lemma LineWithoutNewline(tokens: seq<string>, k: nat)
    requires AllWords(tokens) && k < (|tokens| + 1) / 2
    ensures |Lines(tokens)| == (|tokens| + 1) / 2
    ensures '\n' !in Lines(tokens)[k]
  {
    LinesAt(tokens, k);
    var group := tokens[2 * k .. Min(2 * k + 2, |tokens|)];
    forall j | 0 <= j < |group| ensures '\n' !in group[j] {
      assert group[j] == tokens[2 * k + j];
      assert forall i :: 0 <= i < |group[j]| ==> group[j][i] != '\n';
    }
    JoinAvoids(group, " ", '\n');
  }

  /** The wrapped name is empty exactly when the name has no tokens. */
  lemma WrappedEmptyIff(name: string)
    ensures WrappedName(name) == "" <==> AllSpace(name)
  {
    WrapRoundTrip(Split(name));
  }

  /** The four-token example: "Arroz Branco Tipo 1" is drawn as
      "Arroz Branco" over "Tipo 1". */
  lemma WrapExample(name: string)
    requires name == "Arroz Branco Tipo 1"
    ensures WrappedName(name) == "Arroz Branco\nTipo 1"
  {
    ExampleTokens(name);
    ExampleLines();
    ExampleJoin();
  }

  lemma ExampleJoin()
    ensures Join(["Arroz Branco", "Tipo 1"], "\n") == "Arroz Branco\nTipo 1"
  {
    assert Join(["Arroz Branco", "Tipo 1"][1..], "\n") == "Tipo 1";
  }

  lemma ExampleTokens(name: string)
    requires name == "Arroz Branco Tipo 1"
    ensures Split(name) == ["Arroz", "Branco", "Tipo", "1"]
  {
    ExampleWords();
    ExampleSpaced();
    SplitJoin(["Arroz", "Branco", "Tipo", "1"], ' ');
  }

  lemma ExampleWords()
    ensures AllWords(["Arroz", "Branco", "Tipo", "1"])
  {
  }

  lemma ExampleSpaced()
    ensures Join(["Arroz", "Branco", "Tipo", "1"], " ") == "Arroz Branco Tipo 1"
  {
    var ws := ["Arroz", "Branco", "Tipo", "1"];
    assert ws[1..] == ["Branco", "Tipo", "1"] && ws[2..] == ["Tipo", "1"] && ws[3..] == ["1"];
    assert Join(ws[2..], " ") == "Tipo" + " " + "1" == "Tipo 1";
    assert Join(ws[1..], " ") == "Branco" + " " + "Tipo 1" == "Branco Tipo 1";
    assert Join(ws, " ") == "Arroz" + " " + "Branco Tipo 1" == "Arroz Branco Tipo 1";
  }

  lemma ExampleLines()
    ensures Lines(["Arroz", "Branco", "Tipo", "1"]) == ["Arroz Branco", "Tipo 1"]
  {
    var ws := ["Arroz", "Branco", "Tipo", "1"];
    assert Join(ws[..2][1..], " ") == "Branco";
    assert Join(ws[..2], " ") == "Arroz Branco";
    assert ws[2..][1..] == ["1"];
    assert Join(ws[2..], " ") == "Tipo 1";
  }
}
