/** Text extraction from an uploaded PDF (`extract_text_from_pdf`): the per-page texts, as the PDF
    library yields them, joined in page order. */
module Pages {

  /** The page texts joined in order with no separator. */
  function Concat(pages: seq<string>): string {
    if pages == [] then "" else Concat(pages[..|pages| - 1]) + pages[|pages| - 1]
  }

  /** Total length of the pages. */
  function TotalLength(pages: seq<string>): nat {
    if pages == [] then 0 else TotalLength(pages[..|pages| - 1]) + |pages[|pages| - 1]|
  }

  /** The extraction loop: start from the empty string and append each page's text in turn. */
  method ExtractText(pages: seq<string>) returns (text: string)
    ensures text == Concat(pages)
  {
    text := "";
    var i := 0;
    while i < |pages|
      invariant 0 <= i <= |pages|
      invariant text == Concat(pages[..i])
    {
      assert pages[..i + 1][..i] == pages[..i];
      text := text + pages[i];
      i := i + 1;
    }
    assert pages[..i] == pages;
  }

  /** Joining two runs of pages joins their texts. */
  lemma {:induction false} ConcatAppend(a: seq<string>, b: seq<string>)
    ensures Concat(a + b) == Concat(a) + Concat(b)
    decreases |b|
  {
    if b == [] {
      assert a + b == a;
    } else {
      var b' := b[..|b| - 1];
      assert (a + b)[..|a + b| - 1] == a + b';
      ConcatAppend(a, b');
    }
  }

  /** No separator is inserted: the text is exactly as long as the pages together. */
  lemma {:induction false} ConcatLength(pages: seq<string>)
    ensures |Concat(pages)| == TotalLength(pages)
  {
    if pages != [] {
      ConcatLength(pages[..|pages| - 1]);
    }
  }

  /** Page `i` appears verbatim in the text, starting where the text of the pages before it ends. */
  lemma PageAt(pages: seq<string>, i: nat)
    requires i < |pages|
    ensures var start := |Concat(pages[..i])|;
            start + |pages[i]| <= |Concat(pages)| &&
            Concat(pages)[start..start + |pages[i]|] == pages[i]
  {
    assert pages == pages[..i] + [pages[i]] + pages[i + 1..];
    ConcatAppend(pages[..i] + [pages[i]], pages[i + 1..]);
    ConcatAppend(pages[..i], [pages[i]]);
    assert Concat([pages[i]]) == pages[i] by {
      assert [pages[i]][..0] == [];
    }
  }
}
