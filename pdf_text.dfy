/** How the upload handler of client/src/App.js turns a parsed PDF into one string: the
    text items of a page are joined with a single space, and every page's text, followed
    by a blank line, is appended to the result in page order. A page is given as the
    `str` of each of its text items, in the order the PDF library returns them. */
module PdfText {

  const ItemSeparator: char := ' '
  const PageSeparator: string := "\n\n"

  type Page = seq<string>

  /** The number of characters in all the items together. */
  function TotalLength(items: seq<string>): nat {
    if |items| == 0 then 0 else |items[0]| + TotalLength(items[1..])
  }

  /** JavaScript's `items.join(sep)` for a one-character separator: every item once, with
      one separator between each two neighbours. */
  function Join(items: seq<string>, sep: char): (r: string)
    ensures |items| > 0 ==> |r| == TotalLength(items) + |items| - 1
    ensures |items| > 0 ==> r[..|items[0]|] == items[0]
  {
    if |items| == 0 then ""
    else if |items| == 1 then items[0]
    else items[0] + [sep] + Join(items[1..], sep)
  }

  /** The pieces of `s` between occurrences of `sep`; the inverse of `Join` for items
      that do not contain the separator. */
  function Split(s: string, sep: char): (r: seq<string>)
    ensures |r| >= 1
    ensures forall i :: 0 <= i < |r| ==> sep !in r[i]
  {
    if |s| == 0 then [""]
    else
      var rest := Split(s[1..], sep);
      if s[0] == sep then [""] + rest
      else [[s[0]] + rest[0]] + rest[1..]
  }

  lemma {:induction false} SplitWithoutSeparator(a: string, sep: char)
    requires sep !in a
    ensures Split(a, sep) == [a]
  {
    if |a| > 0 {
      SplitWithoutSeparator(a[1..], sep);
      assert [a[0]] + a[1..] == a;
    }
  }

  lemma {:induction false} SplitAfterPiece(a: string, sep: char, rest: string)
    requires sep !in a
    ensures Split(a + [sep] + rest, sep) == [a] + Split(rest, sep)
  {
    var s := a + [sep] + rest;
    if |a| == 0 {
      assert s[1..] == rest;
    } else {
      assert s[1..] == a[1..] + [sep] + rest;
      SplitAfterPiece(a[1..], sep, rest);
      assert [a[0]] + a[1..] == a;
    }
  }

  /** Joining items that do not contain the separator and splitting the result again
      gives back the items. */
  lemma {:induction false} SplitJoin(items: seq<string>, sep: char)
    requires |items| > 0
    requires forall i :: 0 <= i < |items| ==> sep !in items[i]
    ensures Split(Join(items, sep), sep) == items
  {
    if |items| == 1 {
      SplitWithoutSeparator(items[0], sep);
    } else {
      SplitJoin(items[1..], sep);
      SplitAfterPiece(items[0], sep, Join(items[1..], sep));
      assert [items[0]] + items[1..] == items;
    }
  }

  /** The text of one page: its items joined with a single space. */
  function PageText(page: Page): string {
    Join(page, ItemSeparator)
  }

  /** The full text of a document: each page's text followed by a blank line, in page
      order. */
  function Extracted(pages: seq<Page>): (r: string)
    ensures |r| >= |PageSeparator| * |pages|
  {
    if |pages| == 0 then ""
    else Extracted(pages[..|pages| - 1]) + PageText(pages[|pages| - 1]) + PageSeparator
  }

  /** Zero pages give the empty text; any page at all makes the text end in the blank line. */
  lemma ExtractedEnds(pages: seq<Page>)
    ensures Extracted(pages) == "" <==> |pages| == 0
    ensures |pages| > 0 ==> |Extracted(pages)| >= |PageSeparator|
                            && Extracted(pages)[|Extracted(pages)| - |PageSeparator|..] == PageSeparator
  {
  }

  /** Appending a page appends its segment. */
  lemma ExtractedSnoc(pages: seq<Page>, page: Page)
    ensures Extracted(pages + [page]) == Extracted(pages) + PageText(page) + PageSeparator
  {
    assert (pages + [page])[..|pages|] == pages;
  }

  /** One step of `ExtractedCons`: appending a page keeps the front decomposition. */
  lemma ExtractedConsStep(page: Page, init: seq<Page>, last: Page)
    requires Extracted([page] + init) == PageText(page) + PageSeparator + Extracted(init)
    ensures Extracted([page] + (init + [last])) == PageText(page) + PageSeparator + Extracted(init + [last])
  {
    assert [page] + (init + [last]) == ([page] + init) + [last];
    ExtractedSnoc([page] + init, last);
    ExtractedSnoc(init, last);
    var head := PageText(page) + PageSeparator;
    assert ((head + Extracted(init)) + PageText(last)) + PageSeparator
        == head + ((Extracted(init) + PageText(last)) + PageSeparator);
  }

  /** The same text built from the front: the first page's segment, then the rest. */
  lemma {:induction false} ExtractedCons(page: Page, pages: seq<Page>)
    ensures Extracted([page] + pages) == PageText(page) + PageSeparator + Extracted(pages)
    decreases |pages|
  {
    if |pages| == 0 {
      ExtractedSnoc([], page);
      assert [page] + pages == [] + [page];
    } else {
      var init, last := pages[..|pages| - 1], pages[|pages| - 1];
      ExtractedCons(page, init);
      ExtractedConsStep(page, init, last);
      assert pages == init + [last];
    }
  }

  /** The text of the first `k` pages is a prefix of the text of all of them. */
  lemma {:induction false} ExtractedPrefix(pages: seq<Page>, k: nat)
    requires k <= |pages|
    ensures Extracted(pages[..k]) <= Extracted(pages)
    decreases |pages| - k
  {
    if k < |pages| {
      ExtractedPrefix(pages, k + 1);
      assert pages[..k + 1][..k] == pages[..k];
    } else {
      assert pages[..k] == pages;
    }
  }

  /** Page `k` contributes exactly one segment: its own text followed by the blank line,
      starting where the text of the pages before it ends and ending where the text of
      the pages up to it ends. The segments thus tile the whole text in page order. */
  lemma SegmentAt(pages: seq<Page>, k: nat)
    requires k < |pages|
    ensures var start, t := |Extracted(pages[..k])|, PageText(pages[k]);
            |Extracted(pages[..k + 1])| == start + |t| + |PageSeparator| <= |Extracted(pages)|
            && Extracted(pages)[start..start + |t|] == t
            && Extracted(pages)[start + |t|..start + |t| + |PageSeparator|] == PageSeparator
  {
    var start, t := |Extracted(pages[..k])|, PageText(pages[k]);
    var upTo := pages[..k + 1];
    assert upTo[..k] == pages[..k];
    assert Extracted(upTo) == Extracted(pages[..k]) + t + PageSeparator;
    ExtractedPrefix(pages, k + 1);
    var full := Extracted(pages);
    assert full[..|Extracted(upTo)|] == Extracted(upTo);
    assert full[start..start + |t|] == Extracted(upTo)[start..start + |t|];
    assert full[start + |t|..start + |t| + |PageSeparator|] == Extracted(upTo)[start + |t|..start + |t| + |PageSeparator|];
  }
}
