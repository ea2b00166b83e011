/**
 * The client-side recommendations PDF: a header with the logo and the title on
 * every page, the recommendations one below the other with a page break past
 * 270, and, on a document of more than one page, a page label "i/N" at the
 * bottom right of every page.
 */
module ExportEmpfehlungen {
  import opened PdfDoc
  import opened PdfRows
  import opened Contacts
  import opened Decimal
  import PdfRoute

  /** An entry that would start below this line starts on a new page. */
  const MaxY := 270

  /** Where the entries start below the header, on every page. */
  const ContentStart := 50

  /** `Empfehlungen ${name}`. */
  function Title(name: string): string {
    "Empfehlungen " + name
  }

  /** The top edge of the logo, which centres it vertically on the header line at 30. */
  function LogoTop(logoHeight: real): real {
    30 as real - logoHeight / 2 as real
  }

  /** `drawHeader`: the 18 mm wide logo from `top`, and the title centred on the page on the header line. */
  function Header(d: Doc, name: string, top: real): Doc {
    Draw(Draw(d, Logo(20, top, 18)), Text(105, 30, Title(name)))
  }

  /** The header appends two operations on the current page, the second the title. */
  lemma HeaderShape(d: Doc, name: string, top: real)
    ensures var h := Header(d, name, top);
      h.pageCount == d.pageCount && h.current == d.current &&
      |h.log| == |d.log| + 2 && h.log[..|d.log|] == d.log &&
      h.log[|d.log| + 1] == Entry(d.current, Text(105, 30, Title(name))) &&
      (Valid(d) ==> Valid(h))
  {
  }

  /** The header writes only the title, in the centre column. */
  lemma HeaderTexts(d: Doc, name: string, top: real, x: int)
    ensures Texts(Header(d, name, top).log, x) == Texts(d.log, x) + (if x == 105 then [Title(name)] else [])
  {
    var d1 := Draw(d, Logo(20, top, 18));
    DrawTexts(d, Logo(20, top, 18), x);
    DrawTexts(d1, Text(105, 30, Title(name)), x);
  }

  /** Where an entry starts: past `MaxY`, on a new page with its own header, at `ContentStart`. */
  function EntryStart(c: Cursor, name: string, top: real): Cursor {
    if c.y > MaxY then Cursor(Header(AddPage(c.doc), name, top), ContentStart) else c
  }

  /** An entry starts at or above `MaxY`; a page break adds exactly one page, which is current and carries the title. */
  lemma EntryStartShape(c: Cursor, name: string, top: real)
    ensures var s := EntryStart(c, name, top);
      s.y <= MaxY &&
      s.doc.pageCount == c.doc.pageCount + (if c.y > MaxY then 1 else 0) &&
      (c.y <= MaxY ==> s == c) &&
      (c.y > MaxY ==> (s.doc.current == s.doc.pageCount && |s.doc.log| == |c.doc.log| + 2 &&
        s.doc.log[|c.doc.log| + 1] == Entry(s.doc.pageCount, Text(105, 30, Title(name))))) &&
      |c.doc.log| <= |s.doc.log| && s.doc.log[..|c.doc.log|] == c.doc.log &&
      (Valid(c.doc) ==> Valid(s.doc))
  {
    if c.y > MaxY {
      HeaderShape(AddPage(c.doc), name, top);
    }
  }

  /** A page break adds the title to the title column and nothing elsewhere. */
  lemma EntryStartTexts(c: Cursor, name: string, top: real, x: int)
    ensures Texts(EntryStart(c, name, top).doc.log, x) ==
      Texts(c.doc.log, x) + (if c.y > MaxY && x == 105 then [Title(name)] else [])
  {
    if c.y > MaxY {
      HeaderTexts(AddPage(c.doc), name, top, x);
    }
  }

  /** The rows after the name, each shown only when filled in. */
  function OptionalFields(e: Person): seq<(string, string)> {
    [("Ort", e.ort), ("Alter", e.alter), ("Beruf", e.beruf), ("Telefon", e.telefon)]
  }

  /** An entry from where it starts: the name row (6 down), the filled-in rows (5 down each), the remark, and 7 of space. */
  function EntryBody(s: Cursor, e: Person, wrap: PdfRoute.Wrap): Cursor {
    var named := Row(s, "Name", PdfRoute.NameOrDash(e.name), 6);
    var r := Remark(Rows(named, OptionalFields(e), 5), e.bemerkung, wrap(e.bemerkung, 130));
    Cursor(r.doc, r.y + 7)
  }

  /** The texts an entry writes in column `x`. */
  function EntryText(e: Person, x: int): seq<string> {
    RowText("Name", PdfRoute.NameOrDash(e.name), x) + RowsText(OptionalFields(e), x) +
    (if e.bemerkung != "" && x == 20 then ["Bemerkung:"] else [])
  }

  /** The height of an entry: 6 for the name, 5 per other filled-in row, 5 per remark line, and 7. */
  function EntryHeight(e: Person, wrap: PdfRoute.Wrap): int {
    6 + 5 * Shown(OptionalFields(e)) + (if e.bemerkung == "" then 0 else |wrap(e.bemerkung, 130)| * 5) + 7
  }

  /** An entry only appends, on the current page, beginning with its name label, and takes `EntryHeight`. */
  lemma EntryBodyShape(s: Cursor, e: Person, wrap: PdfRoute.Wrap)
    ensures var r := EntryBody(s, e, wrap);
      r.doc.pageCount == s.doc.pageCount && r.doc.current == s.doc.current &&
      |s.doc.log| < |r.doc.log| && r.doc.log[..|s.doc.log|] == s.doc.log &&
      r.doc.log[|s.doc.log|] == Entry(s.doc.current, Text(20, s.y, "Name:")) &&
      r.y == s.y + EntryHeight(e, wrap) &&
      (Valid(s.doc) ==> Valid(r.doc))
  {
    var name := PdfRoute.NameOrDash(e.name);
    var named := Row(s, "Name", name, 6);
    RowShape(s, "Name", name, 6);
    assert "Name" + ":" == "Name:";
    var rows := Rows(named, OptionalFields(e), 5);
    RowsFacts(named, OptionalFields(e), 5);
    var rem := Remark(rows, e.bemerkung, wrap(e.bemerkung, 130));
    RemarkShape(rows, e.bemerkung, wrap(e.bemerkung, 130));
    assert rem.doc.log[..|s.doc.log|] == rem.doc.log[..|rows.doc.log|][..|named.doc.log|][..|s.doc.log|];
    assert rem.doc.log[|s.doc.log|] == rem.doc.log[..|rows.doc.log|][..|named.doc.log|][|s.doc.log|];
    if Valid(s.doc) {
      RowsValid(named, OptionalFields(e), 5);
    }
  }

  /** An entry writes its labels at 20 and its one-line values at 55. */
  lemma EntryBodyTexts(s: Cursor, e: Person, wrap: PdfRoute.Wrap, x: int)
    ensures Texts(EntryBody(s, e, wrap).doc.log, x) == Texts(s.doc.log, x) + EntryText(e, x)
  {
    var name := PdfRoute.NameOrDash(e.name);
    var named := Row(s, "Name", name, 6);
    RowTexts(s, "Name", name, 6, x);
    var rows := Rows(named, OptionalFields(e), 5);
    RowsTexts(named, OptionalFields(e), 5, x);
    RemarkTexts(rows, e.bemerkung, wrap(e.bemerkung, 130), x);
    var a, b, o, m := Texts(s.doc.log, x), RowText("Name", name, x), RowsText(OptionalFields(e), x),
      (if e.bemerkung != "" && x == 20 then ["Bemerkung:"] else []);
    assert Texts(EntryBody(s, e, wrap).doc.log, x) == ((a + b) + o) + m;
    Regroup(a, b, o);
    Regroup(a, b + o, m);
  }

  /** An entry writes nothing in the title column. */
  lemma EntryTextNoTitle(e: Person)
    ensures EntryText(e, 105) == []
  {
    RowsElsewhere(OptionalFields(e), 105);
  }

  /** One round of the entry loop. */
  function One(c: Cursor, e: Person, name: string, top: real, wrap: PdfRoute.Wrap): Cursor {
    EntryBody(EntryStart(c, name, top), e, wrap)
  }

  /** What the first `n` entries write in column `x`, in order. */
  function AllText(es: seq<Person>, n: nat, x: int): seq<string>
    requires n <= |es|
  {
    if n == 0 then [] else AllText(es, n - 1, x) + EntryText(es[n - 1], x)
  }

  /** The title `k` times. */
  function Titles(name: string, k: nat): seq<string> {
    if k == 0 then [] else Titles(name, k - 1) + [Title(name)]
  }

  /** One round adds its texts to the entry columns and one title per page it adds to the title column. */
  lemma OneTexts(c: Cursor, e: Person, name: string, top: real, wrap: PdfRoute.Wrap, x: int)
    ensures var r := One(c, e, name, top, wrap);
      Texts(r.doc.log, x) == Texts(c.doc.log, x) + (if c.y > MaxY && x == 105 then [Title(name)] else []) + EntryText(e, x)
  {
    var s := EntryStart(c, name, top);
    EntryStartTexts(c, name, top, x);
    EntryBodyTexts(s, e, wrap, x);
  }

  /** One round keeps the document valid with its last page current, adds at most one page, and only appends. */
  lemma OneShape(c: Cursor, e: Person, name: string, top: real, wrap: PdfRoute.Wrap)
    requires Valid(c.doc) && c.doc.current == c.doc.pageCount
    ensures var r := One(c, e, name, top, wrap);
      Valid(r.doc) && r.doc.current == r.doc.pageCount &&
      r.doc.pageCount == c.doc.pageCount + (if c.y > MaxY then 1 else 0) &&
      |c.doc.log| < |r.doc.log| && r.doc.log[..|c.doc.log|] == c.doc.log &&
      (c.y <= MaxY ==> r.doc.log[|c.doc.log|] == Entry(c.doc.current, Text(20, c.y, "Name:"))) &&
      (c.y > MaxY ==> (|c.doc.log| + 1 < |r.doc.log| &&
        r.doc.log[|c.doc.log| + 1] == Entry(r.doc.pageCount, Text(105, 30, Title(name)))))
  {
    var s := EntryStart(c, name, top);
    EntryStartShape(c, name, top);
    EntryBodyShape(s, e, wrap);
    var r := One(c, e, name, top, wrap);
    assert r.doc.log[..|c.doc.log|] == r.doc.log[..|s.doc.log|][..|c.doc.log|];
    if c.y > MaxY {
      assert r.doc.log[|c.doc.log| + 1] == r.doc.log[..|s.doc.log|][|c.doc.log| + 1];
    }
  }

  /** Page `p` carries the title. */
  predicate Titled(log: seq<Entry>, p: nat, name: string) {
    exists j :: 0 <= j < |log| && log[j] == Entry(p, Text(105, 30, Title(name)))
  }

  /**
   * What the document is after the first `i` entries: valid with its last page
   * current, at most one page per entry after the first page, the title
   * exactly once per page and on every page, the entries' labels and values in
   * list order, and the first name label right below the header.
   */
  ghost predicate Drawn(d: Doc, name: string, es: seq<Person>, i: nat)
    requires i <= |es|
  {
    Valid(d) && d.current == d.pageCount && d.pageCount <= 1 + i &&
    Texts(d.log, 105) == Titles(name, d.pageCount) &&
    (forall p :: 1 <= p <= d.pageCount ==> Titled(d.log, p, name)) &&
    Texts(d.log, 20) == AllText(es, i, 20) &&
    Texts(d.log, 55) == AllText(es, i, 55) &&
    Texts(d.log, 190) == [] &&
    (i > 0 ==> |d.log| > 2 && d.log[2] == Entry(1, Text(20, ContentStart, "Name:")))
  }

  /** The first page, with its header only, is what the loop starts from. */
  lemma FirstPageDrawn(name: string, es: seq<Person>, top: real)
    ensures var d := Header(Empty, name, top);
      |d.log| == 2 && Drawn(d, name, es, 0)
  {
    var d := Header(Empty, name, top);
    HeaderShape(Empty, name, top);
    HeaderTexts(Empty, name, top, 105);
    HeaderTexts(Empty, name, top, 20);
    HeaderTexts(Empty, name, top, 55);
    HeaderTexts(Empty, name, top, 190);
    assert Titled(d.log, 1, name);
    assert Titles(name, 1) == [Title(name)];
  }

  /** One round writes one title in the title column exactly when it starts a new page. */
  lemma OneTitleText(c: Cursor, e: Person, name: string, top: real, wrap: PdfRoute.Wrap)
    ensures Texts(One(c, e, name, top, wrap).doc.log, 105) ==
      Texts(c.doc.log, 105) + (if c.y > MaxY then [Title(name)] else [])
  {
    OneTexts(c, e, name, top, wrap, 105);
    EntryTextNoTitle(e);
    var t: seq<string> := if c.y > MaxY then [Title(name)] else [];
    assert Texts(c.doc.log, 105) + t + [] == Texts(c.doc.log, 105) + t;
  }

  /**
   * Appending to a log that has the title once on each of its pages, with a
   * new page whose title is among what is appended when `broke` holds, keeps
   * the title once on each page.
   */
  lemma TitlesStep(c: Doc, r: Doc, broke: bool, name: string)
    requires |c.log| < |r.log| && r.log[..|c.log|] == c.log
    requires r.pageCount == c.pageCount + (if broke then 1 else 0)
    requires broke ==> |c.log| + 1 < |r.log| && r.log[|c.log| + 1] == Entry(r.pageCount, Text(105, 30, Title(name)))
    requires Texts(r.log, 105) == Texts(c.log, 105) + (if broke then [Title(name)] else [])
    requires Texts(c.log, 105) == Titles(name, c.pageCount)
    requires forall p :: 1 <= p <= c.pageCount ==> Titled(c.log, p, name)
    ensures Texts(r.log, 105) == Titles(name, r.pageCount)
    ensures forall p :: 1 <= p <= r.pageCount ==> Titled(r.log, p, name)
  {
    forall p | 1 <= p <= r.pageCount ensures Titled(r.log, p, name) {
      if p <= c.pageCount {
        assert Titled(c.log, p, name);
        var j :| 0 <= j < |c.log| && c.log[j] == Entry(p, Text(105, 30, Title(name)));
        assert r.log[j] == r.log[..|c.log|][j];
      } else {
        assert r.log[|c.log| + 1] == Entry(p, Text(105, 30, Title(name)));
      }
    }
  }

  /** One entry appends its labels and values to the columns. */
  lemma OneKeepsTexts(c: Cursor, es: seq<Person>, i: nat, name: string, top: real, wrap: PdfRoute.Wrap, x: int)
    requires i < |es| && x != 105
    requires Texts(c.doc.log, x) == AllText(es, i, x)
    ensures Texts(One(c, es[i], name, top, wrap).doc.log, x) == AllText(es, i + 1, x)
  {
    OneTexts(c, es[i], name, top, wrap, x);
    var t: seq<string> := if c.y > MaxY && x == 105 then [Title(name)] else [];
    assert t == [];
    assert AllText(es, i, x) + t == AllText(es, i, x);
  }

  /** One entry keeps the document valid with its last page current, the title once on every page, and the first name label. */
  lemma OneKeepsPages(c: Cursor, e: Person, i: nat, name: string, top: real, wrap: PdfRoute.Wrap)
    requires Valid(c.doc) && c.doc.current == c.doc.pageCount && c.doc.pageCount <= 1 + i
    requires Texts(c.doc.log, 105) == Titles(name, c.doc.pageCount)
    requires forall p :: 1 <= p <= c.doc.pageCount ==> Titled(c.doc.log, p, name)
    requires i > 0 ==> |c.doc.log| > 2 && c.doc.log[2] == Entry(1, Text(20, ContentStart, "Name:"))
    requires i == 0 ==> c.y == ContentStart && |c.doc.log| == 2
    ensures var r := One(c, e, name, top, wrap).doc;
      Valid(r) && r.current == r.pageCount && r.pageCount <= 1 + (i + 1) &&
      Texts(r.log, 105) == Titles(name, r.pageCount) &&
      (forall p :: 1 <= p <= r.pageCount ==> Titled(r.log, p, name)) &&
      |r.log| > 2 && r.log[2] == Entry(1, Text(20, ContentStart, "Name:"))
  {
    var r := One(c, e, name, top, wrap).doc;
    OneShape(c, e, name, top, wrap);
    OneTitleText(c, e, name, top, wrap);
    TitlesStep(c.doc, r, c.y > MaxY, name);
    if i > 0 {
      assert r.log[2] == r.log[..|c.doc.log|][2];
    }
  }

  /** One entry keeps the label, value and page-label columns. */
  lemma OneKeepsColumns(c: Cursor, es: seq<Person>, i: nat, name: string, top: real, wrap: PdfRoute.Wrap)
    requires i < |es|
    requires Texts(c.doc.log, 20) == AllText(es, i, 20)
    requires Texts(c.doc.log, 55) == AllText(es, i, 55)
    requires Texts(c.doc.log, 190) == []
    ensures var r := One(c, es[i], name, top, wrap).doc;
      Texts(r.log, 20) == AllText(es, i + 1, 20) &&
      Texts(r.log, 55) == AllText(es, i + 1, 55) &&
      Texts(r.log, 190) == []
  {
    OneKeepsTexts(c, es, i, name, top, wrap, 20);
    OneKeepsTexts(c, es, i, name, top, wrap, 55);
    AllTextElsewhere(es, i, 190);
    AllTextElsewhere(es, i + 1, 190);
    OneKeepsTexts(c, es, i, name, top, wrap, 190);
  }

  /** One entry keeps `Drawn`, one entry further. */
  lemma OneKeeps(c: Cursor, es: seq<Person>, i: nat, name: string, top: real, wrap: PdfRoute.Wrap)
    requires i < |es| && Drawn(c.doc, name, es, i)
    requires i == 0 ==> c.y == ContentStart && |c.doc.log| == 2
    ensures Drawn(One(c, es[i], name, top, wrap).doc, name, es, i + 1)
  {
    OneKeepsPages(c, es[i], i, name, top, wrap);
    OneKeepsColumns(c, es, i, name, top, wrap);
  }

  /** An entry writes only in the label and value columns. */
  lemma EntryTextElsewhere(e: Person, x: int)
    requires x != 20 && x != 55
    ensures EntryText(e, x) == []
  {
    RowsElsewhere(OptionalFields(e), x);
  }

  /** The entries write only in the label and value columns. */
  lemma {:induction false} AllTextElsewhere(es: seq<Person>, n: nat, x: int)
    requires n <= |es|
    requires x != 20 && x != 55
    ensures AllText(es, n, x) == []
  {
    if n > 0 {
      AllTextElsewhere(es, n - 1, x);
      EntryTextElsewhere(es[n - 1], x);
      assert AllText(es, n, x) == AllText(es, n - 1, x) + EntryText(es[n - 1], x);
    }
  }

  // ---------------------------------------------------------------------
  // Page labels

  /** `${i}/${pageCount}`. */
  function PageLabel(i: nat, n: nat): string {
    IntToString(i) + "/" + IntToString(n)
  }

  /** The label texts of pages 1 to `k` of an `n`-page document, in page order. */
  function PageLabels(n: nat, k: nat): seq<string> {
    if k == 0 then [] else PageLabels(n, k - 1) + [PageLabel(k, n)]
  }

  /** The `i`-th label text names page `i + 1` and the page count. */
  lemma {:induction false} PageLabelsAt(n: nat, k: nat)
    ensures |PageLabels(n, k)| == k
    ensures forall i :: 0 <= i < k ==> PageLabels(n, k)[i] == PageLabel(i + 1, n)
  {
    if k > 0 {
      PageLabelsAt(n, k - 1);
    }
  }

  /** Label texts drawn at the bottom right, the `i`-th on page `i + 1`. */
  function LabelEntries(texts: seq<string>): seq<Entry> {
    if texts == [] then []
    else LabelEntries(texts[..|texts| - 1]) + [Entry(|texts|, Text(190, 282, texts[|texts| - 1]))]
  }

  /** Every label sits on its own page. */
  lemma {:induction false} LabelEntriesAt(texts: seq<string>)
    ensures |LabelEntries(texts)| == |texts|
    ensures forall i :: 0 <= i < |texts| ==> LabelEntries(texts)[i] == Entry(i + 1, Text(190, 282, texts[i]))
  {
    if texts != [] {
      LabelEntriesAt(texts[..|texts| - 1]);
    }
  }

  /** Labelling page `i` appends its label entry to those of the pages before. */
  lemma LabelEntriesSnoc(log: seq<Entry>, n: nat, i: nat)
    requires i >= 1
    ensures log + LabelEntries(PageLabels(n, i)) == log + LabelEntries(PageLabels(n, i - 1)) + [Entry(i, Text(190, 282, PageLabel(i, n)))]
  {
    var t := PageLabels(n, i);
    PageLabelsAt(n, i - 1);
    assert t[..|t| - 1] == PageLabels(n, i - 1);
    assert LabelEntries(t) == LabelEntries(PageLabels(n, i - 1)) + [Entry(i, Text(190, 282, PageLabel(i, n)))];
  }

  /** The labels write only in their own column, in page order. */
  lemma {:induction false} LabelTexts(texts: seq<string>, x: int)
    ensures Texts(LabelEntries(texts), x) == if x == 190 then texts else []
  {
    if texts != [] {
      var init, last := texts[..|texts| - 1], texts[|texts| - 1];
      var e := Entry(|texts|, Text(190, 282, last));
      LabelTexts(init, x);
      assert LabelEntries(texts) == LabelEntries(init) + [e];
      TextsSnoc(LabelEntries(init), e, x);
      if x == 190 {
        assert init + [last] == texts;
      }
    }
  }

  /** One round of the numbering loop: page `i` is made current and gets its label. */
  method LabelPage(d: Doc, i: nat) returns (r: Doc)
    requires 1 <= i <= d.pageCount
    ensures r.pageCount == d.pageCount && (Valid(d) ==> Valid(r))
    ensures r.log == d.log + [Entry(i, Text(190, 282, PageLabel(i, d.pageCount)))]
  {
    r := SetPage(d, i);
    r := Draw(r, Text(190, 282, PageLabel(i, d.pageCount)));
  }

  /** The numbering loop: on a document of more than one page, the label of every page on that page. */
  method NumberPages(doc: Doc) returns (numbered: Doc)
    requires Valid(doc)
    ensures numbered.pageCount == doc.pageCount && Valid(numbered)
    ensures numbered.log == doc.log + if doc.pageCount > 1 then LabelEntries(PageLabels(doc.pageCount, doc.pageCount)) else []
  {
    numbered := doc;
    var n := doc.pageCount;
    if n > 1 {
      for i := 1 to n + 1
        invariant numbered.pageCount == n && Valid(numbered)
        invariant numbered.log == doc.log + LabelEntries(PageLabels(n, i - 1))
      {
        LabelEntriesSnoc(doc.log, n, i);
        numbered := LabelPage(numbered, i);
      }
    }
  }

  /** Page `p` carries the label `text` at the bottom right. */
  predicate LabelledOn(log: seq<Entry>, p: nat, text: string) {
    exists j :: 0 <= j < |log| && log[j] == Entry(p, Text(190, 282, text))
  }

  /** Appending labels adds them to their own column and to no other. */
  lemma LabelsColumn(log: seq<Entry>, texts: seq<string>, x: int)
    ensures Texts(log + LabelEntries(texts), x) == Texts(log, x) + (if x == 190 then texts else [])
  {
    LabelTexts(texts, x);
    TextsAppend(log, LabelEntries(texts), x);
  }

  /** Appending labels puts each on its page and keeps every title. */
  lemma LabelsPlaced(log: seq<Entry>, texts: seq<string>, name: string, n: nat)
    requires forall p :: 1 <= p <= n ==> Titled(log, p, name)
    ensures forall i :: 0 <= i < |texts| ==> LabelledOn(log + LabelEntries(texts), i + 1, texts[i])
    ensures forall p :: 1 <= p <= n ==> Titled(log + LabelEntries(texts), p, name)
  {
    var labels := LabelEntries(texts);
    LabelEntriesAt(texts);
    forall i | 0 <= i < |texts| ensures LabelledOn(log + labels, i + 1, texts[i]) {
      assert (log + labels)[|log| + i] == labels[i];
    }
    forall p | 1 <= p <= n ensures Titled(log + labels, p, name) {
      assert Titled(log, p, name);
      var j :| 0 <= j < |log| && log[j] == Entry(p, Text(105, 30, Title(name)));
      assert (log + labels)[j] == log[j];
    }
  }

  /** Appending labels keeps the entries' columns and the titles, and puts every label on its page. */
  lemma LabelsAppended(d: Doc, name: string, es: seq<Person>, texts: seq<string>)
    requires Drawn(d, name, es, |es|)
    ensures var log := d.log + LabelEntries(texts);
      Texts(log, 105) == Titles(name, d.pageCount) &&
      (forall p :: 1 <= p <= d.pageCount ==> Titled(log, p, name)) &&
      Texts(log, 20) == AllText(es, |es|, 20) &&
      Texts(log, 55) == AllText(es, |es|, 55) &&
      Texts(log, 190) == texts &&
      (forall i :: 0 <= i < |texts| ==> LabelledOn(log, i + 1, texts[i])) &&
      (es != [] ==> |log| > 2 && log[2] == Entry(1, Text(20, ContentStart, "Name:")))
  {
    var log := d.log + LabelEntries(texts);
    LabelsColumn(d.log, texts, 20);
    LabelsColumn(d.log, texts, 55);
    LabelsColumn(d.log, texts, 105);
    LabelsColumn(d.log, texts, 190);
    assert Texts(d.log, 20) + [] == Texts(d.log, 20);
    assert Texts(d.log, 55) + [] == Texts(d.log, 55);
    assert Texts(d.log, 105) + [] == Texts(d.log, 105);
    assert [] + texts == texts;
    LabelsPlaced(d.log, texts, name, d.pageCount);
    if es != [] {
      assert log[2] == d.log[2];
    }
  }

  /** A page break when the cursor is past `MaxY`, as the loop body begins. */
  method BreakPage(c: Cursor, name: string, top: real) returns (s: Cursor)
    ensures s == EntryStart(c, name, top)
  {
    s := c;
    if s.y > MaxY {
      var doc := AddPage(s.doc);
      doc := Header(doc, name, top);
      s := Cursor(doc, ContentStart);
    }
  }

  /** The rest of the loop body: the name row, the filled-in rows, the remark and the space after. */
  method DrawBody(s: Cursor, e: Person, wrap: PdfRoute.Wrap) returns (r: Cursor)
    ensures r == EntryBody(s, e, wrap)
  {
    var doc, y := s.doc, s.y;
    doc := Draw(doc, Text(20, y, "Name:"));
    doc := Draw(doc, Text(55, y, PdfRoute.NameOrDash(e.name)));
    y := y + 6;
    assert "Name" + ":" == "Name:";
    assert Cursor(doc, y) == Row(s, "Name", PdfRoute.NameOrDash(e.name), 6);
    var rows := Rows(Cursor(doc, y), OptionalFields(e), 5);
    doc, y := rows.doc, rows.y;
    if e.bemerkung != "" {
      doc := Draw(doc, Text(20, y, "Bemerkung:"));
      var lines := wrap(e.bemerkung, 130);
      doc := Draw(doc, TextBlock(55, y, lines));
      y := y + |lines| * 5;
    }
    assert Cursor(doc, y) == Remark(rows, e.bemerkung, wrap(e.bemerkung, 130));
    r := Cursor(doc, y + 7);
  }

  /** One pass of the loop body. */
  method DrawEntry(c: Cursor, e: Person, name: string, top: real, wrap: PdfRoute.Wrap) returns (r: Cursor)
    ensures r == One(c, e, name, top, wrap)
  {
    var s := BreakPage(c, name, top);
    r := DrawBody(s, e, wrap);
  }

  /**
   * The first page's header and the loop over the entries: from `ContentStart`,
   * with a new page and header past `MaxY`.
   */
  method DrawEntries(name: string, es: seq<Person>, top: real, wrap: PdfRoute.Wrap) returns (doc: Doc)
    ensures Drawn(doc, name, es, |es|)
  {
    doc := Header(Empty, name, top);
    FirstPageDrawn(name, es, top);
    var y := ContentStart;
    for i := 0 to |es|
      invariant Drawn(doc, name, es, i)
      invariant i == 0 ==> y == ContentStart && |doc.log| == 2
    {
      var before := Cursor(doc, y);
      var next := DrawEntry(before, es[i], name, top, wrap);
      doc, y := next.doc, next.y;
      OneKeeps(before, es, i, name, top, wrap);
    }
  }

  /** The numbered document keeps everything the entries drew and carries every page's label on that page. */
  lemma NumberedFacts(d: Doc, numbered: Doc, name: string, es: seq<Person>)
    requires Drawn(d, name, es, |es|)
    requires numbered.pageCount == d.pageCount && Valid(numbered)
    requires numbered.log == d.log + if d.pageCount > 1 then LabelEntries(PageLabels(d.pageCount, d.pageCount)) else []
    ensures Valid(numbered) && 1 <= numbered.pageCount <= 1 + |es|
    ensures Texts(numbered.log, 105) == Titles(name, numbered.pageCount)
    ensures forall p :: 1 <= p <= numbered.pageCount ==> Titled(numbered.log, p, name)
    ensures Texts(numbered.log, 20) == AllText(es, |es|, 20)
    ensures Texts(numbered.log, 55) == AllText(es, |es|, 55)
    ensures Texts(numbered.log, 190) == if numbered.pageCount > 1 then PageLabels(numbered.pageCount, numbered.pageCount) else []
    ensures numbered.pageCount > 1 ==>
      forall p :: 1 <= p <= numbered.pageCount ==> LabelledOn(numbered.log, p, PageLabel(p, numbered.pageCount))
    ensures es != [] ==> |numbered.log| > 2 && numbered.log[2] == Entry(1, Text(20, ContentStart, "Name:"))
  {
    var n := d.pageCount;
    var texts := if n > 1 then PageLabels(n, n) else [];
    assert numbered.log == d.log + LabelEntries(texts);
    LabelsAppended(d, name, es, texts);
    if n > 1 {
      PageLabelsAt(n, n);
      forall p | 1 <= p <= n ensures LabelledOn(numbered.log, p, PageLabel(p, n)) {
        assert texts[p - 1] == PageLabel(p, n);
      }
    }
  }

  /**
   * `exportEmpfehlungen`: the entries, the page labels on a document of more
   * than one page, and the file name.
   */
  method ExportEmpfehlungenPdf(name: string, es: seq<Person>, logoHeight: real, wrap: PdfRoute.Wrap)
    returns (doc: Doc, fileName: string)
    ensures fileName == "Empfehlungen " + name + ".pdf"
    ensures Valid(doc) && 1 <= doc.pageCount <= 1 + |es|
    ensures Texts(doc.log, 105) == Titles(name, doc.pageCount)
    ensures forall p :: 1 <= p <= doc.pageCount ==> Titled(doc.log, p, name)
    ensures Texts(doc.log, 20) == AllText(es, |es|, 20)
    ensures Texts(doc.log, 55) == AllText(es, |es|, 55)
    ensures Texts(doc.log, 190) == if doc.pageCount > 1 then PageLabels(doc.pageCount, doc.pageCount) else []
    ensures doc.pageCount > 1 ==> forall p :: 1 <= p <= doc.pageCount ==> LabelledOn(doc.log, p, PageLabel(p, doc.pageCount))
    ensures es != [] ==> |doc.log| > 2 && doc.log[2] == Entry(1, Text(20, ContentStart, "Name:"))
  {
    var drawn := DrawEntries(name, es, LogoTop(logoHeight), wrap);
    doc := NumberPages(drawn);
    NumberedFacts(drawn, doc, name, es);
    fileName := "Empfehlungen " + name + ".pdf";
  }
}
