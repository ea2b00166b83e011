/**
 * The client-side contact sheet PDF ("Firmenvorstellung"): a notes page, then
 * the recommended people from a second page on, one block of labelled rows per
 * person with a separator line between blocks, and a new page whenever a full
 * block might not fit above 260.
 */
module ExportController {
  import opened Wrappers
  import opened PdfDoc
  import opened PdfRows
  import opened Contacts
  import opened Decimal
  import PdfRoute

  /** Where the people start on the second page. */
  const ListStart := 70

  /** The distance between two rows of a block. */
  const LineHeight := 7

  /** The space after a separator line. */
  const SectionGap := 10

  /** The room a block may need: six rows and the gap. */
  const BlockHeight := 6 * LineHeight + SectionGap

  /** A block whose room would reach below this line starts on a new page. */
  const BreakLimit := 260

  /** Where the people continue on a page after the second. */
  const Restart := 40

  /** The lowest line anything of a block is drawn on: a block starts at or above `BreakLimit - BlockHeight`. */
  const Lowest := BreakLimit - BlockHeight + 6 * LineHeight + 2

  /** `notes && notes.trim().length > 0`. */
  predicate NotesShown(notes: Option<string>) {
    notes.Some? && Trim(notes.value) != ""
  }

  /** The 25 mm wide logo at the top left. */
  const LogoOp := Logo(20, 10 as real, 25)

  /** Page 1 with the title, the notes when they are not blank, and page 2 with its title. */
  function FrontLog(geberName: string, notes: Option<string>, wrap: PdfRoute.Wrap): seq<Entry> {
    [Entry(1, LogoOp), Entry(1, TextBlock(105, 40, ["Notizen", geberName]))] +
    (if NotesShown(notes) then [Entry(1, TextBlock(20, ListStart, wrap(notes.value, 170)))] else []) +
    [Entry(2, LogoOp), Entry(2, TextBlock(105, 40, ["Empfehlungen", geberName]))]
  }

  /**
   * Page 1 holds the notes block exactly when the notes are not blank, and
   * nothing but the logo, the title and the notes; page 2 begins with the logo
   * and the recommendations title.
   */
  lemma FrontPages(geberName: string, notes: Option<string>, wrap: PdfRoute.Wrap)
    ensures var f := FrontLog(geberName, notes, wrap);
      |f| == (if NotesShown(notes) then 5 else 4) &&
      (NotesShown(notes) <==> exists j :: 0 <= j < |f| && f[j].page == 1 && f[j].op.TextBlock? && f[j].op.x == 20) &&
      (NotesShown(notes) ==> f[2] == Entry(1, TextBlock(20, ListStart, wrap(notes.value, 170)))) &&
      f[|f| - 2] == Entry(2, LogoOp) && f[|f| - 1] == Entry(2, TextBlock(105, 40, ["Empfehlungen", geberName])) &&
      (forall j :: 0 <= j < |f| ==> (f[j].page == 1 <==> j < |f| - 2))
  {
    var f := FrontLog(geberName, notes, wrap);
    if NotesShown(notes) {
      assert f[2].op.TextBlock? && f[2].op.x == 20 && f[2].page == 1;
    } else {
      assert f == [Entry(1, LogoOp), Entry(1, TextBlock(105, 40, ["Notizen", geberName])),
        Entry(2, LogoOp), Entry(2, TextBlock(105, 40, ["Empfehlungen", geberName]))];
    }
  }

  /** The front pages as a literal list of four or five entries. */
  lemma FrontEntries(geberName: string, notes: Option<string>, wrap: PdfRoute.Wrap)
    ensures var f := FrontLog(geberName, notes, wrap);
      var head := [Entry(1, LogoOp), Entry(1, TextBlock(105, 40, ["Notizen", geberName]))];
      var tail := [Entry(2, LogoOp), Entry(2, TextBlock(105, 40, ["Empfehlungen", geberName]))];
      f == if NotesShown(notes) then head + [Entry(1, TextBlock(20, ListStart, wrap(notes.value, 170)))] + tail else head + tail
  {
  }

  /** The front pages write no single-line texts. */
  lemma FrontTexts(geberName: string, notes: Option<string>, wrap: PdfRoute.Wrap, x: int)
    ensures Texts(FrontLog(geberName, notes, wrap), x) == []
  {
    var f := FrontLog(geberName, notes, wrap);
    FrontEntries(geberName, notes, wrap);
    assert forall j :: 0 <= j < |f| ==> f[j].op.Logo? || f[j].op.TextBlock?;
    NoTexts(f, x);
  }

  /** The front pages draw no rules, nothing below `Lowest`, and only on pages 1 and 2. */
  lemma FrontFacts(geberName: string, notes: Option<string>, wrap: PdfRoute.Wrap)
    ensures var f := FrontLog(geberName, notes, wrap);
      Rules(f) == 0 && DrawnAbove(f, 0, Lowest) &&
      (forall j :: 0 <= j < |f| ==> 1 <= f[j].page <= 2)
  {
    var f := FrontLog(geberName, notes, wrap);
    FrontEntries(geberName, notes, wrap);
    assert forall j :: 0 <= j < |f| ==> f[j].op.Logo? || f[j].op.TextBlock?;
    NoRules(f);
  }

  /** A log without single-line texts writes nothing in any column. */
  lemma {:induction false} NoTexts(f: seq<Entry>, x: int)
    requires forall j :: 0 <= j < |f| ==> !f[j].op.Text?
    ensures Texts(f, x) == []
    decreases |f|
  {
    if f != [] {
      NoTexts(f[..|f| - 1], x);
    }
  }

  /** A log without separator lines counts none. */
  lemma {:induction false} NoRules(f: seq<Entry>)
    requires forall j :: 0 <= j < |f| ==> !f[j].op.Rule?
    ensures Rules(f) == 0
    decreases |f|
  {
    if f != [] {
      NoRules(f[..|f| - 1]);
    }
  }

  /** How many separator lines the log draws. */
  function Rules(log: seq<Entry>): nat {
    if log == [] then 0 else Rules(log[..|log| - 1]) + (if log[|log| - 1].op.Rule? then 1 else 0)
  }

  /** Appending only texts draws no separator. */
  lemma {:induction false} RulesOverTexts(a: seq<Entry>, b: seq<Entry>, page: nat)
    requires |a| <= |b| && b[..|a|] == a && TextsOn(b, |a|, page)
    ensures Rules(b) == Rules(a)
    decreases |b|
  {
    if |b| > |a| {
      var init := b[..|b| - 1];
      assert init[..|a|] == a;
      RulesOverTexts(a, init, page);
    } else {
      assert b == a;
    }
  }

  /** The six rows of a person, in the order they are written. */
  function PersonFields(p: Person): seq<(string, string)> {
    [("Name", p.name), ("Ort", p.ort), ("Alter", p.alter), ("Beruf", p.beruf), ("Telefon", p.telefon), ("Bemerkung", p.bemerkung)]
  }

  /** Where a block starts: when its room would reach below `BreakLimit`, on a new page at `Restart`. */
  function PersonStart(c: Cursor): Cursor {
    if c.y + BlockHeight > BreakLimit then Cursor(AddPage(c.doc), Restart) else c
  }

  /** A block from where it starts: the rows, and unless it is the last block, 2 down, a separator line, and the gap. */
  function PersonBody(s: Cursor, p: Person, last: bool): Cursor {
    var r := Rows(s, PersonFields(p), LineHeight);
    if last then r else Cursor(Draw(r.doc, Rule(20, r.y + 2, 190)), r.y + 2 + SectionGap)
  }

  /** One round of the loop over the people. */
  function PersonBlock(c: Cursor, p: Person, last: bool): Cursor {
    PersonBody(PersonStart(c), p, last)
  }

  /** The start of a block leaves room for the whole block, draws nothing, and adds a page only when it has to. */
  lemma PersonStartFacts(c: Cursor)
    ensures var s := PersonStart(c);
      s.doc.log == c.doc.log && s.y + BlockHeight <= BreakLimit &&
      s.doc.pageCount == c.doc.pageCount + (if c.y + BlockHeight > BreakLimit then 1 else 0) &&
      (c.y + BlockHeight <= BreakLimit ==> s == c) &&
      (Valid(c.doc) && c.doc.current == c.doc.pageCount ==> Valid(s.doc) && s.doc.current == s.doc.pageCount)
  {
  }

  /** A block only appends, on the current page, and moves down 7 per shown row and 12 after a separator. */
  lemma PersonBodyShape(s: Cursor, p: Person, last: bool)
    ensures var r := PersonBody(s, p, last);
      r.doc.pageCount == s.doc.pageCount && r.doc.current == s.doc.current &&
      |s.doc.log| <= |r.doc.log| && r.doc.log[..|s.doc.log|] == s.doc.log &&
      (forall j :: |s.doc.log| <= j < |r.doc.log| ==> r.doc.log[j].page == s.doc.current) &&
      r.y == s.y + LineHeight * Shown(PersonFields(p)) + (if last then 0 else 2 + SectionGap) &&
      (Valid(s.doc) ==> Valid(r.doc))
  {
    var rows := Rows(s, PersonFields(p), LineHeight);
    RowsFacts(s, PersonFields(p), LineHeight);
    RowsPlaced(s, PersonFields(p), LineHeight);
    if Valid(s.doc) {
      RowsValid(s, PersonFields(p), LineHeight);
    }
    var r := PersonBody(s, p, last);
    if !last {
      assert r.doc.log[..|s.doc.log|] == r.doc.log[..|rows.doc.log|][..|s.doc.log|];
      forall j | |s.doc.log| <= j < |rows.doc.log| ensures r.doc.log[j].page == s.doc.current {
        assert r.doc.log[j] == rows.doc.log[j];
      }
    }
  }

  /** A block's rows and separator lie at or above `Lowest` when it starts where `PersonStart` leaves it. */
  lemma PersonBodyPlaced(s: Cursor, p: Person, last: bool)
    requires s.y + BlockHeight <= BreakLimit
    ensures DrawnAbove(PersonBody(s, p, last).doc.log, |s.doc.log|, Lowest)
  {
    var fields := PersonFields(p);
    var rows := Rows(s, fields, LineHeight);
    RowsFacts(s, fields, LineHeight);
    RowsPlaced(s, fields, LineHeight);
    ShownBound(fields);
    var r := PersonBody(s, p, last);
    if !last {
      assert r.doc.log[..|rows.doc.log|] == rows.doc.log;
      DrawnAboveJoin(rows.doc.log, r.doc.log, |s.doc.log|, Lowest);
    }
  }

  /** A block draws one separator unless it is the last. */
  lemma PersonBodyRules(s: Cursor, p: Person, last: bool)
    ensures Rules(PersonBody(s, p, last).doc.log) == Rules(s.doc.log) + (if last then 0 else 1)
  {
    var rows := Rows(s, PersonFields(p), LineHeight);
    RowsFacts(s, PersonFields(p), LineHeight);
    RowsPlaced(s, PersonFields(p), LineHeight);
    RulesOverTexts(s.doc.log, rows.doc.log, s.doc.current);
    if !last {
      var r := PersonBody(s, p, last);
      assert r.doc.log[..|r.doc.log| - 1] == rows.doc.log;
    }
  }

  /** A block adds its labels and values to the columns. */
  lemma PersonBodyTexts(s: Cursor, p: Person, last: bool, x: int)
    ensures Texts(PersonBody(s, p, last).doc.log, x) == Texts(s.doc.log, x) + RowsText(PersonFields(p), x)
  {
    var rows := Rows(s, PersonFields(p), LineHeight);
    RowsTexts(s, PersonFields(p), LineHeight, x);
    if !last {
      DrawTexts(rows.doc, Rule(20, rows.y + 2, 190), x);
    }
  }

  /** A block with a name begins with the name label at the cursor. */
  lemma PersonBodyFirst(s: Cursor, p: Person, last: bool)
    requires p.name != ""
    ensures var r := PersonBody(s, p, last);
      |r.doc.log| > |s.doc.log| && r.doc.log[|s.doc.log|] == Entry(s.doc.current, Text(20, s.y, "Name:"))
  {
    var rows := Rows(s, PersonFields(p), LineHeight);
    RowsFirst(s, PersonFields(p), LineHeight);
    assert "Name" + ":" == "Name:";
    var r := PersonBody(s, p, last);
    if !last {
      assert r.doc.log[|s.doc.log|] == r.doc.log[..|rows.doc.log|][|s.doc.log|];
    }
  }

  /** What the first `n` people write in column `x`, in order. */
  function PersonsText(ps: seq<Person>, n: nat, x: int): seq<string>
    requires n <= |ps|
  {
    if n == 0 then [] else PersonsText(ps, n - 1, x) + RowsText(PersonFields(ps[n - 1]), x)
  }

  /** The separators after the first `i` of `n` people: one after each but the last. */
  function Separators(n: nat, i: nat): nat {
    if i == n && i > 0 then i - 1 else i
  }

  /**
   * What the document is after the first `i` people: valid with its last page
   * current, at least the two front pages and at most one more page per person,
   * the front pages unchanged, every block on page 2 or later and at or above
   * `Lowest`, the people's labels and values in order, one separator after
   * each person but the last, and the first person's name at the top of the
   * list.
   */
  ghost predicate Listed(d: Doc, front: seq<Entry>, ps: seq<Person>, i: nat)
    requires i <= |ps|
  {
    Valid(d) && d.current == d.pageCount && 2 <= d.pageCount <= 2 + i &&
    |front| <= |d.log| && d.log[..|front|] == front &&
    (forall j :: |front| <= j < |d.log| ==> d.log[j].page >= 2) &&
    DrawnAbove(d.log, |front|, Lowest) &&
    Texts(d.log, 20) == PersonsText(ps, i, 20) &&
    Texts(d.log, 55) == PersonsText(ps, i, 55) &&
    Rules(d.log) == Separators(|ps|, i) &&
    (i > 0 && ps[0].name != "" ==> |d.log| > |front| && d.log[|front|] == Entry(2, Text(20, ListStart, "Name:")))
  }

  /** A block keeps the page facts. */
  lemma BlockKeepsPages(c: Cursor, front: seq<Entry>, p: Person, i: nat, last: bool)
    requires Valid(c.doc) && c.doc.current == c.doc.pageCount && 2 <= c.doc.pageCount <= 2 + i
    requires |front| <= |c.doc.log| && c.doc.log[..|front|] == front
    requires forall j :: |front| <= j < |c.doc.log| ==> c.doc.log[j].page >= 2
    requires DrawnAbove(c.doc.log, |front|, Lowest)
    ensures var r := PersonBlock(c, p, last).doc;
      Valid(r) && r.current == r.pageCount && 2 <= r.pageCount <= 2 + (i + 1) &&
      |front| <= |r.log| && r.log[..|front|] == front &&
      (forall j :: |front| <= j < |r.log| ==> r.log[j].page >= 2) &&
      DrawnAbove(r.log, |front|, Lowest)
  {
    var s := PersonStart(c);
    PersonStartFacts(c);
    PersonBodyShape(s, p, last);
    PersonBodyPlaced(s, p, last);
    var r := PersonBlock(c, p, last).doc;
    assert r.log[..|front|] == r.log[..|c.doc.log|][..|front|];
    forall j | |front| <= j < |c.doc.log| ensures r.log[j] == c.doc.log[j] {
      assert r.log[j] == r.log[..|c.doc.log|][j];
    }
    DrawnAboveJoin(c.doc.log, r.log, |front|, Lowest);
  }

  /** A block keeps the columns and the separator count. */
  lemma BlockKeepsColumns(c: Cursor, ps: seq<Person>, i: nat)
    requires i < |ps|
    requires Texts(c.doc.log, 20) == PersonsText(ps, i, 20)
    requires Texts(c.doc.log, 55) == PersonsText(ps, i, 55)
    requires Rules(c.doc.log) == Separators(|ps|, i)
    ensures var r := PersonBlock(c, ps[i], i == |ps| - 1).doc;
      Texts(r.log, 20) == PersonsText(ps, i + 1, 20) &&
      Texts(r.log, 55) == PersonsText(ps, i + 1, 55) &&
      Rules(r.log) == Separators(|ps|, i + 1)
  {
    var s := PersonStart(c);
    PersonStartFacts(c);
    PersonBodyTexts(s, ps[i], i == |ps| - 1, 20);
    PersonBodyTexts(s, ps[i], i == |ps| - 1, 55);
    PersonBodyRules(s, ps[i], i == |ps| - 1);
  }

  /** The first block begins with the first person's name at the top of the list. */
  lemma BlockKeepsFirst(c: Cursor, front: seq<Entry>, ps: seq<Person>, i: nat)
    requires i < |ps| && c.doc.current == c.doc.pageCount && 2 <= c.doc.pageCount <= 2 + i
    requires i == 0 ==> c.y == ListStart && |c.doc.log| == |front|
    requires i > 0 && ps[0].name != "" ==> |c.doc.log| > |front| && c.doc.log[|front|] == Entry(2, Text(20, ListStart, "Name:"))
    ensures var r := PersonBlock(c, ps[i], i == |ps| - 1).doc;
      ps[0].name != "" ==> |r.log| > |front| && r.log[|front|] == Entry(2, Text(20, ListStart, "Name:"))
  {
    var s := PersonStart(c);
    PersonStartFacts(c);
    PersonBodyShape(s, ps[i], i == |ps| - 1);
    var r := PersonBlock(c, ps[i], i == |ps| - 1).doc;
    if i == 0 {
      if ps[0].name != "" {
        PersonBodyFirst(s, ps[0], i == |ps| - 1);
      }
    } else if ps[0].name != "" {
      assert r.log[|front|] == r.log[..|c.doc.log|][|front|];
    }
  }

  /** One block keeps `Listed`, one person further. */
  lemma BlockKeeps(c: Cursor, front: seq<Entry>, ps: seq<Person>, i: nat)
    requires i < |ps| && Listed(c.doc, front, ps, i)
    requires i == 0 ==> c.y == ListStart && |c.doc.log| == |front|
    ensures Listed(PersonBlock(c, ps[i], i == |ps| - 1).doc, front, ps, i + 1)
  {
    BlockKeepsPages(c, front, ps[i], i, i == |ps| - 1);
    BlockKeepsColumns(c, ps, i);
    BlockKeepsFirst(c, front, ps, i);
  }

  /** The two front pages are where the list starts from. */
  lemma FrontListed(geberName: string, notes: Option<string>, wrap: PdfRoute.Wrap, ps: seq<Person>)
    ensures var f := FrontLog(geberName, notes, wrap);
      Listed(Doc(2, 2, f), f, ps, 0)
  {
    var f := FrontLog(geberName, notes, wrap);
    FrontFacts(geberName, notes, wrap);
    FrontTexts(geberName, notes, wrap, 20);
    FrontTexts(geberName, notes, wrap, 55);
    assert f[..|f|] == f;
  }

  /** The notes page and the head of the recommendations page. */
  method DrawFront(geberName: string, notes: Option<string>, wrap: PdfRoute.Wrap) returns (doc: Doc)
    ensures doc == Doc(2, 2, FrontLog(geberName, notes, wrap))
  {
    doc := Draw(Empty, LogoOp);
    doc := Draw(doc, TextBlock(105, 40, ["Notizen", geberName]));
    var y := ListStart;
    if notes.Some? && Trim(notes.value) != "" {
      doc := Draw(doc, TextBlock(20, y, wrap(notes.value, 170)));
    }
    doc := AddPage(doc);
    doc := Draw(doc, LogoOp);
    doc := Draw(doc, TextBlock(105, 40, ["Empfehlungen", geberName]));
  }

  /** One pass of the loop body: a page break when the block might not fit, the rows, and the separator unless it is the last block. */
  method DrawPerson(c: Cursor, person: Person, isLast: bool) returns (r: Cursor)
    ensures r == PersonBlock(c, person, isLast)
  {
    var doc, y := c.doc, c.y;
    if y + BlockHeight > BreakLimit {
      doc := AddPage(doc);
      y := Restart;
    }
    assert Cursor(doc, y) == PersonStart(c);
    var rows := Rows(Cursor(doc, y), PersonFields(person), LineHeight);
    doc, y := rows.doc, rows.y;
    if !isLast {
      y := y + 2;
      doc := Draw(doc, Rule(20, y, 190));
      y := y + SectionGap;
    }
    r := Cursor(doc, y);
  }

  /**
   * `exportKontaktbogenToPDF`: the notes page, the recommendations page, one
   * block per person, the file name, and the cleanup dialog callback invoked
   * with `true` when one is given.
   */
  method ExportKontaktbogenPdf(geberName: string, personen: seq<Person>, notes: Option<string>,
                               hasCleanup: bool, wrap: PdfRoute.Wrap)
    returns (doc: Doc, fileName: string, cleanupCalls: seq<bool>)
    ensures fileName == "Firmenvorstellung-" + geberName + ".pdf"
    ensures cleanupCalls == if hasCleanup then [true] else []
    ensures var f := FrontLog(geberName, notes, wrap);
      |f| <= |doc.log| && doc.log[..|f|] == f &&
      (forall j :: |f| <= j < |doc.log| ==> doc.log[j].page >= 2)
    ensures Valid(doc) && 2 <= doc.pageCount <= 2 + |personen|
    ensures DrawnAbove(doc.log, 0, Lowest)
    ensures Texts(doc.log, 20) == PersonsText(personen, |personen|, 20)
    ensures Texts(doc.log, 55) == PersonsText(personen, |personen|, 55)
    ensures Rules(doc.log) == if personen == [] then 0 else |personen| - 1
    ensures personen != [] && personen[0].name != "" ==>
      |doc.log| > |FrontLog(geberName, notes, wrap)| &&
      doc.log[|FrontLog(geberName, notes, wrap)|] == Entry(2, Text(20, ListStart, "Name:"))
  {
    doc := DrawFront(geberName, notes, wrap);
    var y := ListStart;
    ghost var front := FrontLog(geberName, notes, wrap);
    FrontListed(geberName, notes, wrap, personen);
    for i := 0 to |personen|
      invariant Listed(doc, front, personen, i)
      invariant i == 0 ==> y == ListStart && |doc.log| == |front|
    {
      var before := Cursor(doc, y);
      var next := DrawPerson(before, personen[i], i == |personen| - 1);
      doc, y := next.doc, next.y;
      BlockKeeps(before, front, personen, i);
    }
    FrontFacts(geberName, notes, wrap);
    DrawnAboveJoin(front, doc.log, 0, Lowest);
    fileName := "Firmenvorstellung-" + geberName + ".pdf";
    cleanupCalls := if hasCleanup then [true] else [];
  }
}
