/**
 * The server-side PDF route: a POST body names the kind of PDF, and the
 * route answers with the generated document inline, or with status 400 for a
 * kind it does not know. It writes two documents: the list of recommended
 * contacts and the Chancenblatt with the customer's name as a footnote.
 */
module PdfRoute {
  import opened PdfDoc
  import opened PdfRows
  import opened Contacts
  import opened ChancenblattQuestions
  import opened ChancenblattExport
  import ChancenblattFlow

  /** The A4 page height in millimetres. */
  const PageHeight := 297

  /** A recommendation that would start below this line starts on a new page. */
  const EntryLimit := PageHeight - 40

  /** A question block that would start below this line starts on a new page. */
  const ListLimit := PageHeight - 30

  /** The JSON body of the request; `kind` is its `type` field. */
  datatype Body = Body(
    kind: string, name: string, empfehlungen: seq<Person>,
    ergebnisTyp: string, kundenName: string, content: Content, answers: map<string, string>)

  /** What the route answers. */
  datatype Response =
    | PdfFile(doc: Doc, contentType: string, disposition: string)
    | Rejected(status: int, message: string)

  /** `pdf.splitTextToSize(text, width)`: the lines a text is wrapped into, which depend on the font metrics. */
  type Wrap = (string, int) -> seq<string>

  /** `pdfResponse`: the document inline, under its file name. */
  function PdfResponse(doc: Doc, fileName: string): Response {
    PdfFile(doc, "application/pdf", "inline; filename=\"" + fileName + "\"")
  }

  /** The file name can be read back from the response header. */
  lemma PdfResponseNames(doc: Doc, f: string, g: string)
    ensures PdfResponse(doc, f).PdfFile? && PdfResponse(doc, f).contentType == "application/pdf"
    ensures PdfResponse(doc, f).disposition == PdfResponse(doc, g).disposition ==> f == g
  {
    var prefix := "inline; filename=\"";
    if PdfResponse(doc, f).disposition == PdfResponse(doc, g).disposition {
      var d := PdfResponse(doc, f).disposition;
      assert |f| == |g|;
      assert f == d[|prefix|..|prefix| + |f|];
      assert g == d[|prefix|..|prefix| + |g|];
    }
  }

  // ---------------------------------------------------------------------
  // Empfehlungen

  /** `e.name || "-"`. */
  function NameOrDash(name: string): string {
    if name == "" then "-" else name
  }

  /** The five one-line rows of a recommendation; the name row is never empty. */
  function EntryFields(e: Person): seq<(string, string)> {
    [("Name", NameOrDash(e.name)), ("Ort", e.ort), ("Alter", e.alter), ("Beruf", e.beruf), ("Telefon", e.telefon)]
  }

  /** Where a recommendation starts: on a new page at `Restart` when the cursor is past `EntryLimit`. */
  function EntryStart(c: Cursor): Cursor {
    if c.y > EntryLimit then Cursor(AddPage(c.doc), Restart) else c
  }

  /** The height the remark takes. */
  function RemarkHeight(e: Person, wrap: Wrap): int {
    if e.bemerkung == "" then 0 else |wrap(e.bemerkung, 135)| * 5
  }

  /** A recommendation from where it starts: rows, remark, and a separating rule 4 below them with 8 after it. */
  function EntryBody(s: Cursor, e: Person, wrap: Wrap): Cursor {
    var r := Remark(Rows(s, EntryFields(e), 5), e.bemerkung, wrap(e.bemerkung, 135));
    Cursor(Draw(r.doc, Rule(20, r.y + 4, 190)), r.y + 12)
  }

  /** One round of the recommendation loop. */
  function Empfehlung(c: Cursor, e: Person, wrap: Wrap): Cursor {
    EntryBody(EntryStart(c), e, wrap)
  }

  /** The texts a recommendation writes in column `x`. */
  function EmpfehlungText(e: Person, x: int): seq<string> {
    RowsText(EntryFields(e), x) + (if e.bemerkung != "" && x == 20 then ["Bemerkung:"] else [])
  }

  /**
   * A recommendation only appends; it starts with its name label at or above
   * `EntryLimit`, on a new page exactly when the cursor was past the limit, and
   * it takes 5 per shown row, the remark's height and 12 for the rule.
   */
  lemma EmpfehlungShape(c: Cursor, e: Person, wrap: Wrap)
    ensures EntryStart(c).y <= EntryLimit
    ensures Empfehlung(c, e, wrap).doc.pageCount == c.doc.pageCount + (if c.y > EntryLimit then 1 else 0)
    ensures Empfehlung(c, e, wrap).doc.current == EntryStart(c).doc.current
    ensures |c.doc.log| < |Empfehlung(c, e, wrap).doc.log| && Empfehlung(c, e, wrap).doc.log[..|c.doc.log|] == c.doc.log
    ensures Empfehlung(c, e, wrap).doc.log[|c.doc.log|] == Entry(EntryStart(c).doc.current, Text(20, EntryStart(c).y, "Name:"))
    ensures Empfehlung(c, e, wrap).y == EntryStart(c).y + 5 * Shown(EntryFields(e)) + RemarkHeight(e, wrap) + 12
    ensures Valid(c.doc) && c.doc.current == c.doc.pageCount ==>
      Valid(Empfehlung(c, e, wrap).doc) && Empfehlung(c, e, wrap).doc.current == Empfehlung(c, e, wrap).doc.pageCount
  {
    EntryBodyShape(EntryStart(c), e, wrap);
  }

  /** A recommendation from where it starts only appends, on the current page, beginning with its name label. */
  lemma EntryBodyShape(s: Cursor, e: Person, wrap: Wrap)
    ensures var r := EntryBody(s, e, wrap);
      r.doc.pageCount == s.doc.pageCount && r.doc.current == s.doc.current &&
      |s.doc.log| < |r.doc.log| && r.doc.log[..|s.doc.log|] == s.doc.log &&
      r.doc.log[|s.doc.log|] == Entry(s.doc.current, Text(20, s.y, "Name:")) &&
      r.y == s.y + 5 * Shown(EntryFields(e)) + RemarkHeight(e, wrap) + 12 &&
      (Valid(s.doc) ==> Valid(r.doc))
  {
    var fields := EntryFields(e);
    var rows := Rows(s, fields, 5);
    RowsFacts(s, fields, 5);
    RowsFirst(s, fields, 5);
    assert fields[0].0 + ":" == "Name:";
    var rem := Remark(rows, e.bemerkung, wrap(e.bemerkung, 135));
    RemarkShape(rows, e.bemerkung, wrap(e.bemerkung, 135));
    var r := EntryBody(s, e, wrap);
    assert r.doc.log[..|rem.doc.log|] == rem.doc.log;
    assert r.doc.log[..|s.doc.log|] == r.doc.log[..|rem.doc.log|][..|rows.doc.log|][..|s.doc.log|];
    assert r.doc.log[|s.doc.log|] == r.doc.log[..|rem.doc.log|][..|rows.doc.log|][|s.doc.log|];
    if Valid(s.doc) {
      RowsValid(s, fields, 5);
    }
  }

  /** Column `x` gains the recommendation's labels at 20 and its one-line values at 55. */
  lemma EmpfehlungTexts(c: Cursor, e: Person, wrap: Wrap, x: int)
    ensures Texts(Empfehlung(c, e, wrap).doc.log, x) == Texts(c.doc.log, x) + EmpfehlungText(e, x)
  {
    EntryBodyTexts(EntryStart(c), e, wrap, x);
  }

  /** What a recommendation writes does not depend on where it starts. */
  lemma EntryBodyTexts(s: Cursor, e: Person, wrap: Wrap, x: int)
    ensures Texts(EntryBody(s, e, wrap).doc.log, x) == Texts(s.doc.log, x) + EmpfehlungText(e, x)
  {
    var fields := EntryFields(e);
    var rows := Rows(s, fields, 5);
    RowsTexts(s, fields, 5, x);
    var a, b := Texts(s.doc.log, x), RowsText(fields, x);
    var rem := Remark(rows, e.bemerkung, wrap(e.bemerkung, 135));
    var o := if e.bemerkung != "" && x == 20 then ["Bemerkung:"] else [];
    RemarkTexts(rows, e.bemerkung, wrap(e.bemerkung, 135), x);
    DrawTexts(rem.doc, Rule(20, rem.y + 4, 190), x);
    Regroup(a, b, o);
  }

  /** The label column of a recommendation: the name always, another field exactly when it is filled in. */
  lemma EmpfehlungLabels(e: Person)
    ensures |EmpfehlungText(e, 20)| > 0 && EmpfehlungText(e, 20)[0] == "Name:"
    ensures |EmpfehlungText(e, 55)| > 0 && EmpfehlungText(e, 55)[0] == NameOrDash(e.name)
    ensures "Ort:" in EmpfehlungText(e, 20) <==> e.ort != ""
    ensures "Alter:" in EmpfehlungText(e, 20) <==> e.alter != ""
    ensures "Beruf:" in EmpfehlungText(e, 20) <==> e.beruf != ""
    ensures "Telefon:" in EmpfehlungText(e, 20) <==> e.telefon != ""
    ensures "Bemerkung:" in EmpfehlungText(e, 20) <==> e.bemerkung != ""
    ensures |EmpfehlungText(e, 55)| == Shown(EntryFields(e))
  {
    var fields := EntryFields(e);
    var first := fields[..1];
    assert first == [("Name", NameOrDash(e.name))] && first[..0] == [];
    assert "Name" + ":" == "Name:";
    assert RowsText(first, 20) == ["Name:"];
    assert RowsText(first, 55) == [NameOrDash(e.name)];
    RowsPrefixText(fields, 1, 20);
    RowsPrefixText(fields, 1, 55);
    RowsValues(fields, "");
    assert "Ort" + ":" == "Ort:" && "Alter" + ":" == "Alter:" && "Beruf" + ":" == "Beruf:";
    assert "Telefon" + ":" == "Telefon:" && "Bemerkung" + ":" == "Bemerkung:";
    KeyShown(fields, 1, "Ort");
    KeyShown(fields, 2, "Alter");
    KeyShown(fields, 3, "Beruf");
    KeyShown(fields, 4, "Telefon");
    RowsLabels(fields, "Bemerkung");
  }

  /** In a list of fields with distinct keys, a key's label is shown exactly when its own value is not empty. */
  lemma KeyShown(fields: seq<(string, string)>, k: nat, key: string)
    requires k < |fields| && fields[k].0 == key
    requires forall i :: 0 <= i < |fields| && i != k ==> fields[i].0 != key
    ensures key + ":" in RowsText(fields, 20) <==> fields[k].1 != ""
  {
    RowsLabels(fields, key);
    if fields[k].1 != "" {
      assert fields[k].0 == key;
    }
  }

  /** The recommendation loop over the first `n` entries. */
  function Empfehlungen(c: Cursor, es: seq<Person>, wrap: Wrap, n: nat): Cursor
    requires n <= |es|
  {
    if n == 0 then c else Empfehlung(Empfehlungen(c, es, wrap, n - 1), es[n - 1], wrap)
  }

  /** What the first `n` recommendations write in column `x`, in order. */
  function EmpfehlungenText(es: seq<Person>, n: nat, x: int): seq<string>
    requires n <= |es|
  {
    if n == 0 then [] else EmpfehlungenText(es, n - 1, x) + EmpfehlungText(es[n - 1], x)
  }

  /** The loop adds, in each column, the recommendations' texts in list order. */
  lemma {:induction false} EmpfehlungenTexts(c: Cursor, es: seq<Person>, wrap: Wrap, n: nat, x: int)
    requires n <= |es|
    ensures Texts(Empfehlungen(c, es, wrap, n).doc.log, x) == Texts(c.doc.log, x) + EmpfehlungenText(es, n, x)
  {
    if n > 0 {
      EmpfehlungenTexts(c, es, wrap, n - 1, x);
      EmpfehlungenTextsStep(c, Empfehlungen(c, es, wrap, n - 1), es, wrap, n, x);
    }
  }

  /** The induction step of `EmpfehlungenTexts`: recommendation `n` extends the texts of those before. */
  lemma EmpfehlungenTextsStep(c: Cursor, r0: Cursor, es: seq<Person>, wrap: Wrap, n: nat, x: int)
    requires 0 < n <= |es|
    requires Texts(r0.doc.log, x) == Texts(c.doc.log, x) + EmpfehlungenText(es, n - 1, x)
    ensures Texts(Empfehlung(r0, es[n - 1], wrap).doc.log, x) == Texts(c.doc.log, x) + EmpfehlungenText(es, n, x)
  {
    EmpfehlungTexts(r0, es[n - 1], wrap, x);
    Chain(Texts(Empfehlung(r0, es[n - 1], wrap).doc.log, x), Texts(r0.doc.log, x), Texts(c.doc.log, x),
      EmpfehlungenText(es, n - 1, x), EmpfehlungText(es[n - 1], x), EmpfehlungenText(es, n, x));
  }

  /**
   * The loop only appends; it keeps the document valid with its last page
   * current, adds at most one page per recommendation, and, when the cursor
   * starts above the limit, begins with the first name label at the cursor.
   */
  lemma {:induction false} EmpfehlungenShape(c: Cursor, es: seq<Person>, wrap: Wrap, n: nat)
    requires n <= |es|
    requires Valid(c.doc) && c.doc.current == c.doc.pageCount
    ensures var r := Empfehlungen(c, es, wrap, n);
      |c.doc.log| <= |r.doc.log| && r.doc.log[..|c.doc.log|] == c.doc.log &&
      Valid(r.doc) && r.doc.current == r.doc.pageCount &&
      c.doc.pageCount <= r.doc.pageCount <= c.doc.pageCount + n
  {
    if n > 0 {
      EmpfehlungenShape(c, es, wrap, n - 1);
      var r0 := Empfehlungen(c, es, wrap, n - 1);
      EmpfehlungShape(r0, es[n - 1], wrap);
      var r := Empfehlungen(c, es, wrap, n);
      assert r == Empfehlung(r0, es[n - 1], wrap);
      assert r.doc.log[..|c.doc.log|] == r.doc.log[..|r0.doc.log|][..|c.doc.log|];
    }
  }

  /** When the cursor starts above the limit, the loop begins with the first name label at the cursor. */
  lemma {:induction false} EmpfehlungenFirst(c: Cursor, es: seq<Person>, wrap: Wrap, n: nat)
    requires 0 < n <= |es|
    requires c.y <= EntryLimit
    ensures var r := Empfehlungen(c, es, wrap, n);
      |r.doc.log| > |c.doc.log| && r.doc.log[|c.doc.log|] == Entry(c.doc.current, Text(20, c.y, "Name:"))
  {
    var r0 := Empfehlungen(c, es, wrap, n - 1);
    EmpfehlungShape(r0, es[n - 1], wrap);
    var r := Empfehlungen(c, es, wrap, n);
    assert r == Empfehlung(r0, es[n - 1], wrap);
    if n > 1 {
      EmpfehlungenFirst(c, es, wrap, n - 1);
      assert r.doc.log[|c.doc.log|] == r.doc.log[..|r0.doc.log|][|c.doc.log|];
    }
  }

  /** The first page before the loop: the logo and the centred title. */
  function EmpfehlungenHeader(name: string): Doc {
    Doc(1, 1, [Entry(1, Logo(20, 20 as real, 18)), Entry(1, Text(105, 30, "Empfehlungen " + name))])
  }

  /** The header writes only the title, in the centre column. */
  lemma EmpfehlungenHeaderTexts(name: string, x: int)
    ensures Texts(EmpfehlungenHeader(name).log, x) == if x == 105 then ["Empfehlungen " + name] else []
  {
    var h := EmpfehlungenHeader(name).log;
    TextsSnoc([], h[0], x);
    TextsSnoc([h[0]], h[1], x);
    assert [] + [h[0]] == [h[0]];
    assert [h[0]] + [h[1]] == h;
  }

  /** The rows and remark write only in the label and value columns. */
  lemma {:induction false} EmpfehlungenElsewhere(es: seq<Person>, n: nat, x: int)
    requires n <= |es|
    requires x != 20 && x != 55
    ensures EmpfehlungenText(es, n, x) == []
  {
    if n > 0 {
      EmpfehlungenElsewhere(es, n - 1, x);
      EmpfehlungElsewhere(es[n - 1], x);
      var prev, last := EmpfehlungenText(es, n - 1, x), EmpfehlungText(es[n - 1], x);
      assert EmpfehlungenText(es, n, x) == prev + last;
      assert prev + last == [];
    }
  }

  /** One recommendation writes only in the label and value columns. */
  lemma EmpfehlungElsewhere(e: Person, x: int)
    requires x != 20 && x != 55
    ensures EmpfehlungText(e, x) == []
  {
    RowsElsewhere(EntryFields(e), x);
  }

  /** The whole recommendations document. */
  function EmpfehlungenDoc(name: string, es: seq<Person>, wrap: Wrap): Doc {
    Empfehlungen(Cursor(EmpfehlungenHeader(name), 50), es, wrap, |es|).doc
  }

  /** The facts about the whole document that `CreateEmpfehlungenPdf` promises. */
  lemma EmpfehlungenDocFacts(name: string, es: seq<Person>, wrap: Wrap)
    ensures var doc := EmpfehlungenDoc(name, es, wrap);
      Valid(doc) && doc.current == doc.pageCount && doc.pageCount <= 1 + |es| &&
      Texts(doc.log, 105) == ["Empfehlungen " + name] &&
      Texts(doc.log, 20) == EmpfehlungenText(es, |es|, 20) &&
      Texts(doc.log, 55) == EmpfehlungenText(es, |es|, 55) &&
      (es != [] ==> |doc.log| > 2 && doc.log[2] == Entry(1, Text(20, 50, "Name:")))
  {
    var start := Cursor(EmpfehlungenHeader(name), 50);
    EmpfehlungenShape(start, es, wrap, |es|);
    EmpfehlungenTexts(start, es, wrap, |es|, 105);
    EmpfehlungenTexts(start, es, wrap, |es|, 20);
    EmpfehlungenTexts(start, es, wrap, |es|, 55);
    EmpfehlungenHeaderTexts(name, 105);
    EmpfehlungenHeaderTexts(name, 20);
    EmpfehlungenHeaderTexts(name, 55);
    EmpfehlungenElsewhere(es, |es|, 105);
    if es != [] {
      EmpfehlungenFirst(start, es, wrap, |es|);
    }
  }

  /**
   * `createEmpfehlungenPDF`: the logo and the title, then the recommendation
   * loop from 50 below the top of the first page.
   */
  method CreateEmpfehlungenPdf(name: string, es: seq<Person>, wrap: Wrap) returns (doc: Doc)
    ensures doc == EmpfehlungenDoc(name, es, wrap)
    ensures Valid(doc) && doc.current == doc.pageCount && doc.pageCount <= 1 + |es|
    ensures Texts(doc.log, 105) == ["Empfehlungen " + name]
    ensures Texts(doc.log, 20) == EmpfehlungenText(es, |es|, 20)
    ensures Texts(doc.log, 55) == EmpfehlungenText(es, |es|, 55)
    ensures es != [] ==> |doc.log| > 2 && doc.log[2] == Entry(1, Text(20, 50, "Name:"))
  {
    doc := Draw(Empty, Logo(20, 20 as real, 18));
    doc := Draw(doc, Text(105, 30, "Empfehlungen " + name));
    var y := 50;
    assert doc == EmpfehlungenHeader(name);
    var i := 0;
    while i < |es|
      invariant 0 <= i <= |es|
      invariant Cursor(doc, y) == Empfehlungen(Cursor(EmpfehlungenHeader(name), 50), es, wrap, i)
    {
      var e := es[i];
      ghost var before := Cursor(doc, y);
      if y > EntryLimit {
        doc := AddPage(doc);
        y := Restart;
      }
      assert Cursor(doc, y) == EntryStart(before);
      var rows := Rows(Cursor(doc, y), EntryFields(e), 5);
      doc, y := rows.doc, rows.y;
      if e.bemerkung != "" {
        doc := Draw(doc, Text(20, y, "Bemerkung:"));
        var lines := wrap(e.bemerkung, 135);
        doc := Draw(doc, TextBlock(55, y, lines));
        y := y + |lines| * 5;
      }
      assert Cursor(doc, y) == Remark(rows, e.bemerkung, wrap(e.bemerkung, 135));
      y := y + 4;
      doc := Draw(doc, Rule(20, y, 190));
      y := y + 8;
      assert Cursor(doc, y) == Empfehlung(before, e, wrap);
      i := i + 1;
    }
    EmpfehlungenDocFacts(name, es, wrap);
  }

  // ---------------------------------------------------------------------
  // Chancenblatt with the customer's name

  /** The footnote naming the customer. */
  function Footnote(kundenName: string): string {
    "Chancenblatt – " + kundenName
  }

  /** The header: the logo, the result text in the column at 60, and the section title. */
  function RouteHeaderLog(content: Content): seq<Entry> {
    [Entry(1, Logo(20, 20 as real, 28)),
     Entry(1, Text(60, 30, content.title)),
     Entry(1, Text(60, 50, content.text)),
     Entry(1, Text(60, 66, content.hint)),
     Entry(1, Text(20, 86, SectionTitle))]
  }

  /** The document once every question of the table has been listed from 96, with page breaks past `ListLimit`. */
  function RouteListed(content: Content, answers: map<string, string>): Doc {
    ListAll(Cursor(Doc(1, 1, RouteHeaderLog(content)), 96), Questions, answers, ListLimit, |Questions|).doc
  }

  /** The listed document keeps the header, is valid with its last page current, and places everything at most 14 below the limit. */
  lemma RouteListedLayout(content: Content, answers: map<string, string>)
    ensures var listed := RouteListed(content, answers);
      Valid(listed) && listed.current == listed.pageCount &&
      listed.pageCount <= 1 + ChancenblattFlow.Matched(Questions, answers) &&
      |listed.log| >= 5 && listed.log[..5] == RouteHeaderLog(content) &&
      DrawnAbove(listed.log, 5, ListLimit + 14)
  {
    var start := Cursor(Doc(1, 1, RouteHeaderLog(content)), 96);
    ListAllAppends(start, Questions, answers, ListLimit, |Questions|);
    ListAllBounds(start, Questions, answers, ListLimit, |Questions|);
    assert Questions[..|Questions|] == Questions;
  }

  /** The three text columns of the listed document. */
  lemma RouteListedTexts(content: Content, answers: map<string, string>)
    ensures Texts(RouteListed(content, answers).log, 60) == [content.title, content.text, content.hint]
    ensures Texts(RouteListed(content, answers).log, 20) == [SectionTitle] + HeadingsFor(Questions, answers, |Questions|)
    ensures Texts(RouteListed(content, answers).log, 24) == CaptionsFor(Questions, answers, |Questions|)
  {
    RouteListedTextsAt(content, answers, 60);
    RouteListedTextsAt(content, answers, 20);
    RouteListedTextsAt(content, answers, 24);
    assert [content.title, content.text, content.hint] + [] + [] == [content.title, content.text, content.hint];
    assert [] + [SectionTitle] + HeadingsFor(Questions, answers, |Questions|) == [SectionTitle] + HeadingsFor(Questions, answers, |Questions|);
    assert [] + [] + CaptionsFor(Questions, answers, |Questions|) == CaptionsFor(Questions, answers, |Questions|);
  }

  lemma RouteListedTextsAt(content: Content, answers: map<string, string>, x: int)
    ensures Texts(RouteListed(content, answers).log, x) ==
      (if x == 60 then [content.title, content.text, content.hint] else []) + (if x == 20 then [SectionTitle] else []) +
      ListedAt(Questions, answers, |Questions|, x)
  {
    ListAllTexts(Cursor(Doc(1, 1, RouteHeaderLog(content)), 96), Questions, answers, ListLimit, |Questions|, x);
    FiveTexts(RouteHeaderLog(content), x);
  }

  /** The whole Chancenblatt: the listing, then the footnote on the last page when a customer name is given. */
  function ChancenblattDoc(content: Content, answers: map<string, string>, kundenName: string): Doc {
    var listed := RouteListed(content, answers);
    RouteListedLayout(content, answers);
    if kundenName == "" then listed
    else Draw(SetPage(listed, listed.pageCount), Text(20, PageHeight - 10, Footnote(kundenName)))
  }

  /** The footnote is the last operation on the last page; it adds one text to the left column and nothing elsewhere. */
  lemma FootnoteDrawn(listed: Doc, note: string)
    requires Valid(listed) && listed.current == listed.pageCount && |listed.log| >= 5
    ensures var doc := Draw(listed, Text(20, 287, note));
      Valid(doc) && doc.pageCount == listed.pageCount &&
      doc.log[..|doc.log| - 1] == listed.log && doc.log[..5] == listed.log[..5] &&
      doc.log[|doc.log| - 1] == Entry(doc.pageCount, Text(20, 287, note)) &&
      Texts(doc.log, 20) == Texts(listed.log, 20) + [note] &&
      Texts(doc.log, 24) == Texts(listed.log, 24) &&
      Texts(doc.log, 60) == Texts(listed.log, 60)
  {
    var op := Text(20, 287, note);
    var doc := Draw(listed, op);
    DrawTexts(listed, op, 20);
    DrawTexts(listed, op, 24);
    DrawTexts(listed, op, 60);
    assert doc.log[..|doc.log| - 1] == listed.log;
    assert doc.log[..5] == listed.log[..5];
  }

  /** The facts about the whole document that `CreateChancenblattPdf` promises. */
  lemma ChancenblattDocFacts(content: Content, answers: map<string, string>, kundenName: string)
    ensures var doc := ChancenblattDoc(content, answers, kundenName);
      Valid(doc) && |doc.log| >= 5 && doc.log[..5] == RouteHeaderLog(content) &&
      doc.pageCount <= 1 + ChancenblattFlow.Matched(Questions, answers) &&
      Texts(doc.log, 60) == [content.title, content.text, content.hint] &&
      Texts(doc.log, 20) == [SectionTitle] + HeadingsFor(Questions, answers, |Questions|) + (if kundenName == "" then [] else [Footnote(kundenName)]) &&
      Texts(doc.log, 24) == CaptionsFor(Questions, answers, |Questions|) &&
      (kundenName == "" ==> DrawnAbove(doc.log, 5, ListLimit + 14)) &&
      (kundenName != "" ==>
        DrawnAbove(doc.log[..|doc.log| - 1], 5, ListLimit + 14) &&
        doc.log[|doc.log| - 1] == Entry(doc.pageCount, Text(20, 287, Footnote(kundenName))))
  {
    var listed := RouteListed(content, answers);
    RouteListedLayout(content, answers);
    RouteListedTexts(content, answers);
    if kundenName != "" {
      FootnoteDrawn(listed, Footnote(kundenName));
    } else {
      assert [SectionTitle] + HeadingsFor(Questions, answers, |Questions|) + [] == [SectionTitle] + HeadingsFor(Questions, answers, |Questions|);
    }
  }

  /**
   * `createChancenblattPDF`: the header beside a 28 mm wide logo, the
   * listing of the matched questions from 96 with page breaks past 267, and,
   * when the customer's name is given, the footnote 10 above the bottom of
   * the last page.
   */
  method CreateChancenblattPdf(content: Content, answers: map<string, string>, kundenName: string, ergebnisTyp: string)
    returns (doc: Doc, fileName: string)
    ensures doc == ChancenblattDoc(content, answers, kundenName)
    ensures fileName == "Chancenblatt-" + ergebnisTyp + ".pdf"
    ensures Valid(doc) && |doc.log| >= 5 && doc.log[..5] == RouteHeaderLog(content)
    ensures doc.pageCount <= 1 + ChancenblattFlow.Matched(Questions, answers)
    ensures Texts(doc.log, 60) == [content.title, content.text, content.hint]
    ensures Texts(doc.log, 20) == [SectionTitle] + HeadingsFor(Questions, answers, |Questions|) + (if kundenName == "" then [] else [Footnote(kundenName)])
    ensures Texts(doc.log, 24) == CaptionsFor(Questions, answers, |Questions|)
    ensures kundenName == "" ==> DrawnAbove(doc.log, 5, ListLimit + 14)
    ensures kundenName != "" ==>
      DrawnAbove(doc.log[..|doc.log| - 1], 5, ListLimit + 14) &&
      doc.log[|doc.log| - 1] == Entry(doc.pageCount, Text(20, 287, Footnote(kundenName)))
  {
    doc := Draw(Empty, Logo(20, 20 as real, 28));
    var y := 30;
    doc := Draw(doc, Text(60, y, content.title));
    y := y + 20;
    doc := Draw(doc, Text(60, y, content.text));
    y := y + 16;
    doc := Draw(doc, Text(60, y, content.hint));
    y := y + 20;
    doc := Draw(doc, Text(20, y, SectionTitle));
    y := y + 10;
    assert Cursor(doc, y) == Cursor(Doc(1, 1, RouteHeaderLog(content)), 96);
    doc, y := ListAnswers(doc, y, Questions, answers, ListLimit);
    assert doc == RouteListed(content, answers);
    RouteListedLayout(content, answers);
    if kundenName != "" {
      doc := SetPage(doc, doc.pageCount);
      doc := Draw(doc, Text(20, PageHeight - 10, Footnote(kundenName)));
    }
    ChancenblattDocFacts(content, answers, kundenName);
    fileName := "Chancenblatt-" + ergebnisTyp + ".pdf";
  }

  // ---------------------------------------------------------------------
  // The route

  /**
   * `POST`: the recommendations PDF for kind "empfehlungen", the Chancenblatt
   * for kind "chancenblatt", status 400 for any other kind.
   */
  method Post(body: Body, wrap: Wrap) returns (r: Response)
    ensures body.kind == "empfehlungen" ==>
      r == PdfResponse(EmpfehlungenDoc(body.name, body.empfehlungen, wrap), "Empfehlungen-" + body.name + ".pdf")
    ensures body.kind == "chancenblatt" ==>
      r == PdfResponse(ChancenblattDoc(body.content, body.answers, body.kundenName), "Chancenblatt-" + body.ergebnisTyp + ".pdf")
    ensures body.kind != "empfehlungen" && body.kind != "chancenblatt" ==> r == Rejected(400, "Invalid PDF type")
    ensures r.PdfFile? <==> body.kind == "empfehlungen" || body.kind == "chancenblatt"
  {
    if body.kind == "empfehlungen" {
      var doc := CreateEmpfehlungenPdf(body.name, body.empfehlungen, wrap);
      return PdfResponse(doc, "Empfehlungen-" + body.name + ".pdf");
    }
    if body.kind == "chancenblatt" {
      var doc, fileName := CreateChancenblattPdf(body.content, body.answers, body.kundenName, body.ergebnisTyp);
      return PdfResponse(doc, fileName);
    }
    return Rejected(400, "Invalid PDF type");
  }
}
