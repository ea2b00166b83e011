/**
 * The client-side Chancenblatt PDF: a header beside the logo, then every
 * question whose answer matches one of its options, numbered by its position
 * in the question table, then a fixed footer. The listing loop is shared with
 * the server-side PDF route, which only uses another page-break threshold.
 */
module ChancenblattExport {
  import opened Wrappers
  import opened Decimal
  import opened PdfDoc
  import opened ChancenblattQuestions
  import ChancenblattFlow

  /** The result text shown with the evaluation. */
  datatype Content = Content(title: string, text: string, hint: string)

  /** The `y` at which a new page continues after a page break. */
  const Restart := 30

  const SectionTitle := "Fragen & Antworten"
  const Footer := "Chancenblatt – persönliche Einschätzung"
  const FileName := "chancenblatt.pdf"

  function Max(a: int, b: int): int {
    if a >= b then a else b
  }

  /** `${index + 1}. ${q.text}`: the question numbered by its position in the table. */
  function QuestionHeading(index: nat, q: Question): string {
    IntToString(index + 1) + ". " + q.text
  }

  /** The numbered heading of `q` when the answers match one of its options. */
  function HeadingIfMatched(index: nat, q: Question, answers: map<string, string>): seq<string> {
    if MatchedOption(q, answers).Some? then [QuestionHeading(index, q)] else []
  }

  /** The caption of the option the answers choose for `q`, if any. */
  function CaptionIfMatched(q: Question, answers: map<string, string>): seq<string> {
    match MatchedOption(q, answers)
    case Some(opt) => [opt.caption]
    case None => []
  }

  /** One question block: a rule at `y`, the numbered question 6 below it and the chosen answer 8 further down. */
  function Block(d: Doc, y: int, heading: string, caption: string): Doc {
    Draw(Draw(Draw(d, Rule(20, y, 190)), Text(20, y + 6, heading)), Text(24, y + 14, caption))
  }

  /** What a block appends: three operations on the current page between `y` and `y + 14`, the rule first. */
  lemma BlockShape(d: Doc, y: int, heading: string, caption: string)
    ensures var b := Block(d, y, heading, caption);
      b.pageCount == d.pageCount && b.current == d.current &&
      |b.log| == |d.log| + 3 && b.log[..|d.log|] == d.log &&
      b.log[|d.log|] == Entry(d.current, Rule(20, y, 190)) &&
      (forall j :: |d.log| <= j < |b.log| ==> b.log[j].page == d.current && HasY(b.log[j].op) && y <= b.log[j].op.y <= y + 14)
  {
    var b := Block(d, y, heading, caption);
    assert b.log == d.log + [Entry(d.current, Rule(20, y, 190)), Entry(d.current, Text(20, y + 6, heading)), Entry(d.current, Text(24, y + 14, caption))];
  }

  /** A block writes the heading in column 20 and the answer in column 24. */
  lemma BlockTexts(d: Doc, y: int, heading: string, caption: string, x: int)
    ensures Texts(Block(d, y, heading, caption).log, x) == Texts(d.log, x) + (if x == 20 then [heading] else if x == 24 then [caption] else [])
  {
    var d1 := Draw(d, Rule(20, y, 190));
    var d2 := Draw(d1, Text(20, y + 6, heading));
    DrawTexts(d, Rule(20, y, 190), x);
    DrawTexts(d1, Text(20, y + 6, heading), x);
    DrawTexts(d2, Text(24, y + 14, caption), x);
  }

  /**
   * One round of the listing loop for question `q` at position `index`:
   * nothing for an unmatched question; otherwise a page break when `y` is past
   * `limit`, the question block, and the cursor 26 below the block's rule.
   */
  function ListOne(c: Cursor, index: nat, q: Question, answers: map<string, string>, limit: int): Cursor {
    match MatchedOption(q, answers)
    case None => c
    case Some(opt) =>
      var start := if c.y > limit then Cursor(AddPage(c.doc), Restart) else c;
      Cursor(Block(start.doc, start.y, QuestionHeading(index, q), opt.caption), start.y + 26)
  }

  /**
   * An unmatched question draws nothing; a matched one moves the cursor 26
   * below where its block starts, which is a fresh page at `Restart` exactly
   * when the cursor was past the limit.
   */
  lemma ListOneAdvance(c: Cursor, index: nat, q: Question, answers: map<string, string>, limit: int)
    ensures var r := ListOne(c, index, q, answers, limit);
      (MatchedOption(q, answers).None? ==> r == c) &&
      (MatchedOption(q, answers).Some? ==>
        r.y == (if c.y > limit then Restart else c.y) + 26 &&
        r.doc.pageCount == c.doc.pageCount + (if c.y > limit then 1 else 0))
  {
  }

  /** The listing loop over the first `n` questions of `qs`. */
  function ListAll(c: Cursor, qs: seq<Question>, answers: map<string, string>, limit: int, n: nat): Cursor
    requires n <= |qs|
  {
    if n == 0 then c else ListOne(ListAll(c, qs, answers, limit, n - 1), n - 1, qs[n - 1], answers, limit)
  }

  /** The numbered headings of the matched questions among the first `n`, in table order. */
  function HeadingsFor(qs: seq<Question>, answers: map<string, string>, n: nat): seq<string>
    requires n <= |qs|
  {
    if n == 0 then [] else HeadingsFor(qs, answers, n - 1) + HeadingIfMatched(n - 1, qs[n - 1], answers)
  }

  /** The captions of the chosen answers among the first `n` questions, in table order. */
  function CaptionsFor(qs: seq<Question>, answers: map<string, string>, n: nat): seq<string>
    requires n <= |qs|
  {
    if n == 0 then [] else CaptionsFor(qs, answers, n - 1) + CaptionIfMatched(qs[n - 1], answers)
  }

  /** The texts the listing adds to column `x`: the numbered questions at 20, their answers at 24, nothing elsewhere. */
  function ListedAt(qs: seq<Question>, answers: map<string, string>, n: nat, x: int): seq<string>
    requires n <= |qs|
  {
    if x == 20 then HeadingsFor(qs, answers, n)
    else if x == 24 then CaptionsFor(qs, answers, n)
    else []
  }

  /** The texts one round adds to column `x`. */
  function OneAt(index: nat, q: Question, answers: map<string, string>, x: int): seq<string> {
    if x == 20 then HeadingIfMatched(index, q, answers)
    else if x == 24 then CaptionIfMatched(q, answers)
    else []
  }

  /** One round only appends to the log. */
  lemma ListOneAppends(c: Cursor, index: nat, q: Question, answers: map<string, string>, limit: int)
    ensures var r := ListOne(c, index, q, answers, limit);
      |c.doc.log| <= |r.doc.log| && r.doc.log[..|c.doc.log|] == c.doc.log
  {
    match MatchedOption(q, answers)
    case None =>
    case Some(opt) =>
      var start := if c.y > limit then Cursor(AddPage(c.doc), Restart) else c;
      BlockShape(start.doc, start.y, QuestionHeading(index, q), opt.caption);
  }

  /** One round adds to column `x` what `OneAt` says. */
  lemma ListOneTexts(c: Cursor, index: nat, q: Question, answers: map<string, string>, limit: int, x: int)
    ensures Texts(ListOne(c, index, q, answers, limit).doc.log, x) == Texts(c.doc.log, x) + OneAt(index, q, answers, x)
  {
    match MatchedOption(q, answers)
    case None =>
    case Some(opt) =>
      var start := if c.y > limit then Cursor(AddPage(c.doc), Restart) else c;
      BlockTexts(start.doc, start.y, QuestionHeading(index, q), opt.caption, x);
  }

  /** The listed texts of the first `n` questions extend those of the first `n - 1` by what round `n` adds. */
  lemma ListedAtStep(qs: seq<Question>, answers: map<string, string>, n: nat, x: int)
    requires 0 < n <= |qs|
    ensures ListedAt(qs, answers, n, x) == ListedAt(qs, answers, n - 1, x) + OneAt(n - 1, qs[n - 1], answers, x)
  {
  }

  /**
   * The listing only appends to the document; what it appends shows, in the
   * question column, exactly the matched questions with their table numbers and,
   * in the answer column, their chosen answers, and nothing in any other column.
   */
  lemma {:induction false} ListAllTexts(c: Cursor, qs: seq<Question>, answers: map<string, string>, limit: int, n: nat, x: int)
    requires n <= |qs|
    ensures Texts(ListAll(c, qs, answers, limit, n).doc.log, x) == Texts(c.doc.log, x) + ListedAt(qs, answers, n, x)
  {
    if n > 0 {
      ListAllTexts(c, qs, answers, limit, n - 1, x);
      ListAllTextsStep(c, ListAll(c, qs, answers, limit, n - 1), qs, answers, limit, n, x);
    }
  }

  /** The induction step of `ListAllTexts`: round `n` extends the listed texts of the rounds before. */
  lemma ListAllTextsStep(c: Cursor, r0: Cursor, qs: seq<Question>, answers: map<string, string>, limit: int, n: nat, x: int)
    requires 0 < n <= |qs|
    requires Texts(r0.doc.log, x) == Texts(c.doc.log, x) + ListedAt(qs, answers, n - 1, x)
    ensures Texts(ListOne(r0, n - 1, qs[n - 1], answers, limit).doc.log, x) == Texts(c.doc.log, x) + ListedAt(qs, answers, n, x)
  {
    ListOneTexts(r0, n - 1, qs[n - 1], answers, limit, x);
    ListedAtStep(qs, answers, n, x);
    Chain(Texts(ListOne(r0, n - 1, qs[n - 1], answers, limit).doc.log, x), Texts(r0.doc.log, x), Texts(c.doc.log, x),
      ListedAt(qs, answers, n - 1, x), OneAt(n - 1, qs[n - 1], answers, x), ListedAt(qs, answers, n, x));
  }

  /** The listing only appends; when it appends nothing, no question matched and the cursor is left alone. */
  lemma {:induction false} ListAllAppends(c: Cursor, qs: seq<Question>, answers: map<string, string>, limit: int, n: nat)
    requires n <= |qs|
    ensures var r := ListAll(c, qs, answers, limit, n);
      |c.doc.log| <= |r.doc.log| && r.doc.log[..|c.doc.log|] == c.doc.log &&
      (|r.doc.log| == |c.doc.log| ==> r == c)
  {
    if n > 0 {
      ListAllAppends(c, qs, answers, limit, n - 1);
      var r0 := ListAll(c, qs, answers, limit, n - 1);
      ListOneAppends(r0, n - 1, qs[n - 1], answers, limit);
      var r := ListAll(c, qs, answers, limit, n);
      assert r.doc.log[..|c.doc.log|] == r.doc.log[..|r0.doc.log|][..|c.doc.log|];
    }
  }

  /** One round keeps the document valid with its last page current, adds a page only for a matched question, and draws between the restart position and 14 below the limit. */
  lemma ListOneBounds(c: Cursor, index: nat, q: Question, answers: map<string, string>, limit: int)
    requires Restart <= limit
    requires Valid(c.doc) && c.doc.current == c.doc.pageCount
    ensures var r := ListOne(c, index, q, answers, limit);
      |c.doc.log| <= |r.doc.log| && r.doc.log[..|c.doc.log|] == c.doc.log &&
      DrawnAbove(r.doc.log, |c.doc.log|, limit + 14) &&
      c.doc.pageCount <= r.doc.pageCount <= c.doc.pageCount + (if MatchedOption(q, answers).Some? then 1 else 0) &&
      Valid(r.doc) && r.doc.current == r.doc.pageCount
  {
    match MatchedOption(q, answers)
    case None =>
    case Some(opt) =>
      var start := if c.y > limit then Cursor(AddPage(c.doc), Restart) else c;
      BlockShape(start.doc, start.y, QuestionHeading(index, q), opt.caption);
  }

  /**
   * With a limit no lower than the restart position, every rule and text the
   * listing draws lies at most 14 below the limit; it adds at most one page per
   * matched question, and the last page stays current.
   */
  lemma {:induction false} ListAllBounds(c: Cursor, qs: seq<Question>, answers: map<string, string>, limit: int, n: nat)
    requires n <= |qs|
    requires Restart <= limit
    requires Valid(c.doc) && c.doc.current == c.doc.pageCount
    ensures var r := ListAll(c, qs, answers, limit, n);
      DrawnAbove(r.doc.log, |c.doc.log|, limit + 14) &&
      c.doc.pageCount <= r.doc.pageCount <= c.doc.pageCount + ChancenblattFlow.Matched(qs[..n], answers) &&
      Valid(r.doc) && r.doc.current == r.doc.pageCount
  {
    if n > 0 {
      ListAllBounds(c, qs, answers, limit, n - 1);
      ListAllAppends(c, qs, answers, limit, n - 1);
      var r0 := ListAll(c, qs, answers, limit, n - 1);
      ListOneBounds(r0, n - 1, qs[n - 1], answers, limit);
      var r := ListAll(c, qs, answers, limit, n);
      DrawnAboveJoin(r0.doc.log, r.doc.log, |c.doc.log|, limit + 14);
      assert qs[..n][..n - 1] == qs[..n - 1];
      assert ChancenblattFlow.Matched(qs[..n], answers) ==
        ChancenblattFlow.Matched(qs[..n - 1], answers) + (if MatchedOption(qs[n - 1], answers).Some? then 1 else 0);
    }
  }

  /** When something is listed and the cursor starts above the limit, the first thing drawn is the rule at the cursor. */
  lemma {:induction false} ListAllStart(c: Cursor, qs: seq<Question>, answers: map<string, string>, limit: int, n: nat)
    requires n <= |qs|
    requires c.y <= limit
    ensures var r := ListAll(c, qs, answers, limit, n);
      |r.doc.log| > |c.doc.log| ==> r.doc.log[|c.doc.log|] == Entry(c.doc.current, Rule(20, c.y, 190))
  {
    if n > 0 {
      ListAllStart(c, qs, answers, limit, n - 1);
      ListAllAppends(c, qs, answers, limit, n - 1);
      var r0 := ListAll(c, qs, answers, limit, n - 1);
      ListOneAppends(r0, n - 1, qs[n - 1], answers, limit);
      var r := ListAll(c, qs, answers, limit, n);
      if |r0.doc.log| > |c.doc.log| {
        assert r.doc.log[|c.doc.log|] == r.doc.log[..|r0.doc.log|][|c.doc.log|];
      }
    }
  }

  /** The listing loop as the export writes it, over a question table `qs`. */
  method ListAnswers(doc: Doc, y: int, qs: seq<Question>, answers: map<string, string>, limit: int) returns (doc': Doc, y': int)
    ensures Cursor(doc', y') == ListAll(Cursor(doc, y), qs, answers, limit, |qs|)
  {
    doc', y' := doc, y;
    var i := 0;
    while i < |qs|
      invariant 0 <= i <= |qs|
      invariant Cursor(doc', y') == ListAll(Cursor(doc, y), qs, answers, limit, i)
    {
      var q := qs[i];
      var opt := MatchedOption(q, answers);
      if opt.Some? {
        if y' > limit {
          doc' := AddPage(doc');
          y' := Restart;
        }
        ghost var top := doc';
        doc' := Draw(doc', Rule(20, y', 190));
        y' := y' + 6;
        doc' := Draw(doc', Text(20, y', QuestionHeading(i, q)));
        y' := y' + 8;
        doc' := Draw(doc', Text(24, y', opt.value.caption));
        y' := y' + 12;
        assert doc' == Block(top, y' - 26, QuestionHeading(i, q), opt.value.caption);
      }
      i := i + 1;
    }
  }

  /** Where the section title goes: 20 below the lower of the logo and the header text. */
  function SectionY(logoHeight: nat): int {
    Max(20 + logoHeight, 62) + 20
  }

  /** The first question is listed 10 below the section title. */
  function ListStartY(logoHeight: nat): int {
    SectionY(logoHeight) + 10
  }

  /** The five header operations: the logo, title, text and hint beside it, and the section title. */
  function HeaderLog(content: Content, logoHeight: nat): seq<Entry> {
    [Entry(1, Logo(20, 20 as real, 28)),
     Entry(1, Text(58, 26, content.title)),
     Entry(1, Text(58, 46, content.text)),
     Entry(1, Text(58, 62, content.hint)),
     Entry(1, Text(20, SectionY(logoHeight), SectionTitle))]
  }

  /** The header writes the result text in the column beside the logo and only the section title in the question column. */
  lemma HeaderTexts(content: Content, logoHeight: nat, x: int)
    ensures Texts(HeaderLog(content, logoHeight), x) ==
      (if x == 58 then [content.title, content.text, content.hint] else []) + (if x == 20 then [SectionTitle] else [])
  {
    FiveTexts(HeaderLog(content, logoHeight), x);
  }

  /** The document and cursor where the listing starts: the header on page 1, 10 below the section title. */
  function ListingStart(content: Content, logoHeight: nat): Cursor {
    Cursor(Doc(1, 1, HeaderLog(content, logoHeight)), ListStartY(logoHeight))
  }

  /** The document once every question of the table has been listed. */
  function Listed(content: Content, answers: map<string, string>, logoHeight: nat): Doc {
    ListAll(ListingStart(content, logoHeight), Questions, answers, 260, |Questions|).doc
  }

  /** Column `x` of the listed document: what the header wrote there, then what the listing wrote there. */
  lemma ListedTextsAt(content: Content, answers: map<string, string>, logoHeight: nat, x: int)
    ensures Texts(Listed(content, answers, logoHeight).log, x) ==
      (if x == 58 then [content.title, content.text, content.hint] else []) + (if x == 20 then [SectionTitle] else []) +
      ListedAt(Questions, answers, |Questions|, x)
  {
    ListAllTexts(ListingStart(content, logoHeight), Questions, answers, 260, |Questions|, x);
    HeaderTexts(content, logoHeight, x);
  }

  /** The three text columns of the listed document. */
  lemma ListedTexts(content: Content, answers: map<string, string>, logoHeight: nat)
    ensures Texts(Listed(content, answers, logoHeight).log, 58) == [content.title, content.text, content.hint]
    ensures Texts(Listed(content, answers, logoHeight).log, 20) == [SectionTitle] + HeadingsFor(Questions, answers, |Questions|)
    ensures Texts(Listed(content, answers, logoHeight).log, 24) == CaptionsFor(Questions, answers, |Questions|)
  {
    ListedTextsAt(content, answers, logoHeight, 58);
    ListedTextsAt(content, answers, logoHeight, 20);
    ListedTextsAt(content, answers, logoHeight, 24);
    assert [content.title, content.text, content.hint] + [] + [] == [content.title, content.text, content.hint];
    assert [] + [SectionTitle] + HeadingsFor(Questions, answers, |Questions|) == [SectionTitle] + HeadingsFor(Questions, answers, |Questions|);
    assert [] + [] + CaptionsFor(Questions, answers, |Questions|) == CaptionsFor(Questions, answers, |Questions|);
  }

  /** The listed document keeps the header, is valid with its last page current, and places everything it lists. */
  lemma ListedLayout(content: Content, answers: map<string, string>, logoHeight: nat)
    ensures var listed := Listed(content, answers, logoHeight);
      Valid(listed) && listed.current == listed.pageCount &&
      |listed.log| >= 5 && listed.log[..5] == HeaderLog(content, logoHeight) &&
      DrawnAbove(listed.log, 5, 274) &&
      (HeadingsFor(Questions, answers, |Questions|) != [] && ListStartY(logoHeight) <= 260 ==>
        |listed.log| > 5 && listed.log[5] == Entry(1, Rule(20, ListStartY(logoHeight), 190)))
  {
    var start := ListingStart(content, logoHeight);
    var listed := Listed(content, answers, logoHeight);
    ListAllAppends(start, Questions, answers, 260, |Questions|);
    ListAllBounds(start, Questions, answers, 260, |Questions|);
    if HeadingsFor(Questions, answers, |Questions|) != [] && ListStartY(logoHeight) <= 260 {
      ListAllStart(start, Questions, answers, 260, |Questions|);
      ListedTexts(content, answers, logoHeight);
      HeaderTexts(content, logoHeight, 20);
    }
  }

  /**
   * `exportChancenblattPDF`: the header beside a 28 mm wide logo of height
   * `logoHeight`, the section title, the listing from 10 below it with page
   * breaks past 260, and the footer on the last page. The result type the page
   * passes in is not used by the export.
   */
  method ExportChancenblattPdf(kind: ResultType, content: Content, answers: map<string, string>, logoHeight: nat)
    returns (doc: Doc, fileName: string)
    ensures fileName == FileName
    ensures Valid(doc) && |doc.log| >= 6
    ensures Texts(doc.log, 58) == [content.title, content.text, content.hint]
    ensures Texts(doc.log, 20) == [SectionTitle] + HeadingsFor(Questions, answers, |Questions|) + [Footer]
    ensures Texts(doc.log, 24) == CaptionsFor(Questions, answers, |Questions|)
    ensures doc.log[4] == Entry(1, Text(20, SectionY(logoHeight), SectionTitle))
    ensures HeadingsFor(Questions, answers, |Questions|) != [] && ListStartY(logoHeight) <= 260 ==>
      doc.log[5] == Entry(1, Rule(20, ListStartY(logoHeight), 190))
    ensures DrawnAbove(doc.log[..|doc.log| - 1], 5, 274)
    ensures doc.log[|doc.log| - 1] == Entry(doc.pageCount, Text(20, 285, Footer))
  {
    doc := Draw(Empty, Logo(20, 20 as real, 28));
    var y := 20;
    doc := Draw(doc, Text(58, y + 6, content.title));
    y := y + 26;
    doc := Draw(doc, Text(58, y, content.text));
    y := y + 16;
    doc := Draw(doc, Text(58, y, content.hint));
    y := Max(20 + logoHeight, y) + 20;
    doc := Draw(doc, Text(20, y, SectionTitle));
    y := y + 10;
    assert Cursor(doc, y) == ListingStart(content, logoHeight);
    doc, y := ListAnswers(doc, y, Questions, answers, 260);
    doc := Draw(doc, Text(20, 285, Footer));
    FooterFacts(content, answers, logoHeight);
    fileName := FileName;
  }

  /** The finished document: the listed document with the footer on its last page. */
  lemma FooterFacts(content: Content, answers: map<string, string>, logoHeight: nat)
    ensures var doc := Draw(Listed(content, answers, logoHeight), Text(20, 285, Footer));
      Valid(doc) && |doc.log| >= 6 &&
      Texts(doc.log, 58) == [content.title, content.text, content.hint] &&
      Texts(doc.log, 20) == [SectionTitle] + HeadingsFor(Questions, answers, |Questions|) + [Footer] &&
      Texts(doc.log, 24) == CaptionsFor(Questions, answers, |Questions|) &&
      doc.log[4] == Entry(1, Text(20, SectionY(logoHeight), SectionTitle)) &&
      (HeadingsFor(Questions, answers, |Questions|) != [] && ListStartY(logoHeight) <= 260 ==>
        doc.log[5] == Entry(1, Rule(20, ListStartY(logoHeight), 190))) &&
      DrawnAbove(doc.log[..|doc.log| - 1], 5, 274) &&
      doc.log[|doc.log| - 1] == Entry(doc.pageCount, Text(20, 285, Footer))
  {
    var listed := Listed(content, answers, logoHeight);
    ListedTexts(content, answers, logoHeight);
    ListedLayout(content, answers, logoHeight);
    var doc := Draw(listed, Text(20, 285, Footer));
    DrawTexts(listed, Text(20, 285, Footer), 20);
    DrawTexts(listed, Text(20, 285, Footer), 24);
    DrawTexts(listed, Text(20, 285, Footer), 58);
    assert doc.log[..|doc.log| - 1] == listed.log;
    assert doc.log[4] == listed.log[..5][4];
    if HeadingsFor(Questions, answers, |Questions|) != [] && ListStartY(logoHeight) <= 260 {
      assert doc.log[5] == listed.log[5];
    }
  }
}
