/**
 * A PDF document as jsPDF builds it, reduced to what the layout code decides:
 * how many pages there are, which page is current, and the drawing operations
 * in the order they were issued, each tagged with the page it landed on.
 * Fonts, colours and line widths are not recorded; coordinates are in
 * millimetres.
 */
module PdfDoc {

  datatype Op =
    | Logo(x: int, top: real, width: int)         // addImage of the logo
    | Text(x: int, y: int, text: string)          // text(s, x, y)
    | TextBlock(x: int, y: int, lines: seq<string>)  // text([...lines], x, y)
    | Rule(x1: int, y: int, x2: int)               // line(x1, y, x2, y)

  datatype Entry = Entry(page: nat, op: Op)

  datatype Doc = Doc(pageCount: nat, current: nat, log: seq<Entry>)

  /** Where the drawing continues: the document so far and the `y` cursor. */
  datatype Cursor = Cursor(doc: Doc, y: int)

  /** `new jsPDF(...)`: one empty page, which is current. */
  const Empty := Doc(1, 1, [])

  /** The current page exists and every operation sits on an existing page. */
  predicate Valid(d: Doc) {
    1 <= d.current <= d.pageCount && forall j :: 0 <= j < |d.log| ==> 1 <= d.log[j].page <= d.pageCount
  }

  /** `addPage()`: a new last page, which becomes current. */
  function AddPage(d: Doc): (r: Doc)
    ensures Valid(d) ==> Valid(r) && r.current == r.pageCount
  {
    Doc(d.pageCount + 1, d.pageCount + 1, d.log)
  }

  /** `setPage(n)`. */
  function SetPage(d: Doc, n: nat): (r: Doc)
    requires 1 <= n <= d.pageCount
    ensures Valid(d) ==> Valid(r)
  {
    d.(current := n)
  }

  /** The texts written with their left edge at `x`, in the order they were written. */
  function Texts(log: seq<Entry>, x: int): seq<string> {
    if log == [] then []
    else Texts(log[..|log| - 1], x) + TextAt(log[|log| - 1].op, x)
  }

  /** The text an operation writes with its left edge at `x`, if any. */
  function TextAt(op: Op, x: int): seq<string> {
    if op.Text? && op.x == x then [op.text] else []
  }

  /** Draws one operation on the current page. */
  function Draw(d: Doc, op: Op): (r: Doc)
    ensures Valid(d) ==> Valid(r)
    ensures r.pageCount == d.pageCount && r.current == d.current
    ensures r.log == d.log + [Entry(d.current, op)]
  {
    d.(log := d.log + [Entry(d.current, op)])
  }

  /** What an operation writes is added at the end of its column. */
  lemma DrawTexts(d: Doc, op: Op, x: int)
    ensures Texts(Draw(d, op).log, x) == Texts(d.log, x) + TextAt(op, x)
  {
    TextsSnoc(d.log, Entry(d.current, op), x);
  }

  lemma TextsSnoc(log: seq<Entry>, e: Entry, x: int)
    ensures Texts(log + [e], x) == Texts(log, x) + TextAt(e.op, x)
  {
    assert (log + [e])[..|log + [e]| - 1] == log;
  }

  /** Reading the texts of two parts of a log one after the other. */
  lemma {:induction false} TextsAppend(a: seq<Entry>, b: seq<Entry>, x: int)
    ensures Texts(a + b, x) == Texts(a, x) + Texts(b, x)
    decreases |b|
  {
    if b != [] {
      assert (a + b)[..|a + b| - 1] == a + b[..|b| - 1];
      TextsAppend(a, b[..|b| - 1], x);
    } else {
      assert a + b == a;
    }
  }

  /** Whether an operation is placed at a `y` on the page. */
  predicate HasY(op: Op) {
    op.Text? || op.TextBlock? || op.Rule?
  }

  /** Every operation from position `from` on is placed at `bottom` or higher up the page (a smaller `y` is higher). */
  predicate DrawnAbove(log: seq<Entry>, from: nat, bottom: int) {
    forall j :: from <= j < |log| && HasY(log[j].op) ==> log[j].op.y <= bottom
  }

  /** Placement facts about a log and about what is appended to it combine. */
  lemma DrawnAboveJoin(a: seq<Entry>, b: seq<Entry>, from: nat, bottom: int)
    requires from <= |a| <= |b| && b[..|a|] == a
    requires DrawnAbove(a, from, bottom) && DrawnAbove(b, |a|, bottom)
    ensures DrawnAbove(b, from, bottom)
  {
    forall j | from <= j < |a| ensures b[j] == a[j] {
      assert b[j] == b[..|a|][j];
    }
  }

  /** The texts of a five-operation log, column by column. */
  lemma FiveTexts(h: seq<Entry>, x: int)
    requires |h| == 5
    ensures Texts(h, x) == TextAt(h[0].op, x) + TextAt(h[1].op, x) + TextAt(h[2].op, x) + TextAt(h[3].op, x) + TextAt(h[4].op, x)
  {
    assert h == h[..4] + [h[4]];
    TextsSnoc(h[..4], h[4], x);
    assert h[..4] == h[..3] + [h[3]];
    TextsSnoc(h[..3], h[3], x);
    assert h[..3] == h[..2] + [h[2]];
    TextsSnoc(h[..2], h[2], x);
    assert h[..2] == [h[0]] + [h[1]];
    TextsSnoc([h[0]], h[1], x);
    TextsSnoc([], h[0], x);
    assert [] + [h[0]] == [h[0]];
  }

  /** A column that grew by `o` after holding `a + b` holds `a` followed by `b + o`. */
  lemma Chain<T>(whole: seq<T>, prev: seq<T>, a: seq<T>, b: seq<T>, o: seq<T>, l: seq<T>)
    requires whole == prev + o && prev == a + b && l == b + o
    ensures whole == a + l
  {
  }

  /** Regrouping a concatenation of three parts. */
  lemma Regroup<T>(a: seq<T>, b: seq<T>, o: seq<T>)
    ensures (a + b) + o == a + (b + o)
  {
  }
}
