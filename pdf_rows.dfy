/**
 * Labelled rows, as the PDF route and both client-side exports write a
 * person's fields: a row shows `key:` at x = 20 and the value at x = 55 on the
 * cursor's line and moves the cursor down, and an empty value shows nothing.
 */
module PdfRows {
  import opened PdfDoc

  /** One labelled row. */
  function Row(c: Cursor, key: string, value: string, step: int): Cursor {
    if value == "" then c
    else Cursor(Draw(Draw(c.doc, Text(20, c.y, key + ":")), Text(55, c.y, value)), c.y + step)
  }

  /** What a row adds to column `x`: the label at 20 and the value at 55, or nothing for an empty value. */
  function RowText(key: string, value: string, x: int): seq<string> {
    if value == "" then []
    else if x == 20 then [key + ":"]
    else if x == 55 then [value]
    else []
  }

  /** A row appends its label and value on the current page at the cursor's line, or nothing for an empty value. */
  lemma RowShape(c: Cursor, key: string, value: string, step: int)
    ensures var r := Row(c, key, value, step);
      r.doc.pageCount == c.doc.pageCount && r.doc.current == c.doc.current &&
      |r.doc.log| == |c.doc.log| + (if value == "" then 0 else 2) && r.doc.log[..|c.doc.log|] == c.doc.log &&
      (value != "" ==> r.doc.log[|c.doc.log|] == Entry(c.doc.current, Text(20, c.y, key + ":")) &&
                       r.doc.log[|c.doc.log| + 1] == Entry(c.doc.current, Text(55, c.y, value))) &&
      r.y == c.y + (if value == "" then 0 else step)
  {
  }

  /** A row adds its label to the label column and its value to the value column. */
  lemma RowTexts(c: Cursor, key: string, value: string, step: int, x: int)
    ensures Texts(Row(c, key, value, step).doc.log, x) == Texts(c.doc.log, x) + RowText(key, value, x)
  {
    if value != "" {
      var d := Draw(c.doc, Text(20, c.y, key + ":"));
      DrawTexts(c.doc, Text(20, c.y, key + ":"), x);
      DrawTexts(d, Text(55, c.y, value), x);
    }
  }

  /** The rows for `fields`, pairs of a key and a value, drawn in order with the same step. */
  function Rows(c: Cursor, fields: seq<(string, string)>, step: int): Cursor
    decreases |fields|
  {
    if fields == [] then c
    else
      var last := fields[|fields| - 1];
      Row(Rows(c, fields[..|fields| - 1], step), last.0, last.1, step)
  }

  /** What the rows add to column `x`, in order. */
  function RowsText(fields: seq<(string, string)>, x: int): seq<string>
    decreases |fields|
  {
    if fields == [] then []
    else
      var last := fields[|fields| - 1];
      RowsText(fields[..|fields| - 1], x) + RowText(last.0, last.1, x)
  }

  /** How many of the fields have a non-empty value. */
  function Shown(fields: seq<(string, string)>): nat
    decreases |fields|
  {
    if fields == [] then 0
    else Shown(fields[..|fields| - 1]) + (if fields[|fields| - 1].1 == "" then 0 else 1)
  }

  /** The rows only append, on the current page, and move the cursor one step per shown field. */
  lemma {:induction false} RowsFacts(c: Cursor, fields: seq<(string, string)>, step: int)
    ensures var r := Rows(c, fields, step);
      r.doc.pageCount == c.doc.pageCount && r.doc.current == c.doc.current &&
      |c.doc.log| <= |r.doc.log| && r.doc.log[..|c.doc.log|] == c.doc.log &&
      r.y == c.y + step * Shown(fields)
    decreases |fields|
  {
    if fields != [] {
      var init, last := fields[..|fields| - 1], fields[|fields| - 1];
      var r0 := Rows(c, init, step);
      RowsFacts(c, init, step);
      RowShape(r0, last.0, last.1, step);
      var r := Rows(c, fields, step);
      assert r.doc.log[..|c.doc.log|] == r.doc.log[..|r0.doc.log|][..|c.doc.log|];
      var k := if last.1 == "" then 0 else 1;
      assert step * (Shown(init) + k) == step * Shown(init) + step * k;
    }
  }

  /** Column `x` gains what `RowsText` says. */
  lemma {:induction false} RowsTexts(c: Cursor, fields: seq<(string, string)>, step: int, x: int)
    ensures Texts(Rows(c, fields, step).doc.log, x) == Texts(c.doc.log, x) + RowsText(fields, x)
    decreases |fields|
  {
    if fields != [] {
      var init, last := fields[..|fields| - 1], fields[|fields| - 1];
      var r0 := Rows(c, init, step);
      RowsTexts(c, init, step, x);
      RowTexts(r0, last.0, last.1, step, x);
      Chain(Texts(Rows(c, fields, step).doc.log, x), Texts(r0.doc.log, x), Texts(c.doc.log, x),
        RowsText(init, x), RowText(last.0, last.1, x), RowsText(fields, x));
    }
  }

  /** When the first field has a value, the first thing drawn is its label at the cursor. */
  lemma {:induction false} RowsFirst(c: Cursor, fields: seq<(string, string)>, step: int)
    requires fields != [] && fields[0].1 != ""
    ensures var r := Rows(c, fields, step);
      |r.doc.log| > |c.doc.log| && r.doc.log[|c.doc.log|] == Entry(c.doc.current, Text(20, c.y, fields[0].0 + ":"))
    decreases |fields|
  {
    var init, last := fields[..|fields| - 1], fields[|fields| - 1];
    var r0 := Rows(c, init, step);
    RowShape(r0, last.0, last.1, step);
    if |fields| == 1 {
      assert init == [];
    } else {
      assert init[0] == fields[0];
      RowsFirst(c, init, step);
      var r := Rows(c, fields, step);
      assert r.doc.log[|c.doc.log|] == r.doc.log[..|r0.doc.log|][|c.doc.log|];
    }
  }

  /** A label appears in the label column exactly when some field with that key has a value. */
  lemma {:induction false} RowsLabels(fields: seq<(string, string)>, key: string)
    ensures key + ":" in RowsText(fields, 20) <==> exists i :: 0 <= i < |fields| && fields[i].0 == key && fields[i].1 != ""
    decreases |fields|
  {
    if fields != [] {
      var init, last := fields[..|fields| - 1], fields[|fields| - 1];
      RowsLabels(init, key);
      assert RowsText(fields, 20) == RowsText(init, 20) + RowText(last.0, last.1, 20);
      assert last.0 + ":" == key + ":" ==> last.0 == key by {
        if last.0 + ":" == key + ":" {
          assert last.0 == (last.0 + ":")[..|last.0|];
        }
      }
      if exists i :: 0 <= i < |fields| && fields[i].0 == key && fields[i].1 != "" {
        var i :| 0 <= i < |fields| && fields[i].0 == key && fields[i].1 != "";
        if i < |init| {
          assert init[i] == fields[i];
        }
      }
      forall i | 0 <= i < |init| ensures init[i] == fields[i] { }
    }
  }

  /** The value column holds exactly the non-empty values, and both columns gain one text per shown field. */
  lemma {:induction false} RowsValues(fields: seq<(string, string)>, value: string)
    ensures |RowsText(fields, 20)| == Shown(fields) && |RowsText(fields, 55)| == Shown(fields)
    ensures value in RowsText(fields, 55) <==> value != "" && exists i :: 0 <= i < |fields| && fields[i].1 == value
    decreases |fields|
  {
    if fields != [] {
      var init, last := fields[..|fields| - 1], fields[|fields| - 1];
      RowsValues(init, value);
      assert RowsText(fields, 55) == RowsText(init, 55) + RowText(last.0, last.1, 55);
      if exists i :: 0 <= i < |fields| && fields[i].1 == value {
        var i :| 0 <= i < |fields| && fields[i].1 == value;
        if i < |init| {
          assert init[i] == fields[i];
        }
      }
      forall i | 0 <= i < |init| ensures init[i] == fields[i] { }
    }
  }

  /** The texts of the first `k` rows come first in a column. */
  lemma {:induction false} RowsPrefixText(fields: seq<(string, string)>, k: nat, x: int)
    requires k <= |fields|
    ensures |RowsText(fields[..k], x)| <= |RowsText(fields, x)|
    ensures RowsText(fields, x)[..|RowsText(fields[..k], x)|] == RowsText(fields[..k], x)
    decreases |fields|
  {
    if k < |fields| {
      var init := fields[..|fields| - 1];
      assert init[..k] == fields[..k];
      RowsPrefixText(init, k, x);
      var last := fields[|fields| - 1];
      assert RowsText(fields, x) == RowsText(init, x) + RowText(last.0, last.1, x);
    } else {
      assert fields[..k] == fields;
    }
  }

  /** Rows write nothing outside the label and value columns. */
  lemma {:induction false} RowsElsewhere(fields: seq<(string, string)>, x: int)
    requires x != 20 && x != 55
    ensures RowsText(fields, x) == []
    decreases |fields|
  {
    if fields != [] {
      RowsElsewhere(fields[..|fields| - 1], x);
    }
  }

  /** Rows keep a document valid. */
  lemma {:induction false} RowsValid(c: Cursor, fields: seq<(string, string)>, step: int)
    requires Valid(c.doc)
    ensures Valid(Rows(c, fields, step).doc)
    decreases |fields|
  {
    if fields != [] {
      RowsValid(c, fields[..|fields| - 1], step);
    }
  }

  /** At most every field is shown. */
  lemma {:induction false} ShownBound(fields: seq<(string, string)>)
    ensures Shown(fields) <= |fields|
    decreases |fields|
  {
    if fields != [] {
      ShownBound(fields[..|fields| - 1]);
    }
  }

  /** Every entry from position `from` on is a text on page `page`. */
  predicate TextsOn(log: seq<Entry>, from: nat, page: nat) {
    forall j :: from <= j < |log| ==> log[j].page == page && log[j].op.Text?
  }

  /** Rows append only texts, on the current page, each on a line at least one step above where the cursor ends. */
  lemma {:induction false} RowsPlaced(c: Cursor, fields: seq<(string, string)>, step: int)
    requires step > 0
    ensures var r := Rows(c, fields, step);
      TextsOn(r.doc.log, |c.doc.log|, c.doc.current) && DrawnAbove(r.doc.log, |c.doc.log|, r.y - step)
    decreases |fields|
  {
    if fields != [] {
      var init, last := fields[..|fields| - 1], fields[|fields| - 1];
      var r0 := Rows(c, init, step);
      RowsPlaced(c, init, step);
      RowsFacts(c, init, step);
      RowShape(r0, last.0, last.1, step);
      var r := Rows(c, fields, step);
      assert r == Row(r0, last.0, last.1, step);
      forall j | |c.doc.log| <= j < |r0.doc.log|
        ensures r.doc.log[j] == r0.doc.log[j]
      {
        assert r.doc.log[j] == r.doc.log[..|r0.doc.log|][j];
      }
    }
  }

  /**
   * A remark, when there is one: the label `Bemerkung:` at 20 and the
   * remark's wrapped lines as one block at 55, both on the cursor's line; the
   * cursor moves 5 per line.
   */
  function Remark(c: Cursor, remark: string, lines: seq<string>): Cursor {
    if remark == "" then c
    else Cursor(Draw(Draw(c.doc, Text(20, c.y, "Bemerkung:")), TextBlock(55, c.y, lines)), c.y + |lines| * 5)
  }

  /** The remark only appends, on the current page, and moves the cursor 5 per line. */
  lemma RemarkShape(c: Cursor, remark: string, lines: seq<string>)
    ensures var r := Remark(c, remark, lines);
      r.doc.pageCount == c.doc.pageCount && r.doc.current == c.doc.current &&
      |c.doc.log| <= |r.doc.log| && r.doc.log[..|c.doc.log|] == c.doc.log &&
      r.y == c.y + (if remark == "" then 0 else |lines| * 5) &&
      (Valid(c.doc) ==> Valid(r.doc))
  {
  }

  /** The remark adds its label to the label column and no text elsewhere. */
  lemma RemarkTexts(c: Cursor, remark: string, lines: seq<string>, x: int)
    ensures Texts(Remark(c, remark, lines).doc.log, x) == Texts(c.doc.log, x) + (if remark != "" && x == 20 then ["Bemerkung:"] else [])
  {
    if remark != "" {
      var d := Draw(c.doc, Text(20, c.y, "Bemerkung:"));
      DrawTexts(c.doc, Text(20, c.y, "Bemerkung:"), x);
      DrawTexts(d, TextBlock(55, c.y, lines), x);
    }
  }
}
