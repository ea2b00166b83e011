/**
 * The contact form ("Kontaktbogen"): twelve rows of recommended contacts
 * shown six at a time, edited field by field, and exported through the PDF
 * route as the rows whose name is filled in, under the name of the person
 * who gave the recommendations.
 */
module Kontaktbogen {
  import opened Contacts
  import opened Decimal
  import opened SeqFilter
  import opened PresentationMode
  import PdfRoute
  import ChancenblattExport

  /** The form starts with twelve empty rows. */
  const InitialPersons: seq<Person> := seq(12, _ => Blank)

  /** Nothing is filled in at the start, so there is nothing to export. */
  lemma InitialAllBlank()
    ensures |InitialPersons| == 12
    ensures forall i, f :: 0 <= i < 12 ==> Get(InitialPersons[i], f) == ""
    ensures ExportList(InitialPersons) == []
  {
    forall p | p in InitialPersons ensures !HasName(p) {
      assert p == Blank;
    }
    FilterNone(HasName, InitialPersons);
  }

  /** `updateField(index, field)`: row `index` gets `value` in `field`; everything else stays. */
  function UpdateField(ps: seq<Person>, index: nat, f: Field, value: string): (qs: seq<Person>)
    requires index < |ps|
    ensures |qs| == |ps|
    ensures Get(qs[index], f) == value
    ensures forall g :: g != f ==> Get(qs[index], g) == Get(ps[index], g)
    ensures forall j :: 0 <= j < |ps| && j != index ==> qs[j] == ps[j]
  {
    ps[index := With(ps[index], f, value)]
  }

  /** The two pages of the form. */
  type PageNumber = p: int | p == 1 || p == 2 witness 1

  /** The first row a page shows; it is also the offset the form adds to a row's position. */
  function StartIndex(page: PageNumber): nat {
    if page == 1 then 0 else 6
  }

  /** `personen.slice(startIndex, startIndex + 6)`: at most six rows from the page's first one. */
  function ShownRows(ps: seq<Person>, page: PageNumber): (r: seq<Person>)
    ensures |r| <= 6
    ensures |ps| >= StartIndex(page) + 6 ==> |r| == 6
    ensures forall k :: 0 <= k < |r| ==> StartIndex(page) + k < |ps| && r[k] == ps[StartIndex(page) + k]
  {
    var lo := if StartIndex(page) < |ps| then StartIndex(page) else |ps|;
    var hi := if StartIndex(page) + 6 < |ps| then StartIndex(page) + 6 else |ps|;
    ps[lo..hi]
  }

  /** With twelve rows, the two pages show all of them once: the first six, then the last six. */
  lemma PagesPartition(ps: seq<Person>)
    requires |ps| == 12
    ensures ShownRows(ps, 1) + ShownRows(ps, 2) == ps
    ensures |ShownRows(ps, 1)| == 6 && |ShownRows(ps, 2)| == 6
  {
    assert ps[0..6] + ps[6..12] == ps;
  }

  /** Editing the row the form shows at position `k` changes exactly that shown row. */
  lemma EditShownRow(ps: seq<Person>, page: PageNumber, k: nat, f: Field, value: string)
    requires |ps| == 12 && k < 6
    ensures var qs := UpdateField(ps, StartIndex(page) + k, f, value);
      ShownRows(qs, page)[k] == With(ShownRows(ps, page)[k], f, value) &&
      (forall j :: 0 <= j < 6 && j != k ==> ShownRows(qs, page)[j] == ShownRows(ps, page)[j]) &&
      ShownRows(qs, if page == 1 then 2 else 1) == ShownRows(ps, if page == 1 then 2 else 1)
  {
    var qs := UpdateField(ps, StartIndex(page) + k, f, value);
    var other: PageNumber := if page == 1 then 2 else 1;
    assert |ShownRows(qs, other)| == 6 && |ShownRows(ps, other)| == 6;
    forall j | 0 <= j < 6 ensures ShownRows(qs, other)[j] == ShownRows(ps, other)[j] {
      assert StartIndex(other) + j != StartIndex(page) + k;
    }
  }

  /** A row counts as a recommendation when its name is not blank. */
  predicate HasName(p: Person) {
    Trim(p.name) != ""
  }

  /** `personen.filter(p => p.name.trim() !== "")`: the named rows, in form order. */
  function ExportList(ps: seq<Person>): (r: seq<Person>)
    ensures IsSubsequence(r, ps)
    ensures forall p :: p in r <==> p in ps && HasName(p)
  {
    FilterIsSubsequence(HasName, ps);
    Filter(HasName, ps)
  }

  /** Clearing a row's name removes it from the export, and the other rows keep their order. */
  lemma ClearedRowNotExported(ps: seq<Person>, index: nat)
    requires index < |ps|
    ensures ExportList(UpdateField(ps, index, Name, "")) ==
      ExportList(ps[..index]) + ExportList(ps[index + 1..])
  {
    var qs := UpdateField(ps, index, Name, "");
    assert qs == ps[..index] + [qs[index]] + ps[index + 1..];
    assert Trim(qs[index].name) == "" by {
      assert qs[index].name == "";
    }
    FilterAppend(HasName, ps[..index] + [qs[index]], ps[index + 1..]);
    FilterAppend(HasName, ps[..index], [qs[index]]);
    assert Filter(HasName, [qs[index]]) == [];
    assert Filter(HasName, ps[..index]) + [] == Filter(HasName, ps[..index]);
  }

  /** The request `confirmExport` sends to the PDF route. */
  function Request(geberName: string, ps: seq<Person>): (b: PdfRoute.Body)
    ensures b.kind == "empfehlungen" && b.name == geberName
    ensures IsSubsequence(b.empfehlungen, ps) && forall p :: p in b.empfehlungen ==> HasName(p)
  {
    PdfRoute.Body("empfehlungen", geberName, ExportList(ps), "", "", ChancenblattExport.Content("", "", ""), map[])
  }

  /** How the PDF reaches the user. */
  datatype Delivery =
    | Shared(title: string)       // the share sheet on a phone or tablet
    | Downloaded(fileName: string) // a download link, clicked and removed

  /** The page's state. */
  class Page {
    var mode: Mode
    var isExporting: bool
    var page: PageNumber
    var personen: seq<Person>
    var showNameDialog: bool
    var geberName: string
    /** The requests sent to the PDF route, oldest first. */
    var sent: seq<PdfRoute.Body>

    /** The form always has its twelve rows. */
    predicate Valid()
      reads this
    {
      |personen| == 12
    }

    constructor()
      ensures Valid()
      ensures mode == Normal && !isExporting && page == 1 && personen == InitialPersons
      ensures !showNameDialog && geberName == "" && sent == []
    {
      mode := Normal;
      isExporting := false;
      page := 1;
      personen := InitialPersons;
      showNameDialog := false;
      geberName := "";
      sent := [];
    }

    /** `handleSave`: the save button opens the name dialog. */
    method HandleSave()
      modifies this
      ensures showNameDialog
      ensures mode == old(mode) && isExporting == old(isExporting) && page == old(page)
      ensures personen == old(personen) && geberName == old(geberName) && sent == old(sent)
    {
      showNameDialog := true;
    }

    /** The dialog's input. */
    method SetGeberName(name: string)
      modifies this
      ensures geberName == name
      ensures mode == old(mode) && isExporting == old(isExporting) && page == old(page)
      ensures personen == old(personen) && showNameDialog == old(showNameDialog) && sent == old(sent)
    {
      geberName := name;
    }

    /** The dialog's cancel button. */
    method CancelDialog()
      modifies this
      ensures !showNameDialog
      ensures mode == old(mode) && isExporting == old(isExporting) && page == old(page)
      ensures personen == old(personen) && geberName == old(geberName) && sent == old(sent)
    {
      showNameDialog := false;
    }

    /** The form's page navigation. */
    method SetPage(p: PageNumber)
      modifies this
      ensures page == p
      ensures mode == old(mode) && isExporting == old(isExporting) && showNameDialog == old(showNameDialog)
      ensures personen == old(personen) && geberName == old(geberName) && sent == old(sent)
    {
      page := p;
    }

    /** The top bar's mode switch. */
    method SetMode(m: Mode)
      modifies this
      ensures mode == m
      ensures page == old(page) && isExporting == old(isExporting) && showNameDialog == old(showNameDialog)
      ensures personen == old(personen) && geberName == old(geberName) && sent == old(sent)
    {
      mode := m;
    }

    /** An input of row `k` on the current page changes `field` of person `StartIndex(page) + k`. */
    method Edit(k: nat, f: Field, value: string)
      requires Valid() && k < 6
      modifies this
      ensures Valid()
      ensures personen == UpdateField(old(personen), StartIndex(page) + k, f, value)
      ensures mode == old(mode) && page == old(page) && isExporting == old(isExporting)
      ensures showNameDialog == old(showNameDialog) && geberName == old(geberName) && sent == old(sent)
    {
      personen := UpdateField(personen, StartIndex(page) + k, f, value);
    }

    /**
     * The request half of `confirmExport`: with a blank name nothing happens;
     * otherwise the tools go back to normal mode, the export starts, and the
     * named rows are sent under the giver's name.
     */
    method ConfirmExport() returns (started: bool)
      modifies this
      ensures started <==> Trim(old(geberName)) != ""
      ensures !started ==>
        mode == old(mode) && isExporting == old(isExporting) && sent == old(sent)
      ensures started ==>
        mode == Normal && isExporting && sent == old(sent) + [Request(geberName, personen)]
      ensures page == old(page) && personen == old(personen) && geberName == old(geberName)
      ensures showNameDialog == old(showNameDialog)
    {
      if Trim(geberName) == "" {
        return false;
      }
      mode := Normal;
      isExporting := true;
      sent := sent + [Request(geberName, personen)];
      return true;
    }

    /**
     * The response half of `confirmExport`: the export ends and the dialog
     * closes; on a phone or tablet that can share, a successful share is
     * the delivery, and otherwise the file is downloaded. The name is the one
     * the request was sent under.
     */
    method ResponseArrived(isMobile: bool, canShare: bool, shareSucceeded: bool) returns (d: Delivery)
      requires sent != []
      modifies this
      ensures !isExporting && !showNameDialog && sent == old(sent)
      ensures var name := sent[|sent| - 1].name;
        d == if isMobile && canShare && shareSucceeded then Shared("Empfehlungen " + name)
             else Downloaded("Empfehlungen-" + name + ".pdf")
      ensures mode == old(mode) && page == old(page) && personen == old(personen)
      ensures geberName == old(geberName)
    {
      isExporting := false;
      showNameDialog := false;
      var name := sent[|sent| - 1].name;
      if isMobile && canShare && shareSucceeded {
        return Shared("Empfehlungen " + name);
      }
      return Downloaded("Empfehlungen-" + name + ".pdf");
    }
  }
}
