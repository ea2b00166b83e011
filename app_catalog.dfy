/** The catalogue of apps shown in the overview, and the filter that picks one area's visible apps. */
module AppCatalog {
  import opened SeqFilter

  datatype AppArea = OvbSuite | FutureApps

  datatype AppEntry = AppEntry(
    id: string,
    title: string,
    subtitle: string,
    route: string,
    icon: string,
    area: AppArea,
    visibleInOverview: bool)

  const Catalog: seq<AppEntry> := [
    AppEntry("desktop-launcher", "Desktop Launcher", "Startseite", "/", "/home-icon.png", OvbSuite, true),
    AppEntry("ovb-home", "OVB Ubersicht", "Aktuelle App-Auswahl", "/firmenvorstellung/pages/home", "/ovb.png", OvbSuite, true),
    AppEntry("kapitalmarkt", "Der Kapitalmarkt", "OVB Firmenvorstellung", "/firmenvorstellung/pages/kapitalmarkt", "/kapitalmarkt-icon.png", OvbSuite, true),
    AppEntry("lebensplan", "Finanzieller Lebensplan", "OVB Firmenvorstellung", "/firmenvorstellung/pages/lebensplan", "/lebensplan-icon.png", OvbSuite, true),
    AppEntry("abs", "ABS-System", "OVB Firmenvorstellung", "/firmenvorstellung/pages/abs", "/abs-icon.png", OvbSuite, true),
    AppEntry("werbung", "Mehrwert zeigen", "OVB Firmenvorstellung", "/firmenvorstellung/pages/werbung", "/werbung-icon.png", OvbSuite, true),
    AppEntry("empfehlung", "Netzwerk", "OVB Firmenvorstellung", "/firmenvorstellung/pages/empfehlung", "/netzwerk-icon.png", OvbSuite, true),
    AppEntry("chancenblatt", "Chancenblatt", "OVB Firmenvorstellung", "/firmenvorstellung/pages/chancenblatt", "/chancenblatt-icon.png", OvbSuite, true),
    AppEntry("kontaktbogen", "Kontaktbogen", "Folgeschritt", "/firmenvorstellung/pages/kontaktbogen", "/icons/notizen.png", OvbSuite, true)
  ]

  /** The heading of each area; the record type makes it total. */
  function AreaLabel(area: AppArea): (heading: string)
    ensures heading != []
    ensures area.OvbSuite? <==> heading == "OVB Firmenvorstellung"
    ensures area.FutureApps? <==> heading == "Weitere Apps"
  {
    match area
    case OvbSuite => "OVB Firmenvorstellung"
    case FutureApps => "Weitere Apps"
  }

  function InOverview(area: AppArea): AppEntry -> bool {
    (e: AppEntry) => e.area == area && e.visibleInOverview
  }

  /** The apps of one area that are visible in the overview, in catalogue order. */
  function GetOverviewApps(area: AppArea): (apps: seq<AppEntry>)
    ensures forall e :: e in apps ==> e.area == area && e.visibleInOverview
    ensures forall e :: e in Catalog && e.area == area && e.visibleInOverview ==> e in apps
    ensures IsSubsequence(apps, Catalog)
  {
    FilterIsSubsequence(InOverview(area), Catalog);
    Filter(InOverview(area), Catalog)
  }

  /** Every catalogue entry belongs to the suite and is visible, so the suite shows all of them and the other area none. */
  lemma OverviewByArea()
    ensures GetOverviewApps(OvbSuite) == Catalog
    ensures GetOverviewApps(FutureApps) == []
  {
    FilterAll(InOverview(OvbSuite), Catalog);
    FilterNone(InOverview(FutureApps), Catalog);
  }

  /** No two catalogue entries share an id. */
  lemma CatalogIdsDistinct()
    ensures |Catalog| == 9
    ensures forall i, j :: 0 <= i < j < |Catalog| ==> Catalog[i].id != Catalog[j].id
  {
  }
}
