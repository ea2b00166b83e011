/** Which routes belong to which app group, and the icon of each group. */
module AppGroups {
  import opened Wrappers

  datatype AppGroup = Firmenvorstellung | Home

  /** The routes of the group "firmenvorstellung". */
  const FirmenvorstellungRoutes: seq<string> := [
    "/firmenvorstellung/pages/kapitalmarkt",
    "/firmenvorstellung/pages/lebensplan",
    "/firmenvorstellung/pages/abs",
    "/firmenvorstellung/pages/werbung",
    "/firmenvorstellung/pages/empfehlung",
    "/firmenvorstellung/pages/chancenblatt",
    "/firmenvorstellung/pages/kontaktbogen"
  ]

  const HomeRoute: string := "/firmenvorstellung/home"

  /** The table from route to group; a route outside it has no group. */
  const RouteToAppGroup: map<string, AppGroup> := map[
    "/firmenvorstellung/pages/kapitalmarkt" := Firmenvorstellung,
    "/firmenvorstellung/pages/lebensplan" := Firmenvorstellung,
    "/firmenvorstellung/pages/abs" := Firmenvorstellung,
    "/firmenvorstellung/pages/werbung" := Firmenvorstellung,
    "/firmenvorstellung/pages/empfehlung" := Firmenvorstellung,
    "/firmenvorstellung/pages/chancenblatt" := Firmenvorstellung,
    "/firmenvorstellung/pages/kontaktbogen" := Firmenvorstellung,
    "/firmenvorstellung/home" := Home
  ]

  /** The group icons. */
  const AppGroupConfig: map<AppGroup, string> := map[
    Firmenvorstellung := "/ovb.png",
    Home := "/home-icon.png"
  ]

  /** `getAppGroup`: the group of a route, `None` for `null`. */
  function GetAppGroup(route: string): (g: Option<AppGroup>)
    ensures g == Some(Firmenvorstellung) <==> route in FirmenvorstellungRoutes
    ensures g == Some(Home) <==> route == HomeRoute
    ensures g.None? <==> route !in FirmenvorstellungRoutes && route != HomeRoute
  {
    if route in RouteToAppGroup then Some(RouteToAppGroup[route]) else None
  }

  /** `getAppGroupIcon`: the configured icon, "/ovb.png" when none is configured. */
  function GetAppGroupIcon(group: AppGroup): (icon: string)
    ensures group == Firmenvorstellung ==> icon == "/ovb.png"
    ensures group == Home ==> icon == "/home-icon.png"
  {
    if group in AppGroupConfig then AppGroupConfig[group] else "/ovb.png"
  }

  /** The launcher route and the overview route have no group. */
  lemma UngroupedRoutes()
    ensures GetAppGroup("/") == None
    ensures GetAppGroup("/firmenvorstellung/pages/home") == None
  {
  }
}
