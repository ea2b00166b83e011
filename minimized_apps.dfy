/**
 * The registry of minimized apps kept in the session storage of the browser
 * tab: reading it defensively, listing it newest first, adding an app (at
 * most one per app group), removing one and clearing it.
 */
module MinimizedApps {
  import opened Wrappers
  import opened JsonStore
  import opened AppGroups
  import opened SeqFilter

  datatype MinimizedApp = MinimizedApp(route: string, title: string, minimizedAt: int)

  const StorageKey: string := "ovb:minimized-apps"

  /** The entry test of `safeRead`: an object whose route and title are strings and whose time is a number. */
  function DecodeEntry(v: JsonValue): (r: Option<MinimizedApp>)
    ensures r.Some? <==>
      v.JObj? && "route" in v.fields && v.fields["route"].JStr? &&
      "title" in v.fields && v.fields["title"].JStr? &&
      "minimizedAt" in v.fields && v.fields["minimizedAt"].JNum?
  {
    match v
    case JObj(f) =>
      if "route" in f && f["route"].JStr? && "title" in f && f["title"].JStr? &&
         "minimizedAt" in f && f["minimizedAt"].JNum?
      then Some(MinimizedApp(f["route"].s, f["title"].s, f["minimizedAt"].n))
      else None
    case _ => None
  }

  /** How `JSON.stringify` writes one entry. */
  function EncodeEntry(a: MinimizedApp): JsonValue {
    JObj(map["route" := JStr(a.route), "title" := JStr(a.title), "minimizedAt" := JNum(a.minimizedAt)])
  }

  function EncodeAll(entries: seq<MinimizedApp>): (r: seq<JsonValue>)
    ensures |r| == |entries|
  {
    if entries == [] then [] else [EncodeEntry(entries[0])] + EncodeAll(entries[1..])
  }

  /** The stored items that pass the entry test, in stored order. */
  function ValidEntries(items: seq<JsonValue>): (r: seq<MinimizedApp>)
    ensures |r| <= |items|
  {
    if items == [] then []
    else
      var rest := ValidEntries(items[1..]);
      match DecodeEntry(items[0])
      case Some(a) => [a] + rest
      case None => rest
  }

  /** An entry is kept exactly when some stored item decodes to it. */
  lemma {:induction false} ValidEntriesMembers(items: seq<JsonValue>)
    ensures forall a :: a in ValidEntries(items) <==> exists v :: v in items && DecodeEntry(v) == Some(a)
  {
    if items != [] {
      ValidEntriesMembers(items[1..]);
      assert forall v :: v in items <==> v == items[0] || v in items[1..];
    }
  }

  lemma {:induction false} ValidEntriesAppend(x: seq<JsonValue>, y: seq<JsonValue>)
    ensures ValidEntries(x + y) == ValidEntries(x) + ValidEntries(y)
  {
    if x == [] {
      assert x + y == y;
    } else {
      assert (x + y)[0] == x[0] && (x + y)[1..] == x[1..] + y;
      ValidEntriesAppend(x[1..], y);
    }
  }

  /** Whatever the registry writes, it reads back unchanged. */
  lemma {:induction false} EncodeAllRoundTrip(entries: seq<MinimizedApp>)
    ensures ValidEntries(EncodeAll(entries)) == entries
  {
    if entries != [] {
      EncodeAllRoundTrip(entries[1..]);
    }
  }

  /** `safeRead`: the stored list, or the empty list whenever anything about it is missing or wrong. */
  function SafeRead(hasWindow: bool, item: StoredItem): (r: seq<MinimizedApp>)
    ensures !hasWindow ==> r == []
    ensures item.Inaccessible? || item.Absent? || item.EmptyText? || item.Unparseable? ==> r == []
    ensures item.Json? && !item.value.JArr? ==> r == []
    ensures hasWindow && item.Json? && item.value.JArr? ==>
      forall a :: a in r <==> exists v :: v in item.value.items && DecodeEntry(v) == Some(a)
  {
    if !hasWindow then []
    else match item
      case Json(JArr(items)) => ValidEntriesMembers(items); ValidEntries(items)
      case _ => []
  }

  /** Newest first: non-increasing `minimizedAt`. */
  predicate NewestFirst(s: seq<MinimizedApp>) {
    forall i, j :: 0 <= i < j < |s| ==> s[i].minimizedAt >= s[j].minimizedAt
  }

  /** Places `a` before the first entry that is not newer than it (a stable insertion). */
  function Insert(a: MinimizedApp, s: seq<MinimizedApp>): (r: seq<MinimizedApp>)
    ensures |r| == |s| + 1
  {
    if s == [] then [a]
    else if a.minimizedAt >= s[0].minimizedAt then [a] + s
    else [s[0]] + Insert(a, s[1..])
  }

  /** Inserting adds exactly `a` and nothing else. */
  lemma {:induction false} InsertPermutes(a: MinimizedApp, s: seq<MinimizedApp>)
    ensures multiset(Insert(a, s)) == multiset(s) + multiset{a}
  {
    if s != [] && a.minimizedAt < s[0].minimizedAt {
      InsertPermutes(a, s[1..]);
      assert s == [s[0]] + s[1..];
    }
  }

  /** Inserting into a list that is newest first keeps it newest first. */
  lemma {:induction false} InsertSorted(a: MinimizedApp, s: seq<MinimizedApp>)
    requires NewestFirst(s)
    ensures NewestFirst(Insert(a, s))
  {
    if s != [] && a.minimizedAt < s[0].minimizedAt {
      InsertSorted(a, s[1..]);
      InsertPermutes(a, s[1..]);
      var rest := Insert(a, s[1..]);
      forall x | x in rest
        ensures s[0].minimizedAt >= x.minimizedAt
      {
        assert x in multiset(rest);
        assert x == a || x in multiset(s[1..]);
      }
    }
  }

  /**
   * The order `getMinimizedApps` returns: descending `minimizedAt`; an insertion
   * sort that puts an earlier stored entry before later ones with the same time.
   */
  function SortNewestFirst(s: seq<MinimizedApp>): (r: seq<MinimizedApp>)
    ensures NewestFirst(r)
    ensures multiset(r) == multiset(s)
  {
    if s == [] then []
    else
      var sorted := SortNewestFirst(s[1..]);
      InsertSorted(s[0], sorted);
      InsertPermutes(s[0], sorted);
      assert s == [s[0]] + s[1..];
      Insert(s[0], sorted)
  }

  /** The entries that survive adding `route`: other routes, and of those only the ones outside the route's group. */
  predicate Survives(route: string, e: MinimizedApp) {
    e.route != route &&
    (GetAppGroup(route).None? || GetAppGroup(e.route) != GetAppGroup(route))
  }

  function Survivor(route: string): MinimizedApp -> bool {
    (e: MinimizedApp) => Survives(route, e)
  }

  function OtherRoute(route: string): MinimizedApp -> bool {
    (e: MinimizedApp) => e.route != route
  }

  /** The first filter of `addMinimizedApp` when the route has a group. */
  function SameRouteOrOtherGroup(route: string, g: Option<AppGroup>): MinimizedApp -> bool {
    (e: MinimizedApp) => e.route == route || GetAppGroup(e.route) != g
  }

  /** At most one entry per app group. */
  predicate GroupExclusive(s: seq<MinimizedApp>) {
    forall i, j :: 0 <= i < j < |s| && GetAppGroup(s[i].route).Some? ==>
      GetAppGroup(s[i].route) != GetAppGroup(s[j].route)
  }

  /** At most one entry per route. */
  predicate RoutesDistinct(s: seq<MinimizedApp>) {
    forall i, j :: 0 <= i < j < |s| ==> s[i].route != s[j].route
  }

  /** The list `addMinimizedApp` writes, given the list it read. */
  function AfterAdd(stored: seq<MinimizedApp>, route: string, title: string, now: int): seq<MinimizedApp> {
    [MinimizedApp(route, title, now)] + Filter(Survivor(route), stored)
  }

  /**
   * After adding, the new app comes first; no other entry has its route; no
   * other entry shares its group; every other entry survives exactly when it
   * is outside both.
   */
  lemma AddPlacesRouteFirst(stored: seq<MinimizedApp>, route: string, title: string, now: int)
    ensures var r := AfterAdd(stored, route, title, now);
      r[0] == MinimizedApp(route, title, now) &&
      (forall k :: 1 <= k < |r| ==> r[k].route != route) &&
      (GetAppGroup(route).Some? ==> forall k :: 1 <= k < |r| ==> GetAppGroup(r[k].route) != GetAppGroup(route)) &&
      (forall e :: e in r[1..] <==> e in stored && Survives(route, e))
  {
    var r := AfterAdd(stored, route, title, now);
    assert r[1..] == Filter(Survivor(route), stored);
    forall k | 1 <= k < |r| ensures Survives(route, r[k]) {
      assert r[k] in r[1..];
    }
  }

  /** Adding keeps a registry with one entry per group and per route in that shape. */
  lemma AddKeepsExclusive(stored: seq<MinimizedApp>, route: string, title: string, now: int)
    requires GroupExclusive(stored) && RoutesDistinct(stored)
    ensures GroupExclusive(AfterAdd(stored, route, title, now))
    ensures RoutesDistinct(AfterAdd(stored, route, title, now))
  {
    var r := AfterAdd(stored, route, title, now);
    var rest := Filter(Survivor(route), stored);
    assert r[1..] == rest;
    SubsequenceKeepsExclusive(route, stored);
    AddPlacesRouteFirst(stored, route, title, now);
    forall i, j | 0 <= i < j < |r|
      ensures r[i].route != r[j].route
      ensures GetAppGroup(r[i].route).Some? ==> GetAppGroup(r[i].route) != GetAppGroup(r[j].route)
    {
      if i > 0 {
        assert r[i] == rest[i - 1] && r[j] == rest[j - 1];
      }
    }
  }

  /** Two entries, the first before the second, that neither share a route nor a group. */
  predicate Apart(a: MinimizedApp, b: MinimizedApp) {
    a.route != b.route && (GetAppGroup(a.route).Some? ==> GetAppGroup(a.route) != GetAppGroup(b.route))
  }

  lemma SubsequenceKeepsExclusive(route: string, s: seq<MinimizedApp>)
    requires GroupExclusive(s) && RoutesDistinct(s)
    ensures GroupExclusive(Filter(Survivor(route), s))
    ensures RoutesDistinct(Filter(Survivor(route), s))
  {
    var rel := (a: MinimizedApp, b: MinimizedApp) => Apart(a, b);
    assert Pairwise(rel, s);
    FilterKeepsPairwise(Survivor(route), rel, s);
    var r := Filter(Survivor(route), s);
    assert forall i, j :: 0 <= i < j < |r| ==> rel(r[i], r[j]);
  }

  /**
   * The browser tab's view of the registry: whether a `window` exists, the
   * item stored under `StorageKey`, and how many change events were sent.
   */
  class Registry {
    var hasWindow: bool
    var item: StoredItem
    var changeEvents: nat

    constructor (hasWindow: bool, item: StoredItem)
      ensures this.hasWindow == hasWindow && this.item == item && changeEvents == 0
    {
      this.hasWindow := hasWindow;
      this.item := item;
      changeEvents := 0;
    }

    /** What `safeRead` returns now. */
    function Stored(): seq<MinimizedApp>
      reads this
    {
      SafeRead(hasWindow, item)
    }

    /** `safeWrite`: store the list and announce the change; nothing happens without a window. */
    method SafeWrite(entries: seq<MinimizedApp>)
      modifies this
      ensures hasWindow == old(hasWindow)
      ensures old(hasWindow) ==> item == Json(JArr(EncodeAll(entries))) && changeEvents == old(changeEvents) + 1
      ensures old(hasWindow) ==> Stored() == entries
      ensures !old(hasWindow) ==> item == old(item) && changeEvents == old(changeEvents)
    {
      if hasWindow {
        item := Json(JArr(EncodeAll(entries)));
        changeEvents := changeEvents + 1;
        EncodeAllRoundTrip(entries);
      }
    }

    /** `getMinimizedApps`: the valid stored entries, newest first. */
    method GetMinimizedApps() returns (apps: seq<MinimizedApp>)
      ensures NewestFirst(apps)
      ensures multiset(apps) == multiset(Stored())
    {
      apps := SortNewestFirst(SafeRead(hasWindow, item));
    }

    /** `addMinimizedApp`: `now` is the value of `Date.now()`. */
    method AddMinimizedApp(route: string, title: string, now: int)
      modifies this
      ensures hasWindow == old(hasWindow)
      ensures old(hasWindow) ==>
        Stored() == AfterAdd(old(Stored()), route, title, now) && changeEvents == old(changeEvents) + 1
      ensures !old(hasWindow) ==> item == old(item) && changeEvents == old(changeEvents)
    {
      var currentGroup := GetAppGroup(route);
      var existing := SafeRead(hasWindow, item);
      ghost var read := existing;
      if currentGroup.Some? {
        existing := Filter(SameRouteOrOtherGroup(route, currentGroup), existing);
      } else {
        existing := Filter(OtherRoute(route), existing);
      }
      existing := Filter(OtherRoute(route), existing);
      SameSurvivors(read, route, currentGroup);
      var next := MinimizedApp(route, title, now);
      SafeWrite([next] + existing);
    }

    /** `removeMinimizedApp`: drop every entry with the route, keep the rest in order. */
    method RemoveMinimizedApp(route: string)
      modifies this
      ensures hasWindow == old(hasWindow)
      ensures old(hasWindow) ==>
        Stored() == Filter(OtherRoute(route), old(Stored())) && changeEvents == old(changeEvents) + 1
      ensures !old(hasWindow) ==> item == old(item) && changeEvents == old(changeEvents)
    {
      var existing := Filter(OtherRoute(route), SafeRead(hasWindow, item));
      SafeWrite(existing);
    }

    /** `clearMinimizedApps`. */
    method ClearMinimizedApps()
      modifies this
      ensures hasWindow == old(hasWindow)
      ensures old(hasWindow) ==> Stored() == [] && changeEvents == old(changeEvents) + 1
      ensures !old(hasWindow) ==> item == old(item) && changeEvents == old(changeEvents)
    {
      SafeWrite([]);
    }
  }

  /** The two filters `addMinimizedApp` applies in a row keep exactly the surviving entries. */
  lemma SameSurvivors(s: seq<MinimizedApp>, route: string, g: Option<AppGroup>)
    requires g == GetAppGroup(route)
    ensures g.Some? ==>
      Filter(OtherRoute(route), Filter(SameRouteOrOtherGroup(route, g), s)) == Filter(Survivor(route), s)
    ensures g.None? ==>
      Filter(OtherRoute(route), Filter(OtherRoute(route), s)) == Filter(Survivor(route), s)
  {
    if g.Some? {
      FilterTwice(SameRouteOrOtherGroup(route, g), OtherRoute(route), Survivor(route), s);
    } else {
      FilterTwice(OtherRoute(route), OtherRoute(route), Survivor(route), s);
    }
  }

  /** Removing a route that is not stored leaves the list as it was. */
  lemma RemoveAbsentRoute(s: seq<MinimizedApp>, route: string)
    requires forall e :: e in s ==> e.route != route
    ensures Filter(OtherRoute(route), s) == s
  {
    FilterAll(OtherRoute(route), s);
  }
}
