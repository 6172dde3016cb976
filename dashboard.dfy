/** The tab switch of the admin dashboard in static/js/script.js
    (`setupAdminDashboardUI`): the sidebar links, the admin sections, which
    link carries the `active` class, each section's inline `display`, and
    the lists re-fetched after a click or on the initial load. */
module Dashboard {
  import opened Values
  import opened Client

  /** A section's inline `style.display`: never set, "none" or "block". */
  datatype Display = Unset | Hidden | Shown

  /** The position of the first `x` in `s`, as `document.getElementById`
      and `document.querySelector` find the first matching element. */
  function FirstIndex<T(==)>(s: seq<T>, x: T, from: nat): (r: Option<nat>)
    requires from <= |s|
    ensures r.None? <==> forall i :: from <= i < |s| ==> s[i] != x
    ensures r.Some? ==> from <= r.value < |s| && s[r.value] == x &&
                        forall i :: from <= i < r.value ==> s[i] != x
    decreases |s| - from
  {
    if from == |s| then None
    else if s[from] == x then Some(from)
    else FirstIndex(s, x, from + 1)
  }

  /** The lists a click re-fetches: the bookings for the bookings tab,
      all three lists for the overview, nothing for any other tab. */
  function FetchesFor(target: string): (r: seq<Refresh>)
    ensures target == "bookings-management" ==> r == [RefreshBookings]
    ensures target == "dashboard-overview" ==> r == [RefreshStats, RefreshBookings, RefreshBusyDates]
    ensures target != "bookings-management" && target != "dashboard-overview" ==> r == []
  {
    if target == "bookings-management" then [RefreshBookings]
    else if target == "dashboard-overview" then [RefreshStats, RefreshBookings, RefreshBusyDates]
    else []
  }

  /** Only the overview brings every list up to date; the bookings tab
      re-fetches neither the stats nor the busy dates. */
  lemma OverviewRefreshesEverything(target: string)
    ensures (forall x: Refresh :: x in FetchesFor(target)) <==> target == "dashboard-overview"
    ensures RefreshStats in FetchesFor(target) <==> target == "dashboard-overview"
  {
    if target == "dashboard-overview" {
      forall x: Refresh
        ensures x in FetchesFor(target)
      {
        var r := FetchesFor(target);
        match x
        case RefreshStats => assert r[0] == x;
        case RefreshBookings => assert r[1] == x;
        case RefreshBusyDates => assert r[2] == x;
      }
    } else {
      assert RefreshStats !in FetchesFor(target);
    }
  }

  class AdminDashboard {
    /** The `data-section` of each sidebar link. */
    const linkTargets: seq<string>
    /** The id of each admin section, in document order. */
    const sectionIds: seq<string>
    /** Which sections the page marks with the `active` class. */
    const markedActive: seq<bool>

    var linkActive: seq<bool>
    var display: seq<Display>

    ghost predicate Valid()
      reads this
    {
      |linkActive| == |linkTargets| && |display| == |sectionIds| && |markedActive| == |sectionIds|
    }

    /** At most one section is shown. */
    ghost predicate SingleShown()
      reads this
    {
      forall i, j :: 0 <= i < |display| && 0 <= j < |display| && display[i] == Shown && display[j] == Shown ==> i == j
    }

    /** The page as loaded: the links' classes from the markup, no inline
        display set. */
    constructor(links: seq<string>, ids: seq<string>, marked: seq<bool>, activeLinks: seq<bool>)
      requires |marked| == |ids| && |activeLinks| == |links|
      ensures Valid()
      ensures linkTargets == links && sectionIds == ids && markedActive == marked
      ensures linkActive == activeLinks && display == seq(|ids|, _ => Unset)
    {
      linkTargets := links;
      sectionIds := ids;
      markedActive := marked;
      linkActive := activeLinks;
      display := seq(|ids|, _ => Unset);
    }

    /** The click handler of link `k`: clears `active` on every link and
        sets it on link `k`, hides every section, shows the first section
        whose id is the link's target, and re-fetches by target. */
    method ClickLink(k: nat) returns (fetches: seq<Refresh>)
      requires Valid() && k < |linkTargets|
      modifies this`linkActive, this`display
      ensures Valid() && SingleShown()
      ensures forall j :: 0 <= j < |linkActive| ==> (linkActive[j] <==> j == k)
      ensures forall j :: 0 <= j < |display| ==>
        display[j] == (if FirstIndex(sectionIds, linkTargets[k], 0) == Some(j) then Shown else Hidden)
      ensures fetches == FetchesFor(linkTargets[k])
    {
      var i := 0;
      while i < |linkActive|
        invariant 0 <= i <= |linkActive| && Valid()
        invariant forall j :: 0 <= j < i ==> !linkActive[j]
      {
        linkActive := linkActive[i := false];
        i := i + 1;
      }
      linkActive := linkActive[k := true];

      var target := linkTargets[k];
      i := 0;
      while i < |display|
        invariant 0 <= i <= |display| && Valid()
        invariant forall j :: 0 <= j < i ==> display[j] == Hidden
        invariant forall j :: 0 <= j < |linkActive| ==> (linkActive[j] <==> j == k)
      {
        display := display[i := Hidden];
        i := i + 1;
      }
      var found := FirstIndex(sectionIds, target, 0);
      if found.Some? {
        display := display[found.value := Shown];
      }

      if target == "bookings-management" {
        fetches := [RefreshBookings];
      } else if target == "dashboard-overview" {
        fetches := [RefreshStats, RefreshBookings, RefreshBusyDates];
      } else {
        fetches := [];
      }
    }

    /** The initial load: the first section marked active is shown and all
        three lists are fetched; without one nothing happens. */
    method InitialLoad() returns (fetches: seq<Refresh>)
      requires Valid()
      modifies this`display
      ensures Valid() && linkActive == old(linkActive)
      ensures FirstIndex(markedActive, true, 0).None? ==> display == old(display) && fetches == []
      ensures FirstIndex(markedActive, true, 0).Some? ==>
        (display == old(display)[FirstIndex(markedActive, true, 0).value := Shown] &&
         fetches == [RefreshStats, RefreshBookings, RefreshBusyDates])
    {
      var defaultActive := FirstIndex(markedActive, true, 0);
      fetches := [];
      if defaultActive.Some? {
        display := display[defaultActive.value := Shown];
        fetches := [RefreshStats, RefreshBookings, RefreshBusyDates];
      }
    }
  }

  /** After a click some section is shown exactly when a section carries
      the link's target as its id. */
  lemma ShownIffTargetExists(display: seq<Display>, ids: seq<string>, target: string)
    requires |display| == |ids|
    requires forall j :: 0 <= j < |display| ==>
      display[j] == (if FirstIndex(ids, target, 0) == Some(j) then Shown else Hidden)
    ensures (exists j :: 0 <= j < |display| && display[j] == Shown) <==> target in ids
  {
    if target in ids {
      var j :| 0 <= j < |ids| && ids[j] == target;
      assert FirstIndex(ids, target, 0).Some?;
      assert display[FirstIndex(ids, target, 0).value] == Shown;
    }
  }
}
