/** The three render functions of static/js/script.js: each clears a
    container and then shows either one placeholder paragraph or one card
    per entry of the list it was given, in order. The DOM is abstracted to
    a container holding a sequence of element records. */
module Render {
  import opened Values
  import opened Text
  import opened Client

  /** A package as the event-packages endpoint sends it. */
  datatype PackageIn = PackageIn(packageId: Js, packageName: string, description: Js, whatIncluded: Js, price: Js)

  /** A booking row as the admin bookings endpoint sends it. */
  datatype BookingIn = BookingIn(
    bookingId: Js, fullName: Js, emailAddress: Js, phoneNumber: Js, packageName: string,
    preferredDate: Js, location: Js, expectedGuests: Js, additionalRequirements: Js, status: string)

  /** One confirmed booking listed under a busy date. */
  datatype BusyBookingIn = BusyBookingIn(fullName: Js, packageName: Js)

  /** A busy date with its bookings; `None` when the field is missing or
      null. */
  datatype DateEntryIn = DateEntryIn(date: Js, bookings: Option<seq<BusyBookingIn>>)

  /** A line of a busy-date card. */
  datatype BusyLine = Guest(fullName: Js, packageName: Js) | NoConfirmedBookings

  /** What a container can hold. Dates keep the value received; their
      formatting is not modelled. */
  datatype Element =
    | Placeholder(text: string)
    | PackageCard(style: CardStyle, name: string, description: Js, inclusions: seq<Js>, price: PriceLabel, packageId: Js)
    | BookingCard(fullName: Js, status: string, statusClass: string, emailAddress: Js, phoneNumber: Js,
                  icon: string, packageName: string, preferredDate: Js, location: Js, expectedGuests: Js,
                  requirements: Option<Js>, buttons: seq<ActionButton>)
    | BusyDateItem(date: Js, lines: seq<BusyLine>)

  /** A DOM container element; `children` is what it shows. */
  class Container {
    var children: seq<Element>

    constructor()
      ensures children == []
    {
      children := [];
    }
  }

  const NoPackagesText := "No event packages available at the moment."
  const NoBookingsText := "No bookings found for this filter."
  const NoBusyDatesText := "No busy dates currently."

  // -----------------------------------------------------------------------
  // Cards

  /** The card of one package: its style from the name, its inclusions,
      its description (empty when falsy) and its price label. */
  function PackageCardOf(p: PackageIn): (e: Element)
    ensures e.PackageCard? && e.name == p.packageName && e.packageId == p.packageId
    ensures e.style == FirstMatch(Lower(p.packageName), 0)
    ensures e.inclusions == Inclusions(p.whatIncluded)
    ensures e.description == (if JsTruthy(p.description) then p.description else Str(""))
    ensures e.price == PriceLabelOf(p.price)
    ensures e.price == OnRequest <==> !JsTruthy(p.price)
  {
    PackageCard(CardClassAndIcon(p.packageName), p.packageName,
                if JsTruthy(p.description) then p.description else Str(""),
                Inclusions(p.whatIncluded), PriceLabelOf(p.price), p.packageId)
  }

  /** The card of one booking: the status badge and its class, the icon of
      the package, the requirements line only when they are truthy, and the
      action buttons. */
  function BookingCardOf(b: BookingIn): (e: Element)
    ensures e.BookingCard? && e.fullName == b.fullName && e.status == b.status
    ensures e.emailAddress == b.emailAddress && e.phoneNumber == b.phoneNumber
    ensures e.packageName == b.packageName && e.preferredDate == b.preferredDate
    ensures e.location == b.location && e.expectedGuests == b.expectedGuests
    ensures e.statusClass == StatusClass(b.status)
    ensures e.icon == FirstMatch(Lower(b.packageName), 0).icon
    ensures e.requirements.Some? <==> JsTruthy(b.additionalRequirements)
    ensures e.requirements.Some? ==> e.requirements.value == b.additionalRequirements
    ensures e.buttons == ActionButtons(b.bookingId, b.status)
  {
    BookingCard(b.fullName, b.status, StatusClass(b.status), b.emailAddress, b.phoneNumber,
                CardClassAndIcon(b.packageName).icon, b.packageName, b.preferredDate, b.location,
                b.expectedGuests,
                if JsTruthy(b.additionalRequirements) then Some(b.additionalRequirements) else None,
                ActionButtons(b.bookingId, b.status))
  }

  /** The lines under a busy date: one per booking, or the single fallback
      line when the bookings are missing or empty. */
  function BusyLinesOf(bookings: Option<seq<BusyBookingIn>>): (lines: seq<BusyLine>)
    ensures bookings.None? || bookings.value == [] ==> lines == [NoConfirmedBookings]
    ensures bookings.Some? && bookings.value != [] ==>
      (|lines| == |bookings.value| &&
       forall k :: 0 <= k < |lines| ==>
         lines[k] == Guest(bookings.value[k].fullName, bookings.value[k].packageName))
  {
    if bookings.Some? && |bookings.value| > 0 then
      seq(|bookings.value|, k requires 0 <= k < |bookings.value| =>
        Guest(bookings.value[k].fullName, bookings.value[k].packageName))
    else [NoConfirmedBookings]
  }

  /** The fallback line appears exactly when there is nothing to list, and
      then alone. */
  lemma FallbackExactlyWhenEmpty(bookings: Option<seq<BusyBookingIn>>)
    ensures (exists k :: 0 <= k < |BusyLinesOf(bookings)| && BusyLinesOf(bookings)[k] == NoConfirmedBookings)
            <==> bookings.None? || bookings.value == []
    ensures |BusyLinesOf(bookings)| >= 1
  {
    var lines := BusyLinesOf(bookings);
    if bookings.None? || bookings.value == [] {
      assert lines[0] == NoConfirmedBookings;
    }
  }

  // -----------------------------------------------------------------------
  // What each render shows

  /** A list view: the placeholder alone when `n` is 0, otherwise the
      cards. */
  predicate ShowsList(children: seq<Element>, n: nat, placeholder: string)
  {
    (n == 0 ==> children == [Placeholder(placeholder)]) &&
    (n > 0 ==> |children| == n && forall k :: 0 <= k < n ==> !children[k].Placeholder?)
  }

  function PackagesView(packages: seq<PackageIn>): (v: seq<Element>)
    ensures ShowsList(v, |packages|, NoPackagesText)
    ensures |packages| > 0 ==> forall k :: 0 <= k < |packages| ==> v[k] == PackageCardOf(packages[k])
  {
    if |packages| == 0 then [Placeholder(NoPackagesText)]
    else seq(|packages|, k requires 0 <= k < |packages| => PackageCardOf(packages[k]))
  }

  function BookingsView(bookings: seq<BookingIn>): (v: seq<Element>)
    ensures ShowsList(v, |bookings|, NoBookingsText)
    ensures |bookings| > 0 ==> forall k :: 0 <= k < |bookings| ==> v[k] == BookingCardOf(bookings[k])
  {
    if |bookings| == 0 then [Placeholder(NoBookingsText)]
    else seq(|bookings|, k requires 0 <= k < |bookings| => BookingCardOf(bookings[k]))
  }

  function BusyDatesView(entries: seq<DateEntryIn>): (v: seq<Element>)
    ensures ShowsList(v, |entries|, NoBusyDatesText)
    ensures |entries| > 0 ==> forall k :: 0 <= k < |entries| ==>
      v[k] == BusyDateItem(entries[k].date, BusyLinesOf(entries[k].bookings))
  {
    if |entries| == 0 then [Placeholder(NoBusyDatesText)]
    else seq(|entries|, k requires 0 <= k < |entries| => BusyDateItem(entries[k].date, BusyLinesOf(entries[k].bookings)))
  }

  /** Appending to a list renders its cards followed by the new card. */
  lemma PackagesViewAppend(packages: seq<PackageIn>, p: PackageIn)
    requires |packages| > 0
    ensures PackagesView(packages + [p]) == PackagesView(packages) + [PackageCardOf(p)]
  {
    assert PackagesView(packages + [p])[|packages|] == PackageCardOf(p);
  }

  // -----------------------------------------------------------------------
  // The render functions

  /** The body of `renderEventPackages`' `forEach`: one package's card,
      its inclusion list built item by item. */
  method BuildPackageCard(pkg: PackageIn) returns (card: Element)
    ensures card == PackageCardOf(pkg)
  {
    var style := CardClassAndIcon(pkg.packageName);
    var inclusions := BuildInclusions(pkg.whatIncluded);
    var description := if JsTruthy(pkg.description) then pkg.description else Str("");
    card := PackageCard(style, pkg.packageName, description, inclusions, PriceLabelOf(pkg.price), pkg.packageId);
  }

  /** `renderEventPackages`: clears the container, then shows the
      placeholder or appends one card per package. */
  method RenderEventPackages(container: Container, packages: seq<PackageIn>)
    modifies container
    ensures container.children == PackagesView(packages)
  {
    container.children := [];
    if |packages| == 0 {
      container.children := [Placeholder(NoPackagesText)];
      return;
    }
    var i := 0;
    while i < |packages|
      invariant 0 <= i <= |packages|
      invariant |container.children| == i
      invariant forall k :: 0 <= k < i ==> container.children[k] == PackageCardOf(packages[k])
    {
      var card := BuildPackageCard(packages[i]);
      container.children := container.children + [card];
      i := i + 1;
    }
  }

  /** The body of `renderBookings`' `forEach`: one booking's card. */
  method BuildBookingCard(booking: BookingIn) returns (card: Element)
    ensures card == BookingCardOf(booking)
  {
    var statusClass := "";
    if booking.status == "Pending Review" {
      statusClass := "pending-review";
    } else if booking.status == "Confirmed" {
      statusClass := "confirmed";
    } else if booking.status == "Rejected" {
      statusClass := "rejected";
    }
    var icon := CardClassAndIcon(booking.packageName).icon;
    var requirements := if JsTruthy(booking.additionalRequirements) then Some(booking.additionalRequirements) else None;
    card := BookingCard(booking.fullName, booking.status, statusClass, booking.emailAddress,
                        booking.phoneNumber, icon, booking.packageName, booking.preferredDate,
                        booking.location, booking.expectedGuests, requirements,
                        ActionButtons(booking.bookingId, booking.status));
  }

  /** `renderBookings`: clears the list, then shows the placeholder or
      appends one card per booking. */
  method RenderBookings(container: Container, bookings: seq<BookingIn>)
    modifies container
    ensures container.children == BookingsView(bookings)
  {
    container.children := [];
    if |bookings| == 0 {
      container.children := [Placeholder(NoBookingsText)];
      return;
    }
    var i := 0;
    while i < |bookings|
      invariant 0 <= i <= |bookings|
      invariant |container.children| == i
      invariant forall k :: 0 <= k < i ==> container.children[k] == BookingCardOf(bookings[k])
    {
      var card := BuildBookingCard(bookings[i]);
      container.children := container.children + [card];
      i := i + 1;
    }
  }

  /** The inner `forEach` of `renderBusyDates`: the lines of one date. */
  method BuildBusyLines(bookings: Option<seq<BusyBookingIn>>) returns (lines: seq<BusyLine>)
    ensures lines == BusyLinesOf(bookings)
  {
    lines := [];
    if bookings.Some? && |bookings.value| > 0 {
      var list := bookings.value;
      var i := 0;
      while i < |list|
        invariant 0 <= i <= |list|
        invariant |lines| == i
        invariant forall k :: 0 <= k < i ==> lines[k] == Guest(list[k].fullName, list[k].packageName)
      {
        lines := lines + [Guest(list[i].fullName, list[i].packageName)];
        i := i + 1;
      }
    } else {
      lines := lines + [NoConfirmedBookings];
    }
  }

  /** `renderBusyDates`: clears the list, then shows the placeholder or
      appends one item per date with its lines. */
  method RenderBusyDates(container: Container, entries: seq<DateEntryIn>)
    modifies container
    ensures container.children == BusyDatesView(entries)
  {
    container.children := [];
    if |entries| == 0 {
      container.children := [Placeholder(NoBusyDatesText)];
      return;
    }
    var i := 0;
    while i < |entries|
      invariant 0 <= i <= |entries|
      invariant |container.children| == i
      invariant forall k :: 0 <= k < i ==>
        container.children[k] == BusyDateItem(entries[k].date, BusyLinesOf(entries[k].bookings))
    {
      var lines := BuildBusyLines(entries[i].bookings);
      container.children := container.children + [BusyDateItem(entries[i].date, lines)];
      i := i + 1;
    }
  }
}
