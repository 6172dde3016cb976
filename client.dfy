/** The browser-side decision rules of static/js/script.js: how a package
    is classified, which class and buttons a booking card gets, what a
    package card lists and prices, and what each form submit or admin
    action shows, requests and refreshes. `fetch` answers and `confirm()`
    dialogs are inputs. */
module Client {
  import opened Values
  import opened Text

  /** A JavaScript value inside a parsed JSON response. */
  datatype Js = Undefined | Null | Bool(b: bool) | Num(n: int) | Str(s: string) | Arr(items: seq<Js>)

  /** JavaScript truthiness: undefined, null, false, 0 and "" are falsy;
      every array is truthy, even an empty one. */
  predicate JsTruthy(v: Js)
    ensures JsTruthy(v) <==> v != Undefined && v != Js.Null && v != Js.Bool(false) && v != Js.Num(0) && v != Str("")
  {
    match v
    case Undefined => false
    case Null => false
    case Bool(b) => b
    case Num(n) => n != 0
    case Str(s) => s != ""
    case Arr(_) => true
  }

  // -----------------------------------------------------------------------
  // Package classification

  datatype CardStyle = CardStyle(cls: string, icon: string)

  /** The keyword table, in the order the keywords are tried. */
  const Categories: seq<(string, CardStyle)> := [
    ("birthday", CardStyle("birthday", "fas fa-birthday-cake")),
    ("dj", CardStyle("dj-night", "fas fa-music")),
    ("private", CardStyle("private-party", "fas fa-users")),
    ("wedding", CardStyle("wedding", "fas fa-heart")),
    ("corporate", CardStyle("corporate", "fas fa-building")),
    ("photo", CardStyle("photo-shoot", "fas fa-camera"))
  ]

  const DefaultStyle := CardStyle("default", "fas fa-star")

  /** The style of the first entry from `from` on whose keyword occurs in
      `name`, or the default style. */
  function FirstMatch(name: string, from: nat): (r: CardStyle)
    requires from <= |Categories|
    decreases |Categories| - from
  {
    if from == |Categories| then DefaultStyle
    else if Contains(name, Categories[from].0) then Categories[from].1
    else FirstMatch(name, from + 1)
  }

  /** `FirstMatch` returns the style of entry `i` exactly when keyword `i`
      occurs and no earlier keyword does, and the default style exactly
      when no keyword occurs. */
  lemma {:induction false} FirstMatchIsFirst(name: string, from: nat)
    requires from <= |Categories|
    ensures FirstMatch(name, from) == DefaultStyle <==>
      forall j :: from <= j < |Categories| ==> !Contains(name, Categories[j].0)
    ensures forall i :: from <= i < |Categories| ==>
      (FirstMatch(name, from) == Categories[i].1 <==>
        Contains(name, Categories[i].0) && forall j :: from <= j < i ==> !Contains(name, Categories[j].0))
    decreases |Categories| - from
  {
    StylesDistinct();
    if from < |Categories| {
      FirstMatchIsFirst(name, from + 1);
    }
  }

  lemma StylesDistinct()
    ensures forall i :: 0 <= i < |Categories| ==> Categories[i].1 != DefaultStyle
    ensures forall i, j :: 0 <= i < j < |Categories| ==> Categories[i].1 != Categories[j].1
  {
    assert forall i :: 0 <= i < |Categories| ==> Categories[i].1.cls != DefaultStyle.cls;
  }

  /** `getCardClassAndIcon`: the if-chain of the source, which agrees with
      the first match of the lower-cased name in the keyword table. */
  function CardClassAndIcon(packageName: string): (r: CardStyle)
    ensures r == FirstMatch(Lower(packageName), 0)
  {
    var lowerName := Lower(packageName);
    if Contains(lowerName, "birthday") then CardStyle("birthday", "fas fa-birthday-cake")
    else if Contains(lowerName, "dj") then CardStyle("dj-night", "fas fa-music")
    else if Contains(lowerName, "private") then CardStyle("private-party", "fas fa-users")
    else if Contains(lowerName, "wedding") then CardStyle("wedding", "fas fa-heart")
    else if Contains(lowerName, "corporate") then CardStyle("corporate", "fas fa-building")
    else if Contains(lowerName, "photo") then CardStyle("photo-shoot", "fas fa-camera")
    else CardStyle("default", "fas fa-star")
  }

  /** A keyword made of characters of which one is missing from a name
      cannot occur in it. */
  lemma NotContainsMissingChar(name: string, keyword: string, c: char)
    requires c in keyword && c !in name
    ensures !Contains(name, keyword)
  {
    var k :| 0 <= k < |keyword| && keyword[k] == c;
    forall i | 0 <= i <= |name| - |keyword|
      ensures !OccursAt(name, keyword, i)
    {
      assert name[i + k] != c;
    }
  }

  /** A name holding "BIRTHDAY" in capitals lower-cases to one holding
      "birthday", so it is classified as a birthday; the first keyword
      wins. */
  lemma BirthdayWins(packageName: string)
    requires Contains(packageName, "BIRTHDAY")
    ensures CardClassAndIcon(packageName).cls == "birthday"
  {
    ContainsLower(packageName, "BIRTHDAY");
    assert Lower("BIRTHDAY") == "birthday";
  }

  /** "Private Wedding" holds both "private" and "wedding"; "private" comes
      first in the table. */
  lemma PrivateWeddingIsPrivateParty()
    ensures CardClassAndIcon("Private Wedding") == CardStyle("private-party", "fas fa-users")
  {
    var lower := "private wedding";
    LowerPrivateWedding();
    NotContainsMissingChar(lower, "birthday", 'b');
    NotContainsMissingChar(lower, "dj", 'j');
    assert OccursAt(lower, "private", 0);
  }

  /** "Wedding Party" holds no keyword before "wedding". */
  lemma WeddingPartyIsWedding()
    ensures CardClassAndIcon("Wedding Party").cls == "wedding"
  {
    var lower := "wedding party";
    LowerWeddingParty();
    NotContainsMissingChar(lower, "birthday", 'b');
    NotContainsMissingChar(lower, "dj", 'j');
    NotContainsMissingChar(lower, "private", 'v');
    assert OccursAt(lower, "wedding", 0);
  }

  lemma LowerPrivateWedding()
    ensures Lower("Private Wedding") == "private wedding"
  {
  }

  lemma LowerWeddingParty()
    ensures Lower("Wedding Party") == "wedding party"
  {
  }

  // -----------------------------------------------------------------------
  // Booking cards

  /** The CSS class of a status badge. */
  function StatusClass(status: string): (r: string)
    ensures r == "pending-review" <==> status == "Pending Review"
    ensures r == "confirmed" <==> status == "Confirmed"
    ensures r == "rejected" <==> status == "Rejected"
    ensures r == "" <==> status != "Pending Review" && status != "Confirmed" && status != "Rejected"
  {
    if status == "Pending Review" then "pending-review"
    else if status == "Confirmed" then "confirmed"
    else if status == "Rejected" then "rejected"
    else ""
  }

  datatype ButtonKind = ConfirmButton | RejectButton | DeleteButton

  /** An action button with its `data-id` and, for a status change, its
      `data-status`. */
  datatype ActionButton = ActionButton(kind: ButtonKind, bookingId: Js, targetStatus: Option<string>)

  /** The buttons of a booking card, left to right. */
  function ActionButtons(bookingId: Js, status: string): (r: seq<ActionButton>)
    ensures (exists k :: 0 <= k < |r| && r[k].kind == ConfirmButton) <==> status != "Confirmed"
    ensures (exists k :: 0 <= k < |r| && r[k].kind == RejectButton) <==> status != "Rejected"
    ensures |r| > 0 && r[|r| - 1] == ActionButton(DeleteButton, bookingId, None)
    ensures |r| == (if status != "Confirmed" then 1 else 0) + (if status != "Rejected" then 1 else 0) + 1
    ensures forall k :: 0 <= k < |r| ==> r[k].bookingId == bookingId
    ensures forall k :: 0 <= k < |r| ==>
      (r[k].kind == ConfirmButton ==> r[k].targetStatus == Some("Confirmed")) &&
      (r[k].kind == RejectButton ==> r[k].targetStatus == Some("Rejected"))
  {
    var confirm := if status != "Confirmed" then [ActionButton(ConfirmButton, bookingId, Some("Confirmed"))] else [];
    var reject := if status != "Rejected" then [ActionButton(RejectButton, bookingId, Some("Rejected"))] else [];
    var r := confirm + reject + [ActionButton(DeleteButton, bookingId, None)];
    assert status != "Confirmed" ==> r[0].kind == ConfirmButton;
    assert status != "Rejected" ==> r[|confirm|].kind == RejectButton;
    r
  }

  /** A booking under review can be confirmed, rejected or deleted. */
  lemma PendingGetsAllButtons(bookingId: Js)
    ensures ActionButtons(bookingId, "Pending Review") == [
      ActionButton(ConfirmButton, bookingId, Some("Confirmed")),
      ActionButton(RejectButton, bookingId, Some("Rejected")),
      ActionButton(DeleteButton, bookingId, None)]
  {
  }

  // -----------------------------------------------------------------------
  // Package cards

  /** What a package card lists under "What's Included": the elements of
      an array, in order; the trimmed comma-separated pieces of a string;
      nothing for any other value. */
  function Inclusions(whatIncluded: Js): (items: seq<Js>)
    ensures whatIncluded.Arr? ==> items == whatIncluded.items
    ensures whatIncluded.Str? ==>
      (|items| == |SplitComma(whatIncluded.s)| &&
       forall k :: 0 <= k < |items| ==> items[k] == Str(Trim(SplitComma(whatIncluded.s)[k])))
    ensures !whatIncluded.Arr? && !whatIncluded.Str? ==> items == []
  {
    match whatIncluded
    case Arr(items) => items
    case Str(s) =>
      var pieces := SplitComma(s);
      seq(|pieces|, k requires 0 <= k < |pieces| => Str(Trim(pieces[k])))
    case _ => []
  }

  /** A string yields one more item than it has commas, and its pieces
      join back to the string, so no text is lost between the items. */
  lemma InclusionsOfText(s: string)
    ensures |Inclusions(Str(s))| == CountChar(s, ',') + 1
    ensures JoinComma(SplitComma(s)) == s
  {
    SplitCommaCount(s);
    SplitCommaRoundTrip(s);
  }

  /** The `forEach` that builds the inclusion list, item by item. */
  method BuildInclusions(whatIncluded: Js) returns (items: seq<Js>)
    ensures items == Inclusions(whatIncluded)
  {
    items := [];
    if whatIncluded.Arr? {
      var i := 0;
      while i < |whatIncluded.items|
        invariant 0 <= i <= |whatIncluded.items|
        invariant items == whatIncluded.items[..i]
      {
        items := items + [whatIncluded.items[i]];
        i := i + 1;
      }
      assert whatIncluded.items[..i] == whatIncluded.items;
    } else if whatIncluded.Str? {
      items := TrimmedPieces(whatIncluded.s);
    }
  }

  /** The string case: each comma-separated piece, trimmed. */
  method TrimmedPieces(s: string) returns (items: seq<Js>)
    ensures items == Inclusions(Str(s))
  {
    var pieces := SplitComma(s);
    items := TrimEach(pieces);
    ghost var expected := Inclusions(Str(s));
    assert forall k :: 0 <= k < |items| ==> items[k] == expected[k];
  }

  /** The `forEach` over the pieces: each one trimmed, in order. */
  method TrimEach(pieces: seq<string>) returns (items: seq<Js>)
    ensures |items| == |pieces|
    ensures forall k :: 0 <= k < |pieces| ==> items[k] == Str(Trim(pieces[k]))
  {
    items := [];
    var i := 0;
    while i < |pieces|
      invariant 0 <= i <= |pieces|
      invariant |items| == i
      invariant forall k :: 0 <= k < i ==> items[k] == Str(Trim(pieces[k]))
    {
      items := items + [Str(Trim(pieces[i]))];
      i := i + 1;
    }
  }

  /** The price line: the amount when the price is truthy, otherwise
      "Price on request". Number formatting is not modelled. */
  datatype PriceLabel = Amount(price: Js) | OnRequest

  function PriceLabelOf(price: Js): (r: PriceLabel)
    ensures r == OnRequest <==> !JsTruthy(price)
    ensures r.Amount? ==> r.price == price
  {
    if JsTruthy(price) then Amount(price) else OnRequest
  }

  // -----------------------------------------------------------------------
  // Outcomes of requests

  /** What a `fetch` followed by `response.json()` gave: an exception, or
      a response with its `ok` flag and the body's `message` field. */
  datatype FetchResult = Threw | Answered(ok: bool, message: Option<string>)

  datatype Kind = Success | Failure

  /** A message shown by `showMessage` in the message area. */
  datatype Notice = Notice(text: string, kind: Kind)

  /** `data.message || fallback`. */
  function MessageOr(message: Option<string>, fallback: string): (r: string)
    ensures message.Some? && message.value != "" ==> r == message.value
    ensures message.None? || message.value == "" ==> r == fallback
  {
    if message.Some? && message.value != "" then message.value else fallback
  }

  /** The text `showMessage` shows for `data.message` with no fallback: an
      absent message leaves the area empty. */
  function MessageText(message: Option<string>): (r: string)
    ensures message.Some? ==> r == message.value
    ensures message.None? ==> r == ""
  {
    if message.Some? then message.value else ""
  }

  datatype SubmitOutcome = SubmitOutcome(notice: Notice, reloadScheduled: bool)

  /** The outcome of submitting the booking form. */
  function BookingSubmitOutcome(result: FetchResult): (o: SubmitOutcome)
    ensures o.reloadScheduled <==> result.Answered? && result.ok
    ensures o.notice.kind == Success <==> result.Answered? && result.ok
    ensures result.Answered? && result.message.Some? && result.message.value != "" ==> o.notice.text == result.message.value
    ensures result.Answered? && result.ok && Blank(result.message) ==> o.notice.text == "Booking request submitted successfully!"
    ensures result.Answered? && !result.ok && Blank(result.message) ==> o.notice.text == "Booking submission failed. Please try again."
    ensures result == Threw ==> o.notice.text == "An error occurred. Please try again."
  {
    match result
    case Threw => SubmitOutcome(Notice("An error occurred. Please try again.", Failure), false)
    case Answered(ok, message) =>
      if ok then SubmitOutcome(Notice(MessageOr(message, "Booking request submitted successfully!"), Success), true)
      else SubmitOutcome(Notice(MessageOr(message, "Booking submission failed. Please try again."), Failure), false)
  }

  /** The three lists the admin dashboard can re-fetch. */
  datatype Refresh = RefreshStats | RefreshBookings | RefreshBusyDates

  /** An HTTP request: method, path and JSON body. */
  datatype Request = Request(verb: string, path: string, body: Option<map<string, Value>>)

  /** What an admin action does: the request it sends (if any), the message
      it shows (if any) and the lists it re-fetches. */
  datatype ActionOutcome = ActionOutcome(request: Option<Request>, notice: Option<Notice>, refresh: seq<Refresh>)

  /** The re-fetches after a successful admin action. */
  const RefreshAll: seq<Refresh> := [RefreshBookings, RefreshStats, RefreshBusyDates]

  /** The common tail of the admin actions: on an ok answer the server's
      message as success and all three lists re-fetched; otherwise an error
      with the server's message or `fallback`, or `thrown` on an exception. */
  function AfterRequest(request: Request, result: FetchResult, fallback: string, thrown: string): (o: ActionOutcome)
    ensures o.request == Some(request) && o.notice.Some?
    ensures o.refresh == (if result.Answered? && result.ok then RefreshAll else [])
    ensures o.notice.value.kind == Success <==> result.Answered? && result.ok
    ensures result == Threw ==> o.notice.value.text == thrown
    ensures result.Answered? && result.ok ==> o.notice.value.text == MessageText(result.message)
    ensures result.Answered? && !result.ok ==> o.notice.value.text == MessageOr(result.message, fallback)
  {
    match result
    case Threw => ActionOutcome(Some(request), Some(Notice(thrown, Failure)), [])
    case Answered(ok, message) =>
      if ok then ActionOutcome(Some(request), Some(Notice(MessageText(message), Success)), RefreshAll)
      else ActionOutcome(Some(request), Some(Notice(MessageOr(message, fallback), Failure)), [])
  }

  predicate Blank(v: Option<string>)
  {
    v.None? || v.value == ""
  }

  /** A Confirm or Reject click: `data-id` and `data-status` are read from
      the button; either missing sends nothing. */
  function UpdateStatusOutcome(bookingId: Option<string>, newStatus: Option<string>, result: FetchResult): (o: ActionOutcome)
    ensures Blank(bookingId) || Blank(newStatus) ==>
      o == ActionOutcome(None, Some(Notice("Error: Booking ID or new status is missing.", Failure)), [])
    ensures !Blank(bookingId) && !Blank(newStatus) ==>
      o.request == Some(Request("PUT", "/api/admin/bookings/" + bookingId.value + "/status",
                                Some(map["status" := Text(newStatus.value)])))
    ensures !Blank(bookingId) && !Blank(newStatus) ==>
      o == AfterRequest(Request("PUT", "/api/admin/bookings/" + bookingId.value + "/status",
                                Some(map["status" := Text(newStatus.value)])),
                        result, "Failed to update status.",
                        "An error occurred while updating status. Check console for details.")
    ensures o.refresh != [] <==> !Blank(bookingId) && !Blank(newStatus) && result.Answered? && result.ok
    ensures o.refresh != [] ==> o.refresh == RefreshAll
  {
    if Blank(bookingId) || Blank(newStatus) then
      ActionOutcome(None, Some(Notice("Error: Booking ID or new status is missing.", Failure)), [])
    else
      AfterRequest(Request("PUT", "/api/admin/bookings/" + bookingId.value + "/status",
                           Some(map["status" := Text(newStatus.value)])),
                   result, "Failed to update status.",
                   "An error occurred while updating status. Check console for details.")
  }

  /** A Delete click; `accepted` is the user's answer to the confirmation
      dialog. */
  function DeleteOutcome(bookingId: string, accepted: bool, result: FetchResult): (o: ActionOutcome)
    ensures !accepted ==> o == ActionOutcome(None, None, [])
    ensures accepted ==> o.request == Some(Request("DELETE", "/api/admin/bookings/" + bookingId, None))
    ensures accepted ==>
      o == AfterRequest(Request("DELETE", "/api/admin/bookings/" + bookingId, None), result,
                        "Failed to delete booking.", "An error occurred while deleting booking.")
    ensures o.refresh != [] <==> accepted && result.Answered? && result.ok
    ensures o.refresh != [] ==> o.refresh == RefreshAll
  {
    if !accepted then ActionOutcome(None, None, [])
    else AfterRequest(Request("DELETE", "/api/admin/bookings/" + bookingId, None), result,
                      "Failed to delete booking.", "An error occurred while deleting booking.")
  }

  /** The body clear-all sends. */
  const ClearAllBody: map<string, Value> := map["confirm_clear" := Value.Bool(true)]

  /** The "clear all bookings" click; `accepted` is the user's answer to the
      warning dialog. */
  function ClearAllOutcome(accepted: bool, result: FetchResult): (o: ActionOutcome)
    ensures !accepted ==> o == ActionOutcome(None, None, [])
    ensures accepted ==> o.request == Some(Request("DELETE", "/api/admin/clear-all-bookings", Some(ClearAllBody)))
    ensures accepted ==>
      o == AfterRequest(Request("DELETE", "/api/admin/clear-all-bookings", Some(ClearAllBody)), result,
                        "Failed to clear bookings.", "An error occurred while clearing bookings.")
    ensures o.refresh != [] <==> accepted && result.Answered? && result.ok
    ensures o.refresh != [] ==> o.refresh == RefreshAll
  {
    if !accepted then ActionOutcome(None, None, [])
    else AfterRequest(Request("DELETE", "/api/admin/clear-all-bookings", Some(ClearAllBody)), result,
                      "Failed to clear bookings.", "An error occurred while clearing bookings.")
  }

  datatype LogoutOutcome = GoToLogin | Alert(text: string)

  /** The logout click: an ok answer leaves for the login page, anything
      else alerts. */
  function LogoutResult(result: FetchResult): (o: LogoutOutcome)
    ensures o == GoToLogin <==> result.Answered? && result.ok
    ensures result == Threw ==> o == Alert("An error occurred during logout.")
    ensures result.Answered? && !result.ok ==> o == Alert(MessageOr(result.message, "Logout failed."))
  {
    match result
    case Threw => Alert("An error occurred during logout.")
    case Answered(ok, message) => if ok then GoToLogin else Alert(MessageOr(message, "Logout failed."))
  }

  // -----------------------------------------------------------------------
  // Dashboard data

  /** The stats fields the dashboard shows, in the order of its four
      counters. */
  const StatsFieldsRead: seq<string> := ["total_bookings", "pending_review", "confirmed", "rejected"]

  /** The four counters as shown: a field missing from the body shows as
      nothing. */
  function ShownStats(stats: map<string, nat>): (shown: seq<Option<nat>>)
    ensures |shown| == |StatsFieldsRead|
    ensures forall k :: 0 <= k < |shown| ==>
      (shown[k].Some? <==> StatsFieldsRead[k] in stats) &&
      (shown[k].Some? ==> shown[k].value == stats[StatsFieldsRead[k]])
  {
    seq(|StatsFieldsRead|, k requires 0 <= k < |StatsFieldsRead| =>
      if StatsFieldsRead[k] in stats then Some(stats[StatsFieldsRead[k]]) else None)
  }

  /** The filter value sent with the bookings request: the select's value,
      or "All" when the page has no filter select. */
  function BookingFilter(select: Option<string>): (f: string)
    ensures select.None? ==> f == "All"
    ensures select.Some? ==> f == select.value
  {
    if select.Some? then select.value else "All"
  }
}
