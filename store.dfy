/** The Flask application's booking store (app.py): the `bookings`,
    `busy_dates`, `event_packages` and `users` tables held as maps and
    sets, the login session, and one method per JSON endpoint. */
module Store {
  import opened Values
  import opened Text
  import opened Ordering

  /** A calendar date as the `DATE` columns hold it, written "YYYY-MM-DD";
      the model never looks inside one except to order them. */
  type Date = string

  datatype Status = PendingReview | Confirmed | Rejected

  /** The text of a status as stored in the `status` column. */
  function StatusName(s: Status): string
  {
    match s
    case PendingReview => "Pending Review"
    case Confirmed => "Confirmed"
    case Rejected => "Rejected"
  }

  /** The statuses in the order the stats endpoint visits them. */
  const AllStatuses: seq<Status> := [PendingReview, Confirmed, Rejected]

  /** The whitelist check on a requested status: only the three status
      texts are accepted, each naming its own status. */
  function ParseStatus(v: Value): (r: Option<Status>)
    ensures r.Some? <==> v == Text("Pending Review") || v == Text("Confirmed") || v == Text("Rejected")
    ensures r.Some? ==> v == Text(StatusName(r.value))
  {
    if v == Text("Pending Review") then Some(PendingReview)
    else if v == Text("Confirmed") then Some(Confirmed)
    else if v == Text("Rejected") then Some(Rejected)
    else None
  }

  /** A row of the `bookings` table. Columns hold the request's values as
      sent; `bookingDate` is the insertion timestamp. */
  datatype Booking = Booking(
    packageId: Value,
    fullName: Value,
    phoneNumber: Value,
    emailAddress: Value,
    preferredDate: Date,
    location: Value,
    expectedGuests: Value,
    additionalRequirements: Value,
    status: Status,
    bookingDate: int)

  /** A row of the `users` table. */
  datatype User = User(userId: int, passwordHash: Value, role: string)

  /** A response whose JSON body is `{"message": ...}`. */
  datatype Response = Response(code: int, message: string)

  /** A response of a data endpoint: the data with code 200, or an error
      message. */
  datatype Reply<T> = Data(value: T) | Failure(code: int, message: string)

  const UnauthorizedMessage := "Unauthorized. Admin login required."

  /** One row of `GET /api/admin/bookings`: the booking joined with its
      package's name. */
  datatype BookingRow = BookingRow(bookingId: nat, booking: Booking, packageName: string)

  /** One line of a busy date: who booked and which package. */
  datatype BusyBooking = BusyBooking(fullName: Value, packageName: string)

  datatype BusyDateEntry = BusyDateEntry(date: Date, bookings: seq<BusyBooking>)

  // -----------------------------------------------------------------------
  // Sessions

  /** `is_admin_logged_in`: the session holds a `user_id` and its `role`
      is "admin". */
  predicate IsAdminSession(session: map<string, Value>)
    ensures IsAdminSession(session) <==>
      "user_id" in session && "role" in session && session["role"] == Text("admin")
  {
    "user_id" in session && Get(session, "role") == Text("admin")
  }

  // -----------------------------------------------------------------------
  // Request validation

  const RequiredFields: seq<string> :=
    ["package_id", "full_name", "phone_number", "email_address", "preferred_date", "location"]

  /** `all(data.get(field) for field in fields)`. */
  function AllPresent(data: map<string, Value>, fields: seq<string>): (r: bool)
    ensures r <==> forall k :: 0 <= k < |fields| ==> Truthy(Get(data, fields[k]))
  {
    if |fields| == 0 then true
    else Truthy(Get(data, fields[0])) && AllPresent(data, fields[1..])
  }

  /** The required-field check of `create_booking`: each of the six
      fields is present with a truthy value; the guest count and the
      additional requirements are optional. */
  predicate HasRequiredFields(data: map<string, Value>)
    ensures HasRequiredFields(data) <==>
      "package_id" in data && Truthy(data["package_id"]) &&
      "full_name" in data && Truthy(data["full_name"]) &&
      "phone_number" in data && Truthy(data["phone_number"]) &&
      "email_address" in data && Truthy(data["email_address"]) &&
      "preferred_date" in data && Truthy(data["preferred_date"]) &&
      "location" in data && Truthy(data["location"])
  {
    assert RequiredFields[0] == "package_id" && RequiredFields[1] == "full_name";
    assert RequiredFields[2] == "phone_number" && RequiredFields[3] == "email_address";
    assert RequiredFields[4] == "preferred_date" && RequiredFields[5] == "location";
    AllPresent(data, RequiredFields)
  }

  /** Outcome of the checks on a status-update body. */
  datatype StatusCheck = MissingStatus | InvalidStatus | NewStatus(status: Status)

  /** The two checks at the top of `update_booking_status`: a body that is
      null, empty or without "status" is refused first; then a status
      outside the whitelist. */
  function CheckStatusRequest(data: Option<map<string, Value>>): (r: StatusCheck)
    ensures r == MissingStatus <==> data.None? || "status" !in data.value
    ensures r == InvalidStatus <==> data.Some? && "status" in data.value && ParseStatus(data.value["status"]).None?
    ensures r.NewStatus? ==> data.Some? && "status" in data.value && data.value["status"] == Text(StatusName(r.status))
  {
    if data.None? || data.value == map[] || "status" !in data.value then MissingStatus
    else match ParseStatus(data.value["status"])
      case None => InvalidStatus
      case Some(s) => NewStatus(s)
  }

  /** `not data or not data.get('confirm_clear', False)` is false. */
  predicate ClearConfirmed(data: Option<map<string, Value>>)
    ensures ClearConfirmed(data) <==>
      data.Some? && "confirm_clear" in data.value && Truthy(data.value["confirm_clear"])
  {
    data.Some? && data.value != map[] && Truthy(Get(data.value, "confirm_clear"))
  }

  // -----------------------------------------------------------------------
  // Busy-date bookkeeping, as functions of the tables

  /** Ids of the bookings confirmed for date `d`. */
  function ConfirmedOn(bs: map<nat, Booking>, d: Date): (r: set<nat>)
    ensures r <= bs.Keys
    ensures forall id :: id in bs ==> (id in r <==> bs[id].status == Confirmed && bs[id].preferredDate == d)
  {
    set id | id in bs && bs[id].status == Confirmed && bs[id].preferredDate == d
  }

  /** The dates the busy-date table should hold: the preferred dates of
      the confirmed bookings. */
  function ConfirmedDates(bs: map<nat, Booking>): set<Date>
  {
    set id | id in bs && bs[id].status == Confirmed :: bs[id].preferredDate
  }

  /** The busy-date table after a booking on date `d` moves from `oldStatus`
      to `newStatus`, `after` being the bookings table once the status is
      written: confirming upserts the date; leaving Confirmed deletes it
      when no confirmed booking on it remains. */
  function BusyAfterUpdate(busy: set<Date>, after: map<nat, Booking>, d: Date, oldStatus: Status, newStatus: Status): (r: set<Date>)
    ensures forall e :: e != d ==> (e in r <==> e in busy)
    ensures d in r <==>
      newStatus == Confirmed || (d in busy && (oldStatus != Confirmed || |ConfirmedOn(after, d)| > 0))
  {
    var added := if newStatus == Confirmed then busy + {d} else busy;
    if oldStatus == Confirmed && newStatus != Confirmed && |ConfirmedOn(after, d)| == 0 then added - {d}
    else added
  }

  /** The busy-date table after deleting booking `b`, `after` being the
      bookings table without it. */
  function BusyAfterDelete(busy: set<Date>, after: map<nat, Booking>, b: Booking): (r: set<Date>)
    ensures r <= busy
    ensures forall e :: e != b.preferredDate ==> (e in r <==> e in busy)
    ensures b.preferredDate in r <==>
      b.preferredDate in busy && (b.status != Confirmed || |ConfirmedOn(after, b.preferredDate)| > 0)
  {
    if b.status == Confirmed && |ConfirmedOn(after, b.preferredDate)| == 0 then busy - {b.preferredDate}
    else busy
  }

  lemma ConfirmedOnEmpty(bs: map<nat, Booking>, d: Date)
    ensures |ConfirmedOn(bs, d)| == 0 <==> d !in ConfirmedDates(bs)
  {
    if d in ConfirmedDates(bs) {
      var id :| id in bs && bs[id].status == Confirmed && bs[id].preferredDate == d;
      assert id in ConfirmedOn(bs, d);
    } else {
      assert ConfirmedOn(bs, d) == {};
    }
  }

  /** The status update keeps the busy-date table equal to the dates of
      the confirmed bookings. */
  lemma UpdateKeepsBusyConsistent(bs: map<nat, Booking>, busy: set<Date>, id: nat, s: Status)
    requires id in bs && busy == ConfirmedDates(bs)
    ensures var after := bs[id := bs[id].(status := s)];
      BusyAfterUpdate(busy, after, bs[id].preferredDate, bs[id].status, s) == ConfirmedDates(after)
  {
    var b := bs[id];
    var after := bs[id := b.(status := s)];
    var d := b.preferredDate;
    var result := BusyAfterUpdate(busy, after, d, b.status, s);
    ConfirmedOnEmpty(after, d);
    forall e | e != d
      ensures e in result <==> e in ConfirmedDates(after)
    {
      if e in ConfirmedDates(bs) {
        var j :| j in bs && bs[j].status == Confirmed && bs[j].preferredDate == e;
        assert j in after && after[j] == bs[j];
      }
      if e in ConfirmedDates(after) {
        var j :| j in after && after[j].status == Confirmed && after[j].preferredDate == e;
        assert j != id && bs[j] == after[j];
      }
    }
    if s == Confirmed {
      assert d in ConfirmedDates(after) by { assert id in after && after[id].status == Confirmed; }
    } else if b.status != Confirmed {
      ConfirmedOnEmpty(bs, d);
      assert ConfirmedOn(bs, d) == ConfirmedOn(after, d);
    }
  }

  /** Deleting a booking keeps the busy-date table equal to the dates of
      the confirmed bookings. */
  lemma DeleteKeepsBusyConsistent(bs: map<nat, Booking>, busy: set<Date>, id: nat)
    requires id in bs && busy == ConfirmedDates(bs)
    ensures BusyAfterDelete(busy, bs - {id}, bs[id]) == ConfirmedDates(bs - {id})
  {
    var b := bs[id];
    var after := bs - {id};
    var result := BusyAfterDelete(busy, after, b);
    ConfirmedOnEmpty(after, b.preferredDate);
    forall e | e != b.preferredDate
      ensures e in result <==> e in ConfirmedDates(after)
    {
      if e in ConfirmedDates(bs) {
        var j :| j in bs && bs[j].status == Confirmed && bs[j].preferredDate == e;
        assert j in after;
      }
    }
    if b.status != Confirmed {
      ConfirmedOnEmpty(bs, b.preferredDate);
      assert ConfirmedOn(bs, b.preferredDate) == ConfirmedOn(after, b.preferredDate);
    }
  }

  /** Adding a booking that is not Confirmed under a fresh id leaves the
      confirmed dates alone. */
  lemma InsertKeepsConfirmedDates(bs: map<nat, Booking>, id: nat, b: Booking)
    requires id !in bs && b.status != Confirmed
    ensures ConfirmedDates(bs[id := b]) == ConfirmedDates(bs)
  {
    var after := bs[id := b];
    forall e | e in ConfirmedDates(bs)
      ensures e in ConfirmedDates(after)
    {
      var j :| j in bs && bs[j].status == Confirmed && bs[j].preferredDate == e;
      assert j in after && after[j] == bs[j];
    }
  }

  /** Confirming a booking sets its status and makes its date busy;
      confirming it again changes nothing, since the date is upserted. */
  lemma ReconfirmIdempotent(bs: map<nat, Booking>, busy: set<Date>, id: nat)
    requires id in bs
    ensures var once := bs[id := bs[id].(status := Confirmed)];
      var busyOnce := BusyAfterUpdate(busy, once, bs[id].preferredDate, bs[id].status, Confirmed);
      once[id].status == Confirmed && bs[id].preferredDate in busyOnce &&
      once[id := once[id].(status := Confirmed)] == once &&
      BusyAfterUpdate(busyOnce, once, once[id].preferredDate, once[id].status, Confirmed) == busyOnce
  {
  }

  /** When a booking leaves Confirmed, its date is taken off the busy
      table when no confirmed booking remains on it, and the table is left
      as it was otherwise; no other date changes. */
  lemma LeavingConfirmedFreesDate(busy: set<Date>, after: map<nat, Booking>, d: Date, s: Status, e: Date)
    requires s != Confirmed
    ensures ConfirmedOn(after, d) == {} ==> d !in BusyAfterUpdate(busy, after, d, Confirmed, s)
    ensures ConfirmedOn(after, d) != {} ==> BusyAfterUpdate(busy, after, d, Confirmed, s) == busy
    ensures e != d ==> (e in BusyAfterUpdate(busy, after, d, Confirmed, s) <==> e in busy)
  {
    if ConfirmedOn(after, d) == {} {
      assert |ConfirmedOn(after, d)| == 0;
    }
  }

  // -----------------------------------------------------------------------
  // Query semantics

  /** Ids of the bookings with status `s`. */
  function WithStatus(bs: map<nat, Booking>, s: Status): set<nat>
  {
    set id | id in bs && bs[id].status == s
  }

  /** `SELECT COUNT(*) FROM bookings WHERE status = s`. */
  function CountWithStatus(bs: map<nat, Booking>, s: Status): (r: nat)
    ensures r <= |bs|
    ensures r == 0 <==> forall id :: id in bs ==> bs[id].status != s
  {
    var w := WithStatus(bs, s);
    SubsetCardinality(w, bs.Keys);
    assert forall id :: id in bs && bs[id].status == s ==> id in w;
    |w|
  }

  /** A subset is no larger than its superset. */
  lemma {:induction false} SubsetCardinality<T>(a: set<T>, b: set<T>)
    requires a <= b
    ensures |a| <= |b|
    decreases |a|
  {
    if a != {} {
      var x :| x in a;
      SubsetCardinality(a - {x}, b - {x});
    }
  }

  /** The key of a status in the stats body: `status.lower().replace(' ', '_')`. */
  function StatsKey(status: string): (r: string)
    ensures |r| == |status|
    ensures forall i :: 0 <= i < |r| ==> r[i] != ' ' && !IsUpper(r[i])
    ensures forall i :: 0 <= i < |r| ==> status[i] == ' ' ==> r[i] == '_'
  {
    ReplaceChar(Lower(status), ' ', '_')
  }

  /** The status keys of the stats body, in the order of `AllStatuses`. */
  const StatusKeys: seq<string> := ["pending_review", "confirmed", "rejected"]

  /** The four keys of the stats body. */
  lemma StatsKeys()
    ensures StatsKey(StatusName(PendingReview)) == "pending_review"
    ensures StatsKey(StatusName(Confirmed)) == "confirmed"
    ensures StatsKey(StatusName(Rejected)) == "rejected"
  {
    assert StatsKey("Pending Review") == "pending_review" by {
      var k := StatsKey("Pending Review");
      assert k[0] == 'p' && k[1] == 'e' && k[2] == 'n' && k[3] == 'd' && k[4] == 'i' && k[5] == 'n' && k[6] == 'g';
      assert k[7] == '_' && k[8] == 'r' && k[9] == 'e' && k[10] == 'v' && k[11] == 'i' && k[12] == 'e' && k[13] == 'w';
    }
    assert StatsKey("Confirmed") == "confirmed" by {
      var k := StatsKey("Confirmed");
      assert k[0] == 'c' && k[1] == 'o' && k[2] == 'n' && k[3] == 'f' && k[4] == 'i' && k[5] == 'r' && k[6] == 'm';
      assert k[7] == 'e' && k[8] == 'd';
    }
    assert StatsKey("Rejected") == "rejected" by {
      var k := StatsKey("Rejected");
      assert k[0] == 'r' && k[1] == 'e' && k[2] == 'j' && k[3] == 'e' && k[4] == 'c' && k[5] == 't' && k[6] == 'e';
      assert k[7] == 'd';
    }
  }

  lemma StatusKeysDistinct()
    ensures "total_bookings" !in StatusKeys
    ensures forall k, j :: 0 <= k < j < |StatusKeys| ==> StatusKeys[k] != StatusKeys[j]
  {
    assert StatusKeys[0] != StatusKeys[1] && StatusKeys[1] != StatusKeys[2] && StatusKeys[0] != StatusKeys[2];
  }

  lemma StatsKeyAt(i: int)
    requires 0 <= i < |AllStatuses|
    ensures StatsKey(StatusName(AllStatuses[i])) == StatusKeys[i]
  {
    StatsKeys();
  }

  /** Every booking has exactly one of the three statuses, so the three
      status counters add up to the total. */
  lemma StatsPartition(bs: map<nat, Booking>)
    ensures CountWithStatus(bs, PendingReview) + CountWithStatus(bs, Confirmed) + CountWithStatus(bs, Rejected) == |bs|
  {
    var p := WithStatus(bs, PendingReview);
    var c := WithStatus(bs, Confirmed);
    var r := WithStatus(bs, Rejected);
    forall id | id in bs
      ensures id in p + c + r
    {
      match bs[id].status
      case PendingReview => assert id in p;
      case Confirmed => assert id in c;
      case Rejected => assert id in r;
    }
    assert bs.Keys == p + c + r;
    assert p * c == {};
    assert (p + c) * r == {};
    assert |p + c| == |p| + |c|;
    assert |p + c + r| == |p + c| + |r|;
  }

  /** Loop state of the stats endpoint: the total and the first `i`
      status counters are in, under their keys, and nothing else. */
  ghost predicate StatsSoFar(stats: map<string, nat>, bs: map<nat, Booking>, i: nat)
    requires i <= |StatusKeys|
  {
    (forall key :: key in stats <==> key == "total_bookings" || key in StatusKeys[..i]) &&
    "total_bookings" in stats && stats["total_bookings"] == |bs| &&
    forall k :: 0 <= k < i ==> StatusKeys[k] in stats && stats[StatusKeys[k]] == CountWithStatus(bs, AllStatuses[k])
  }

  lemma StatsStep(stats: map<string, nat>, bs: map<nat, Booking>, i: nat)
    requires i < |StatusKeys| && StatsSoFar(stats, bs, i)
    ensures StatsSoFar(stats[StatusKeys[i] := CountWithStatus(bs, AllStatuses[i])], bs, i + 1)
  {
    StatusKeysDistinct();
    assert StatusKeys[..i + 1] == StatusKeys[..i] + [StatusKeys[i]];
  }

  lemma StatsDone(stats: map<string, nat>, bs: map<nat, Booking>)
    requires StatsSoFar(stats, bs, 3)
    ensures stats.Keys == {"total_bookings", "pending_review", "confirmed", "rejected"}
    ensures stats["total_bookings"] == |bs|
    ensures stats["pending_review"] == CountWithStatus(bs, PendingReview)
    ensures stats["confirmed"] == CountWithStatus(bs, Confirmed)
    ensures stats["rejected"] == CountWithStatus(bs, Rejected)
  {
    assert StatusKeys[..3] == StatusKeys;
    assert StatusKeys[0] in stats && StatusKeys[1] in stats && StatusKeys[2] in stats;
  }

  /** The status filter of the bookings listing: absent, empty or "All"
      means every status. */
  predicate FilterSelects(statusFilter: Option<string>, s: Status)
    ensures statusFilter.None? || statusFilter.value == "" || statusFilter.value == "All" ==> FilterSelects(statusFilter, s)
    ensures statusFilter.Some? && statusFilter.value != "" && statusFilter.value != "All" ==>
      (FilterSelects(statusFilter, s) <==> StatusName(s) == statusFilter.value)
  {
    statusFilter.None? || statusFilter.value == "" || statusFilter.value == "All" || StatusName(s) == statusFilter.value
  }

  /** Booking dates by id, the key of both `ORDER BY b.booking_date`. */
  function BookingDates(bs: map<nat, Booking>): (key: map<nat, int>)
    ensures key.Keys == bs.Keys
  {
    map id | id in bs :: bs[id].bookingDate
  }

  /** Ids the bookings listing returns: the inner join with the package
      table drops bookings of unknown packages. */
  function ListedIds(bs: map<nat, Booking>, packages: map<Value, string>, statusFilter: Option<string>): (r: set<nat>)
    ensures r <= bs.Keys
    ensures forall id :: id in bs ==>
      (id in r <==> bs[id].packageId in packages && FilterSelects(statusFilter, bs[id].status))
  {
    set id | id in bs && bs[id].packageId in packages && FilterSelects(statusFilter, bs[id].status)
  }

  /** Ids listed under a busy date: its confirmed bookings whose package
      exists. */
  function BusyIds(bs: map<nat, Booking>, packages: map<Value, string>, d: Date): (r: set<nat>)
    ensures r <= ConfirmedOn(bs, d)
    ensures forall id :: id in ConfirmedOn(bs, d) ==> (id in r <==> bs[id].packageId in packages)
  {
    set id | id in bs && bs[id].status == Confirmed && bs[id].preferredDate == d && bs[id].packageId in packages
  }

  function DecimalDigit(n: nat): (c: char)
    requires n < 10
    ensures c as int == '0' as int + n
  {
    "0123456789"[n]
  }

  /** `str(n)` for a non-negative integer: decimal digits without a
      leading zero. */
  function DecimalString(n: nat): (r: string)
    ensures |r| >= 1 && (|r| == 1 <==> n < 10)
    ensures forall i :: 0 <= i < |r| ==> '0' <= r[i] <= '9'
    ensures n > 0 ==> r[0] != '0'
  {
    if n < 10 then [DecimalDigit(n)] else DecimalString(n / 10) + [DecimalDigit(n % 10)]
  }

  /** The number a string of decimal digits denotes. */
  function DecimalValue(s: string): nat
    requires forall i :: 0 <= i < |s| ==> '0' <= s[i] <= '9'
  {
    if |s| == 0 then 0
    else DecimalValue(s[..|s| - 1]) * 10 + (s[|s| - 1] as int - '0' as int)
  }

  /** Reading back the digits of `str(n)` gives `n`. */
  lemma {:induction false} DecimalRoundTrip(n: nat)
    ensures DecimalValue(DecimalString(n)) == n
  {
    if n >= 10 {
      var r := DecimalString(n);
      assert r[..|r| - 1] == DecimalString(n / 10);
      DecimalRoundTrip(n / 10);
    }
  }

  // -----------------------------------------------------------------------
  // The store

  class BookingStore {
    var bookings: map<nat, Booking>
    var busyDates: set<Date>
    var session: map<string, Value>
    /** The next value of the `bookings` AUTO_INCREMENT key. */
    var nextId: nat
    /** `event_packages`: package id to package name; no endpoint here
        writes it. */
    const packages: map<Value, string>
    /** `users`, keyed by user name. */
    const users: map<string, User>

    /** Every stored id was handed out before. */
    ghost predicate Valid()
      reads this
    {
      forall id :: id in bookings ==> id < nextId
    }

    /** The busy-date table holds exactly the dates of confirmed bookings. */
    ghost predicate BusyConsistent()
      reads this
    {
      busyDates == ConfirmedDates(bookings)
    }

    constructor (packages: map<Value, string>, users: map<string, User>)
      ensures Valid() && BusyConsistent()
      ensures bookings == map[] && busyDates == {} && session == map[] && nextId == 1
      ensures this.packages == packages && this.users == users
    {
      bookings := map[];
      busyDates := {};
      session := map[];
      nextId := 1;
      this.packages := packages;
      this.users := users;
    }

    /** `POST /api/book-event`. The database supplies the new id (the
        AUTO_INCREMENT counter), the status (Pending Review) and the booking
        timestamp, here the parameter `now`. */
    method CreateBooking(data: map<string, Value>, now: int) returns (resp: Response, bookingId: Option<nat>)
      requires Valid()
      modifies this
      ensures Valid()
      ensures session == old(session)
      ensures old(BusyConsistent()) ==> BusyConsistent()
      ensures !HasRequiredFields(data) ==>
        resp == Response(400, "Missing required fields") && bookingId.None? &&
        bookings == old(bookings) && busyDates == old(busyDates) && nextId == old(nextId)
      ensures HasRequiredFields(data) && !Get(data, "preferred_date").Text? ==>
        resp.code == 500 && bookingId.None? &&
        bookings == old(bookings) && busyDates == old(busyDates) && nextId == old(nextId)
      ensures HasRequiredFields(data) && Get(data, "preferred_date").Text? ==>
        resp == Response(201, "Booking request submitted successfully!") &&
        bookingId == Some(old(nextId)) && old(nextId) !in old(bookings) &&
        bookings == old(bookings)[old(nextId) := Booking(
          data["package_id"], data["full_name"], data["phone_number"], data["email_address"],
          data["preferred_date"].s, data["location"],
          Get(data, "expected_guests"), Get(data, "additional_requirements"),
          PendingReview, now)] &&
        busyDates == old(busyDates) && nextId == old(nextId) + 1
    {
      if !HasRequiredFields(data) {
        return Response(400, "Missing required fields"), None;
      }
      var date := data["preferred_date"];
      if !date.Text? {
        // a DATE column does not take a non-text value
        return Response(500, "Database error: incorrect date value"), None;
      }
      var b := Booking(
        data["package_id"], data["full_name"], data["phone_number"], data["email_address"],
        date.s, data["location"],
        Get(data, "expected_guests"), Get(data, "additional_requirements"),
        PendingReview, now);
      InsertKeepsConfirmedDates(bookings, nextId, b);
      bookings := bookings[nextId := b];
      bookingId := Some(nextId);
      nextId := nextId + 1;
      resp := Response(201, "Booking request submitted successfully!");
    }

    /** `POST /api/admin/login`: on matching credentials of an admin user,
        the session gains `user_id`, `username` and `role`. */
    method AdminLogin(data: map<string, Value>) returns (resp: Response)
      modifies this`session
      ensures var name := Get(data, "username");
        if name.Text? && name.s in users && users[name.s].role == "admin"
           && users[name.s].passwordHash == Get(data, "password")
        then resp == Response(200, "Login successful") &&
          session == old(session)["user_id" := Num(users[name.s].userId)]
                                 ["username" := name]["role" := Text("admin")] &&
          IsAdminSession(session)
        else resp == Response(401, "Invalid credentials or not an admin") && session == old(session)
    {
      var name := Get(data, "username");
      if name.Text? && name.s in users && users[name.s].role == "admin" {
        var user := users[name.s];
        if user.passwordHash == Get(data, "password") {
          session := session["user_id" := Num(user.userId)]["username" := name]["role" := Text(user.role)];
          return Response(200, "Login successful");
        }
      }
      resp := Response(401, "Invalid credentials or not an admin");
    }

    /** `POST /api/admin/logout`: the session is emptied. */
    method AdminLogout() returns (resp: Response)
      modifies this`session
      ensures session == map[] && !IsAdminSession(session)
      ensures resp == Response(200, "Logged out successfully")
    {
      session := map[];
      resp := Response(200, "Logged out successfully");
    }

    /** `GET /api/admin/stats`: the number of bookings and, under the key
        derived from each status text, the number with that status. */
    method FetchDashboardStats() returns (r: Reply<map<string, nat>>)
      ensures !IsAdminSession(session) ==> r == Failure(401, UnauthorizedMessage)
      ensures IsAdminSession(session) ==> (r.Data? &&
        r.value.Keys == {"total_bookings", "pending_review", "confirmed", "rejected"} &&
        r.value["total_bookings"] == |bookings| &&
        r.value["pending_review"] == CountWithStatus(bookings, PendingReview) &&
        r.value["confirmed"] == CountWithStatus(bookings, Confirmed) &&
        r.value["rejected"] == CountWithStatus(bookings, Rejected))
    {
      if !IsAdminSession(session) {
        return Failure(401, UnauthorizedMessage);
      }
      var stats: map<string, nat> := map["total_bookings" := |bookings|];
      StatusKeysDistinct();
      var i := 0;
      while i < |AllStatuses|
        invariant 0 <= i <= |AllStatuses|
        invariant StatsSoFar(stats, bookings, i)
      {
        var status := AllStatuses[i];
        var key := StatsKey(StatusName(status));
        StatsKeyAt(i);
        StatsStep(stats, bookings, i);
        stats := stats[key := CountWithStatus(bookings, status)];
        i := i + 1;
      }
      StatsDone(stats, bookings);
      r := Data(stats);
    }

    /** `GET /api/admin/bookings?status=...`: the bookings of known packages
        that pass the status filter, latest booking first. */
    method GetAllBookings(statusFilter: Option<string>) returns (r: Reply<seq<BookingRow>>)
      ensures !IsAdminSession(session) ==> r == Failure(401, UnauthorizedMessage)
      ensures IsAdminSession(session) ==> (r.Data? &&
        (forall k :: 0 <= k < |r.value| ==>
          var row := r.value[k];
          row.bookingId in bookings && row.booking == bookings[row.bookingId] &&
          row.booking.packageId in packages && row.packageName == packages[row.booking.packageId]) &&
        EnumeratesByKey(seq(|r.value|, k requires 0 <= k < |r.value| => r.value[k].bookingId),
                        ListedIds(bookings, packages, statusFilter), BookingDates(bookings), true))
    {
      if !IsAdminSession(session) {
        return Failure(401, UnauthorizedMessage);
      }
      var listed := ListedIds(bookings, packages, statusFilter);
      var ids := OrderByKey(listed, BookingDates(bookings), true);
      assert forall k :: 0 <= k < |ids| ==> ids[k] in (set x | x in ids);
      assert forall k :: 0 <= k < |ids| ==> ids[k] in listed;
      var rows: seq<BookingRow> := [];
      var i := 0;
      while i < |ids|
        invariant 0 <= i <= |ids|
        invariant |rows| == i
        invariant forall k :: 0 <= k < |ids| ==> ids[k] in listed
        invariant forall k :: 0 <= k < i ==> (rows[k].bookingId == ids[k] && ids[k] in bookings &&
          rows[k].booking == bookings[ids[k]] && bookings[ids[k]].packageId in packages &&
          rows[k].packageName == packages[bookings[ids[k]].packageId])
      {
        var id := ids[i];
        rows := rows + [BookingRow(id, bookings[id], packages[bookings[id].packageId])];
        i := i + 1;
      }
      assert seq(|rows|, k requires 0 <= k < |rows| => rows[k].bookingId) == ids;
      r := Data(rows);
    }

    /** `PUT /api/admin/bookings/<id>/status`. */
    method UpdateBookingStatus(bookingId: nat, data: Option<map<string, Value>>) returns (resp: Response)
      requires Valid()
      modifies this`bookings, this`busyDates
      ensures Valid()
      ensures old(BusyConsistent()) ==> BusyConsistent()
      ensures var check := CheckStatusRequest(data);
        if !IsAdminSession(session) then
          resp == Response(401, UnauthorizedMessage) && bookings == old(bookings) && busyDates == old(busyDates)
        else if check == MissingStatus then
          resp == Response(400, "Invalid request: status field is required.") &&
          bookings == old(bookings) && busyDates == old(busyDates)
        else if check == InvalidStatus then
          resp == Response(400, "Invalid status provided") && bookings == old(bookings) && busyDates == old(busyDates)
        else if bookingId !in old(bookings) then
          resp == Response(404, "Booking not found") && bookings == old(bookings) && busyDates == old(busyDates)
        else
          var b := old(bookings)[bookingId];
          resp == Response(200, "Booking " + DecimalString(bookingId) + " status updated to " + StatusName(check.status) + ".") &&
          bookings == old(bookings)[bookingId := b.(status := check.status)] &&
          busyDates == BusyAfterUpdate(old(busyDates), bookings, b.preferredDate, b.status, check.status)
    {
      if !IsAdminSession(session) {
        return Response(401, UnauthorizedMessage);
      }
      var check := CheckStatusRequest(data);
      if check == MissingStatus {
        return Response(400, "Invalid request: status field is required.");
      }
      if check == InvalidStatus {
        return Response(400, "Invalid status provided");
      }
      var newStatus := check.status;
      if bookingId !in bookings {
        return Response(404, "Booking not found");
      }
      var b := bookings[bookingId];
      if BusyConsistent() {
        UpdateKeepsBusyConsistent(bookings, busyDates, bookingId, newStatus);
      }
      bookings := bookings[bookingId := b.(status := newStatus)];
      if newStatus == Confirmed {
        busyDates := busyDates + {b.preferredDate};
      }
      if b.status == Confirmed && newStatus != Confirmed {
        var remaining := |ConfirmedOn(bookings, b.preferredDate)|;
        if remaining == 0 {
          busyDates := busyDates - {b.preferredDate};
        }
      }
      resp := Response(200, "Booking " + DecimalString(bookingId) + " status updated to " + StatusName(newStatus) + ".");
    }

    /** `DELETE /api/admin/bookings/<id>`. */
    method DeleteBooking(bookingId: nat) returns (resp: Response)
      requires Valid()
      modifies this`bookings, this`busyDates
      ensures Valid()
      ensures old(BusyConsistent()) ==> BusyConsistent()
      ensures if !IsAdminSession(session) then
          resp == Response(401, UnauthorizedMessage) && bookings == old(bookings) && busyDates == old(busyDates)
        else if bookingId !in old(bookings) then
          resp == Response(404, "Booking not found") && bookings == old(bookings) && busyDates == old(busyDates)
        else
          resp == Response(200, "Booking deleted successfully") &&
          bookings == old(bookings) - {bookingId} &&
          busyDates == BusyAfterDelete(old(busyDates), bookings, old(bookings)[bookingId])
    {
      if !IsAdminSession(session) {
        return Response(401, UnauthorizedMessage);
      }
      if bookingId !in bookings {
        return Response(404, "Booking not found");
      }
      var b := bookings[bookingId];
      if BusyConsistent() {
        DeleteKeepsBusyConsistent(bookings, busyDates, bookingId);
      }
      bookings := bookings - {bookingId};
      if b.status == Confirmed {
        var remaining := |ConfirmedOn(bookings, b.preferredDate)|;
        if remaining == 0 {
          busyDates := busyDates - {b.preferredDate};
        }
      }
      resp := Response(200, "Booking deleted successfully");
    }

    /** `GET /api/admin/busy-dates`: every busy date, earliest first, each
        with its confirmed bookings in booking order. `order` names the
        bookings behind each entry's lines. */
    method GetBusyDates() returns (r: Reply<seq<BusyDateEntry>>, ghost order: seq<seq<nat>>)
      ensures !IsAdminSession(session) ==> r == Failure(401, UnauthorizedMessage)
      ensures IsAdminSession(session) ==> (r.Data? &&
        |r.value| == |busyDates| && |order| == |r.value| &&
        EnumeratesAscending(seq(|r.value|, k requires 0 <= k < |r.value| => r.value[k].date), busyDates) &&
        forall k :: 0 <= k < |r.value| ==>
          EnumeratesByKey(order[k], BusyIds(bookings, packages, r.value[k].date), BookingDates(bookings), false) &&
          |r.value[k].bookings| == |order[k]| &&
          forall j :: 0 <= j < |order[k]| ==>
            order[k][j] in bookings && bookings[order[k][j]].packageId in packages &&
            r.value[k].bookings[j] == BusyBooking(bookings[order[k][j]].fullName, packages[bookings[order[k][j]].packageId]))
    {
      order := [];
      if !IsAdminSession(session) {
        return Failure(401, UnauthorizedMessage), order;
      }
      var dates := OrderDates(busyDates);
      var result: seq<BusyDateEntry> := [];
      var i := 0;
      while i < |dates|
        invariant 0 <= i <= |dates|
        invariant |result| == i && |order| == i
        invariant forall k :: 0 <= k < i ==> result[k].date == dates[k]
        invariant forall k :: 0 <= k < i ==>
          EnumeratesByKey(order[k], BusyIds(bookings, packages, result[k].date), BookingDates(bookings), false) &&
          |result[k].bookings| == |order[k]| &&
          forall j :: 0 <= j < |order[k]| ==>
            order[k][j] in bookings && bookings[order[k][j]].packageId in packages &&
            result[k].bookings[j] == BusyBooking(bookings[order[k][j]].fullName, packages[bookings[order[k][j]].packageId])
      {
        var d := dates[i];
        var ids := OrderByKey(BusyIds(bookings, packages, d), BookingDates(bookings), false);
        var lines := BusyLines(ids, d);
        result := result + [BusyDateEntry(d, lines)];
        order := order + [ids];
        i := i + 1;
      }
      assert seq(|result|, k requires 0 <= k < |result| => result[k].date) == dates;
      r := Data(result);
    }

    /** The lines of one busy date for the bookings `ids`, in order. */
    method BusyLines(ids: seq<nat>, d: Date) returns (lines: seq<BusyBooking>)
      requires forall j :: 0 <= j < |ids| ==> ids[j] in BusyIds(bookings, packages, d)
      ensures |lines| == |ids|
      ensures forall j :: 0 <= j < |ids| ==>
        ids[j] in bookings && bookings[ids[j]].packageId in packages &&
        lines[j] == BusyBooking(bookings[ids[j]].fullName, packages[bookings[ids[j]].packageId])
    {
      lines := [];
      var j := 0;
      while j < |ids|
        invariant 0 <= j <= |ids| && |lines| == j
        invariant forall q :: 0 <= q < j ==>
          lines[q] == BusyBooking(bookings[ids[q]].fullName, packages[bookings[ids[q]].packageId])
      {
        var b := bookings[ids[j]];
        lines := lines + [BusyBooking(b.fullName, packages[b.packageId])];
        j := j + 1;
      }
    }

    /** `DELETE /api/admin/clear-all-bookings`: with a truthy
        `confirm_clear`, both tables are emptied. */
    method ClearAllBookings(data: Option<map<string, Value>>) returns (resp: Response)
      modifies this`bookings, this`busyDates
      ensures if !IsAdminSession(session) then
          resp == Response(401, UnauthorizedMessage) && bookings == old(bookings) && busyDates == old(busyDates)
        else if !ClearConfirmed(data) then
          resp == Response(400, "Confirmation required to clear all bookings.") &&
          bookings == old(bookings) && busyDates == old(busyDates)
        else
          resp == Response(200, "All bookings and busy dates cleared successfully") &&
          bookings == map[] && busyDates == {} && BusyConsistent()
    {
      if !IsAdminSession(session) {
        return Response(401, UnauthorizedMessage);
      }
      if data.None? || data.value == map[] || !Truthy(Get(data.value, "confirm_clear")) {
        return Response(400, "Confirmation required to clear all bookings.");
      }
      bookings := map[];
      busyDates := {};
      resp := Response(200, "All bookings and busy dates cleared successfully");
    }
  }
}
