/** Where the browser code and the server meet: the stats fields, the
    clear-all body, the status values the buttons send and the bookings
    filter. Each lemma states that what one side sends or reads is what
    the other side produces or accepts. */
module Interface {
  import opened Values
  import Store
  import Client

  /** The four fields the dashboard reads are exactly the keys the stats
      endpoint returns. */
  lemma StatsFieldsAreServerKeys()
    ensures (set k | k in Client.StatsFieldsRead) == {"total_bookings"} + (set k | k in Store.StatusKeys)
    ensures forall s: Store.Status :: Store.StatsKey(Store.StatusName(s)) in Client.StatsFieldsRead
  {
    Store.StatsKeys();
    assert Client.StatsFieldsRead == ["total_bookings"] + Store.StatusKeys;
    forall s: Store.Status
      ensures Store.StatsKey(Store.StatusName(s)) in Client.StatsFieldsRead
    {
      assert Client.StatsFieldsRead[1] == "pending_review" && Client.StatsFieldsRead[2] == "confirmed";
      assert Client.StatsFieldsRead[3] == "rejected";
    }
  }

  /** Given what the stats endpoint answers for a table of bookings, the
      four counters show the total and the count of each status, none of
      them blank. */
  lemma DashboardShowsServerStats(stats: map<string, nat>, bs: map<nat, Store.Booking>)
    requires stats.Keys == {"total_bookings", "pending_review", "confirmed", "rejected"}
    requires stats["total_bookings"] == |bs|
    requires stats["pending_review"] == Store.CountWithStatus(bs, Store.PendingReview)
    requires stats["confirmed"] == Store.CountWithStatus(bs, Store.Confirmed)
    requires stats["rejected"] == Store.CountWithStatus(bs, Store.Rejected)
    ensures Client.ShownStats(stats) == [
      Some(|bs|),
      Some(Store.CountWithStatus(bs, Store.PendingReview)),
      Some(Store.CountWithStatus(bs, Store.Confirmed)),
      Some(Store.CountWithStatus(bs, Store.Rejected))]
  {
    var shown := Client.ShownStats(stats);
    assert Client.StatsFieldsRead[0] == "total_bookings" && Client.StatsFieldsRead[1] == "pending_review";
    assert Client.StatsFieldsRead[2] == "confirmed" && Client.StatsFieldsRead[3] == "rejected";
    assert shown[0] == Some(|bs|);
  }

  /** The body the clear-all button sends passes the server's confirmation
      check. */
  lemma ClearAllBodyIsConfirmation()
    ensures Store.ClearConfirmed(Some(Client.ClearAllBody))
  {
    assert "confirm_clear" in Client.ClearAllBody;
  }

  /** Every status a Confirm or Reject button sends is accepted by the
      status endpoint, and names the status the button is for. */
  lemma ButtonStatusesAccepted(bookingId: Client.Js, status: string)
    ensures forall k :: 0 <= k < |Client.ActionButtons(bookingId, status)| &&
                        Client.ActionButtons(bookingId, status)[k].targetStatus.Some? ==>
      var body := map["status" := Text(Client.ActionButtons(bookingId, status)[k].targetStatus.value)];
      Store.CheckStatusRequest(Some(body)) ==
        Store.NewStatus(if Client.ActionButtons(bookingId, status)[k].kind == Client.ConfirmButton
                        then Store.Confirmed else Store.Rejected)
  {
    var r := Client.ActionButtons(bookingId, status);
    forall k | 0 <= k < |r| && r[k].targetStatus.Some?
      ensures Store.CheckStatusRequest(Some(map["status" := Text(r[k].targetStatus.value)])) ==
              Store.NewStatus(if r[k].kind == Client.ConfirmButton then Store.Confirmed else Store.Rejected)
    {
      var body := map["status" := Text(r[k].targetStatus.value)];
      assert "status" in body;
      if r[k].kind == Client.ConfirmButton {
        assert Store.ParseStatus(Text("Confirmed")) == Some(Store.Confirmed);
      } else {
        assert r[k].kind == Client.RejectButton;
        assert Store.ParseStatus(Text("Rejected")) == Some(Store.Rejected);
      }
    }
  }

  /** A booking stored by the server never shows a blank status badge, and
      a confirmed one offers no Confirm button. */
  lemma StoredStatusHasBadge(s: Store.Status, bookingId: Client.Js)
    ensures Client.StatusClass(Store.StatusName(s)) != ""
    ensures (exists k :: 0 <= k < |Client.ActionButtons(bookingId, Store.StatusName(s))| &&
                         Client.ActionButtons(bookingId, Store.StatusName(s))[k].kind == Client.ConfirmButton)
            <==> s != Store.Confirmed
  {
    match s
    case PendingReview =>
      assert Store.StatusName(s)[0] != "Confirmed"[0];
      assert Client.ActionButtons(bookingId, Store.StatusName(s))[0].kind == Client.ConfirmButton;
    case Rejected =>
      assert Store.StatusName(s)[0] != "Confirmed"[0];
      assert Client.ActionButtons(bookingId, Store.StatusName(s))[0].kind == Client.ConfirmButton;
    case Confirmed =>
  }

  /** A page without a filter select asks for every booking; choosing a
      status asks for exactly the bookings with that status. */
  lemma FilterRoundTrip(select: Option<string>, s: Store.Status)
    ensures select.None? ==> Store.FilterSelects(Some(Client.BookingFilter(select)), s)
    ensures select.Some? && select.value != "" && select.value != "All" ==>
      (Store.FilterSelects(Some(Client.BookingFilter(select)), s) <==> Store.StatusName(s) == select.value)
    ensures Store.FilterSelects(Some(Client.BookingFilter(Some(Store.StatusName(s)))), s)
  {
  }
}
