/**
 * `GET /api/booking-stats` as the Express router in routes/bookingStats.js defines it: three
 * COUNT queries in sequence, the counts parsed with `parseInt(cell || 0)`, an integer success
 * rate that defaults to 100, and a fixed fallback payload with status 500 when anything throws.
 * server.js carries a verbatim copy of this handler; `Server.GetBookingStats` runs this one.
 */
module BookingStats {
  import opened Wrappers
  import JsText
  import opened BookingsDb

  const FailureMessage := "Failed to fetch booking statistics"

  /**
   * The JSON body of the reply. An absent key is `None`; a count or rate that is NaN is `None`
   * too, since `JSON.stringify` writes NaN as `null`.
   */
  datatype StatsBody = StatsBody(
    error: Option<string>,
    totalBookings: Option<int>,
    totalUsers: Option<int>,
    successRate: Option<int>,
    lastUpdated: Option<string>)

  datatype StatsReply = StatsReply(status: int, body: StatsBody)

  /** The reply sent from the `catch` block, whatever failed. */
  const Fallback := StatsReply(500, StatsBody(Some(FailureMessage), Some(6), Some(1), Some(100), None))

  /** `result.rows[0]?.column`, for a query whose rows each hold one column. */
  function FirstCell(rows: seq<string>): Option<string> {
    if rows == [] then None else Some(rows[0])
  }

  /**
   * `parseInt(cell || 0)`: a missing row, a null column or an empty string is replaced by the
   * number 0, which `parseInt` reads through its text "0". `None` is NaN.
   */
  function ParseCount(cell: Option<string>): (n: Option<int>)
    ensures cell.None? || cell == Some("") ==> n == Some(0)
    ensures cell.Some? && cell.value != "" && JsText.IsBlank(cell.value) ==> n.None?
  {
    if cell.None? || cell.value == "" then
      JsText.ParseIntOfDecimal(0);
      JsText.ParseInt(JsText.Decimal(0))
    else JsText.ParseInt(cell.value)
  }

  /** A count that the database returned as decimal text is read back exactly. */
  lemma ParseCountOfCount(n: nat)
    ensures ParseCount(FirstCell([JsText.Decimal(n)])) == Some(n)
  {
    JsText.ParseIntOfDecimal(n);
  }

  /**
   * `Math.round(successful / total * 100)` on exact rationals: the integer r with
   * r - 1/2 <= 100 * successful / total < r + 1/2 (JavaScript rounds halves up).
   */
  function RoundedPercent(successful: int, total: int): (r: int)
    requires total > 0
    ensures 2 * total * r <= 200 * successful + total < 2 * total * (r + 1)
  {
    var q := (200 * successful + total) / (2 * total);
    assert 200 * successful + total == 2 * total * q + (200 * successful + total) % (2 * total);
    q
  }

  lemma MulLeft(k: int, a: int, b: int)
    requires k > 0 && a <= b
    ensures k * a <= k * b
  {
  }

  /** A share between none and all rounds to a percentage between 0 and 100, and all of it to exactly 100. */
  lemma RoundedPercentBounds(successful: int, total: int)
    requires total > 0
    ensures 0 <= successful ==> 0 <= RoundedPercent(successful, total)
    ensures successful <= total ==> RoundedPercent(successful, total) <= 100
    ensures successful == total ==> RoundedPercent(successful, total) == 100
  {
    var r := RoundedPercent(successful, total);
    if 0 <= successful && r < 0 {
      MulLeft(2 * total, r + 1, 0);
    }
    if successful <= total && r > 100 {
      MulLeft(2 * total, 101, r);
    }
    if successful == total && r < 100 {
      MulLeft(2 * total, r + 1, 100);
    }
  }

  /**
   * `totalBookings > 0 ? Math.round(successfulBookings / totalBookings * 100) : 100`, where a NaN
   * total fails the comparison and a NaN numerator makes the rate NaN.
   */
  function SuccessRate(total: Option<int>, successful: Option<int>): (rate: Option<int>)
    ensures total.None? || total.value <= 0 ==> rate == Some(100)
    ensures total.Some? && total.value > 0 && successful.Some? ==>
      rate == Some(RoundedPercent(successful.value, total.value))
    ensures total.Some? && total.value > 0 && successful.Some? && 0 <= successful.value <= total.value ==>
      rate.Some? && 0 <= rate.value <= 100
    ensures total.Some? && total.value > 0 && successful == total ==> rate == Some(100)
    ensures total.Some? && total.value > 0 && successful.None? ==> rate.None?
  {
    if total.Some? && total.value > 0 then
      if successful.Some? then
        RoundedPercentBounds(successful.value, total.value);
        Some(RoundedPercent(successful.value, total.value))
      else None
    else Some(100)
  }

  /** The reply of the `try` block once all three queries have returned their rows. */
  function StatsFromRows(bookingsRows: seq<string>, usersRows: seq<string>, successRows: seq<string>, now: string): (reply: StatsReply)
    ensures reply.status == 200 && reply.body.error.None? && reply.body.lastUpdated == Some(now)
    ensures bookingsRows == [] ==> reply.body.totalBookings == Some(0) && reply.body.successRate == Some(100)
    ensures usersRows == [] ==> reply.body.totalUsers == Some(0)
  {
    var totalBookings := ParseCount(FirstCell(bookingsRows));
    var totalUsers := ParseCount(FirstCell(usersRows));
    var successfulBookings := ParseCount(FirstCell(successRows));
    StatsReply(200, StatsBody(None, totalBookings, totalUsers, SuccessRate(totalBookings, successfulBookings), Some(now)))
  }

  /**
   * The reply of the handler when its three queries resolve or throw as given and each reads the
   * table as it stands at that query: `first` for the total, `second` for the distinct emails,
   * `third` for the "successful" count. Nothing in the handler makes the three one snapshot.
   */
  function StatsAcross(first: seq<BookingRow>, second: seq<BookingRow>, third: seq<BookingRow>,
                       q1: Effect, q2: Effect, q3: Effect, now: string): (reply: StatsReply)
    ensures !(q1.Resolves? && q2.Resolves? && q3.Resolves?) ==> reply == Fallback
    ensures q1.Resolves? && q2.Resolves? && q3.Resolves? ==>
      reply == StatsReply(200, StatsBody(None, Some(|first|), Some(|Emails(second)|),
                                         SuccessRate(Some(|first|), Some(|third|)), Some(now)))
  {
    ParseCountOfCount(|first|);
    ParseCountOfCount(|Emails(second)|);
    ParseCountOfCount(|third|);
    if q1.Resolves? && q2.Resolves? && q3.Resolves? then
      StatsFromRows([JsText.Decimal(|first|)], [JsText.Decimal(|Emails(second)|)], [JsText.Decimal(|third|)], now)
    else Fallback
  }

  /**
   * The reply when no insert lands between the three queries; `now` is `new Date().toISOString()`.
   * It reports the row count and the distinct-email count exactly, and a success rate of 100
   * always, because the "successful" query is the same COUNT(*) as the total; any failing query
   * gives the fixed fallback.
   */
  function StatsResponse(bookings: seq<BookingRow>, q1: Effect, q2: Effect, q3: Effect, now: string): (reply: StatsReply)
    ensures reply ==
      if q1.Resolves? && q2.Resolves? && q3.Resolves? then
        StatsReply(200, StatsBody(None, Some(|bookings|), Some(|Emails(bookings)|), Some(100), Some(now)))
      else Fallback
  {
    StatsAcross(bookings, bookings, bookings, q1, q2, q3, now)
  }

  /**
   * A booking inserted between the total and the "successful" query makes the second count
   * exceed the first. On exact rationals the rate is then `RoundedPercent(t + 1, t)`, which is
   * above 100 exactly when the table held at most 200 rows (one row before the insert gives 200).
   * The handler's `Math.round((s / t) * 100)` in doubles agrees except at t = 200, where it
   * computes 100.49999999999999 and rounds to 100.
   */
  lemma InsertBetweenQueries(bookings: seq<BookingRow>, row: BookingRow, now: string)
    requires |bookings| > 0
    ensures var rate := StatsAcross(bookings, bookings, bookings + [row], Resolves, Resolves, Resolves, now).body.successRate;
      rate == Some(RoundedPercent(|bookings| + 1, |bookings|)) && (rate.value > 100 <==> |bookings| <= 200)
  {
    assert |bookings + [row]| == |bookings| + 1;
    OneExtraRowRate(|bookings|);
  }

  /** One row more than the total rounds to above 100 exactly when the total is at most 200. */
  lemma OneExtraRowRate(total: int)
    requires total > 0
    ensures RoundedPercent(total + 1, total) > 100 <==> total <= 200
  {
    var r := RoundedPercent(total + 1, total);
    if total <= 200 && r <= 100 {
      MulLeft(2 * total, r + 1, 101);
    }
    if total > 200 && r > 100 {
      MulLeft(2 * total, 101, r);
    }
  }

  /** The router's handler: the three queries in order, stopping at the first that throws. */
  method GetBookingStats(db: Database, q1: Effect, q2: Effect, q3: Effect, now: string) returns (reply: StatsReply)
    ensures reply == StatsResponse(db.bookings, q1, q2, q3, now)
  {
    var bookingsResult := db.CountBookings(q1);
    if bookingsResult.Failure? {
      return Fallback;
    }
    var usersResult := db.CountDistinctEmails(q2);
    if usersResult.Failure? {
      return Fallback;
    }
    var successResult := db.CountBookings(q3);
    if successResult.Failure? {
      return Fallback;
    }
    reply := StatsFromRows(bookingsResult.value, usersResult.value, successResult.value, now);
  }
}
