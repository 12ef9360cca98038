/** GET /api/dashboard (app/api/dashboard/route.ts): a counselor's totals
    for the last 30 days, active clients, average rating and upcoming
    sessions. The recent-messages aggregation is not part of this model. */
module Dashboard {
  import opened Wrappers
  import opened DateUtil
  import opened Collections
  import opened Sorting
  import opened Store
  import opened SessionTime

  /** `thirtyDaysAgo.setDate(getDate() - 30)`: the same clock time 30 days
      earlier (no daylight-saving shift in this model). */
  function ThirtyDaysAgo(now: Instant): Instant {
    now - 30 * MsPerDay
  }

  /** The bookings the totals count: the caller's as counselor, dated at or
      after thirty days ago; there is no upper bound and no status filter. */
  predicate Recent(counselorId: Id, now: Instant, b: Booking) {
    b.counselorId == counselorId && b.date >= ThirtyDaysAgo(now)
  }

  /** `booking.amount || 0`. */
  function AmountOrZero(b: Booking): real {
    if b.amount.Some? then b.amount.value else 0.0
  }

  /** `bookings.reduce((sum, b) => sum + (b.amount || 0), 0)`. */
  function TotalEarnings(bs: seq<Booking>): (r: real)
    ensures (forall i :: 0 <= i < |bs| ==> AmountOrZero(bs[i]) >= 0.0) ==> r >= 0.0
  {
    if bs == [] then 0.0 else AmountOrZero(bs[0]) + TotalEarnings(bs[1..])
  }

  /** Earnings add up across a split of the bookings. */
  lemma {:induction false} EarningsAppend(a: seq<Booking>, b: seq<Booking>)
    ensures TotalEarnings(a + b) == TotalEarnings(a) + TotalEarnings(b)
  {
    if a == [] {
      assert a + b == b;
    } else {
      assert (a + b)[0] == a[0];
      assert (a + b)[1..] == a[1..] + b;
      EarningsAppend(a[1..], b);
    }
  }

  /** A booking without an amount adds nothing. */
  lemma MissingAmountCountsZero(bs: seq<Booking>, b: Booking)
    requires b.amount.None?
    ensures TotalEarnings(bs + [b]) == TotalEarnings(bs)
  {
    EarningsAppend(bs, [b]);
  }

  /** `Booking.distinct("userId", { ..., status: { $ne: "CANCELLED" } })`:
      the test is against the upper-case spelling. */
  predicate CountsAsActive(counselorId: Id, now: Instant, b: Booking) {
    Recent(counselorId, now, b) && b.status != "CANCELLED"
  }

  function ActiveClients(bookings: seq<Booking>, counselorId: Id, now: Instant): (r: seq<Id>)
    ensures NoDuplicates(r)
    ensures |r| <= Count(bookings, b => CountsAsActive(counselorId, now, b))
  {
    var active := Filter(bookings, b => CountsAsActive(counselorId, now, b));
    FilterCount(bookings, b => CountsAsActive(counselorId, now, b));
    Distinct(ClientIds(active))
  }

  /** Some recent booking of the client's, under the upper-case test, is not
      cancelled. */
  predicate IsActiveClient(bookings: seq<Booking>, counselorId: Id, now: Instant, x: Id) {
    exists k :: 0 <= k < |bookings| && bookings[k].userId == x && CountsAsActive(counselorId, now, bookings[k])
  }

  /** The active clients are exactly the users with such a booking. */
  lemma ActiveClientsExact(bookings: seq<Booking>, counselorId: Id, now: Instant, x: Id)
    ensures x in ActiveClients(bookings, counselorId, now) <==> IsActiveClient(bookings, counselorId, now, x)
  {
    var active := Filter(bookings, b => CountsAsActive(counselorId, now, b));
    var ids := ClientIds(active);
    var r := Distinct(ids);
    if x in r {
      var j :| 0 <= j < |ids| && ids[j] == x;
      assert active[j] in active;
      var k :| 0 <= k < |bookings| && bookings[k] == active[j];
    }
    if IsActiveClient(bookings, counselorId, now, x) {
      var k :| 0 <= k < |bookings| && bookings[k].userId == x && CountsAsActive(counselorId, now, bookings[k]);
      var j :| 0 <= j < |active| && active[j] == bookings[k];
      assert ids[j] == x;
    }
  }

  /** The booking flows write lower-case "cancelled", which this test does
      not exclude: a client whose only recent booking is cancelled still
      counts as active. */
  lemma LowerCaseCancelledStillActive(b: Booking, now: Instant)
    requires b.status == "cancelled" && b.date >= ThirtyDaysAgo(now)
    ensures ActiveClients([b], b.counselorId, now) == [b.userId]
  {
    var r := ActiveClients([b], b.counselorId, now);
    assert [b][0] == b;
    ActiveClientsExact([b], b.counselorId, now, b.userId);
    assert |r| == 1 && r[0] == b.userId;
  }

  /** `status: "completed", rating: { $exists: true }`. */
  predicate Rated(counselorId: Id, b: Booking) {
    b.counselorId == counselorId && b.status == "completed" && b.rating.Some?
  }

  function RatingSum(bs: seq<Booking>): real {
    if bs == [] then 0.0 else (if bs[0].rating.Some? then bs[0].rating.value else 0.0) + RatingSum(bs[1..])
  }

  /** The mean rating of completed, rated bookings, 0 when there are none. */
  function AverageRating(bookings: seq<Booking>, counselorId: Id): (r: real)
    ensures Count(bookings, b => Rated(counselorId, b)) == 0 ==> r == 0.0
  {
    var rated := Filter(bookings, b => Rated(counselorId, b));
    FilterCount(bookings, b => Rated(counselorId, b));
    if |rated| > 0 then RatingSum(rated) / |rated| as real else 0.0
  }

  /** Ratings in [1, 5] average to a value in [1, 5]. */
  lemma AverageRatingBounds(bookings: seq<Booking>, counselorId: Id)
    requires forall i :: 0 <= i < |bookings| && Rated(counselorId, bookings[i]) ==> 1.0 <= bookings[i].rating.value <= 5.0
    requires Count(bookings, b => Rated(counselorId, b)) > 0
    ensures 1.0 <= AverageRating(bookings, counselorId) <= 5.0
  {
    var rated := Filter(bookings, b => Rated(counselorId, b));
    FilterCount(bookings, b => Rated(counselorId, b));
    forall i | 0 <= i < |rated| ensures rated[i].rating.Some? && 1.0 <= rated[i].rating.value <= 5.0 {
      assert rated[i] in rated;
      var k :| 0 <= k < |bookings| && bookings[k] == rated[i];
    }
    MeanBounds(rated, 1.0, 5.0);
  }

  /** The mean of ratings in [lo, hi] lies in [lo, hi]. */
  lemma MeanBounds(bs: seq<Booking>, lo: real, hi: real)
    requires bs != [] && forall i :: 0 <= i < |bs| ==> bs[i].rating.Some? && lo <= bs[i].rating.value <= hi
    ensures lo <= RatingSum(bs) / |bs| as real <= hi
  {
    RatingSumBounds(bs, lo, hi);
    DivisionBounds(RatingSum(bs), |bs| as real, lo, hi);
  }

  lemma DivisionBounds(sum: real, n: real, lo: real, hi: real)
    requires n > 0.0 && n * lo <= sum <= n * hi
    ensures lo <= sum / n <= hi
  {
    var q := sum / n;
    assert q * n == sum;
  }

  /** The sum of n ratings in [lo, hi] lies in [n·lo, n·hi]. */
  lemma {:induction false} RatingSumBounds(bs: seq<Booking>, lo: real, hi: real)
    requires forall i :: 0 <= i < |bs| ==> bs[i].rating.Some? && lo <= bs[i].rating.value <= hi
    ensures |bs| as real * lo <= RatingSum(bs) <= |bs| as real * hi
  {
    if bs != [] {
      RatingSumBounds(bs[1..], lo, hi);
    }
  }

  /** Ratings all equal to x average to x. */
  lemma {:induction false} AverageOfEqualRatings(bs: seq<Booking>, x: real)
    requires bs != [] && forall i :: 0 <= i < |bs| ==> bs[i].rating == Some(x)
    ensures RatingSum(bs) / |bs| as real == x
  {
    RatingSumBounds(bs, x, x);
  }

  function DateStartKey(b: Booking): Key {
    Key(0, b.date, b.startTime)
  }

  /** The JS sort by session start; bookings whose start does not parse
      have been filtered out before it. */
  function StartKey(b: Booking): Key {
    Key(0, if SessionStart(b.date, b.startTime).Some? then SessionStart(b.date, b.startTime).value else 0, "")
  }

  predicate Scheduled(counselorId: Id, b: Booking) {
    b.counselorId == counselorId && b.status == "scheduled"
  }

  /** The first five scheduled bookings in (date, startTime) order, the
      query's `.limit(5)`: no scheduled booking left out comes before one
      kept. */
  function FirstFiveScheduled(bookings: seq<Booking>, counselorId: Id): (r: seq<Booking>)
    ensures |r| <= 5 && SortedBy(r, DateStartKey)
    ensures forall i :: 0 <= i < |r| ==> r[i] in bookings && Scheduled(counselorId, r[i])
    ensures |r| == if Count(bookings, b => Scheduled(counselorId, b)) < 5
                   then Count(bookings, b => Scheduled(counselorId, b)) else 5
    ensures forall k :: 0 <= k < |bookings| && Scheduled(counselorId, bookings[k]) && bookings[k] !in r ==>
      forall j :: 0 <= j < |r| ==> KeyLe(DateStartKey(r[j]), DateStartKey(bookings[k]))
  {
    SortedFilterPrefix(bookings, b => Scheduled(counselorId, b), DateStartKey, 5);
    Take(SortBy(Filter(bookings, b => Scheduled(counselorId, b)), DateStartKey), 5)
  }

  /** Upcoming sessions: of those five, the ones starting at or after now,
      earliest first. The limit comes before the time filter. */
  function UpcomingSessions(bookings: seq<Booking>, counselorId: Id, now: Instant): (r: seq<Booking>)
    ensures |r| <= 5 && SortedBy(r, StartKey)
    ensures forall i :: 0 <= i < |r| ==>
      r[i] in FirstFiveScheduled(bookings, counselorId) && StartsAtOrAfter(r[i].date, r[i].startTime, now)
    ensures var five := FirstFiveScheduled(bookings, counselorId);
      forall i :: 0 <= i < |five| && StartsAtOrAfter(five[i].date, five[i].startTime, now) ==> five[i] in r
  {
    var five := FirstFiveScheduled(bookings, counselorId);
    var ahead := Filter(five, (b: Booking) => StartsAtOrAfter(b.date, b.startTime, now));
    var sorted := SortBy(ahead, StartKey);
    forall i | 0 <= i < |sorted| ensures sorted[i] in five && StartsAtOrAfter(sorted[i].date, sorted[i].startTime, now) {
      SortedMembers(ahead, StartKey, sorted[i]);
    }
    forall i | 0 <= i < |five| && StartsAtOrAfter(five[i].date, five[i].startTime, now) ensures five[i] in sorted {
      SortedMembers(ahead, StartKey, five[i]);
    }
    sorted
  }

  /** Because the limit comes first, five past scheduled bookings hide a
      sixth that is still ahead. */
  lemma LimitBeforeFilter(bookings: seq<Booking>, counselorId: Id, now: Instant)
    requires forall i :: 0 <= i < |FirstFiveScheduled(bookings, counselorId)| ==>
      !StartsAtOrAfter(FirstFiveScheduled(bookings, counselorId)[i].date, FirstFiveScheduled(bookings, counselorId)[i].startTime, now)
    ensures UpcomingSessions(bookings, counselorId, now) == []
  {
    var five := FirstFiveScheduled(bookings, counselorId);
    FilterNone(five, (b: Booking) => StartsAtOrAfter(b.date, b.startTime, now));
  }

  datatype Stats = Stats(totalSessions: nat, totalEarnings: real, activeClients: nat, averageRating: real, upcoming: seq<Booking>)

  /** The GET: 401 without `token.id`, otherwise the statistics. */
  function GetDashboard(bookings: seq<Booking>, tokenId: Option<Id>, now: Instant): (r: Response<Stats>)
    ensures r.Err? <==> tokenId.None?
    ensures r.Err? ==> r.status == Unauthorized
    ensures r.Ok? ==>
      r.body.totalSessions == Count(bookings, b => Recent(tokenId.value, now, b))
      && r.body.totalEarnings == TotalEarnings(Filter(bookings, b => Recent(tokenId.value, now, b)))
      && r.body.activeClients == |ActiveClients(bookings, tokenId.value, now)|
      && r.body.activeClients <= r.body.totalSessions
      && r.body.averageRating == AverageRating(bookings, tokenId.value)
      && r.body.upcoming == UpcomingSessions(bookings, tokenId.value, now)
  {
    if tokenId.None? then Err(Unauthorized)
    else
      var c := tokenId.value;
      var recent := Filter(bookings, b => Recent(c, now, b));
      FilterCount(bookings, b => Recent(c, now, b));
      ActiveBound(bookings, c, now);
      Ok(Stats(|recent|, TotalEarnings(recent), |ActiveClients(bookings, c, now)|, AverageRating(bookings, c),
               UpcomingSessions(bookings, c, now)))
  }

  /** There are no more active clients than recent bookings. */
  lemma ActiveBound(bookings: seq<Booking>, c: Id, now: Instant)
    ensures |ActiveClients(bookings, c, now)| <= Count(bookings, b => Recent(c, now, b))
  {
    var active := Filter(bookings, b => CountsAsActive(c, now, b));
    var recent := Filter(bookings, b => Recent(c, now, b));
    FilterCount(bookings, b => Recent(c, now, b));
    FilterCount(bookings, b => CountsAsActive(c, now, b));
    CountImplied(bookings, b => CountsAsActive(c, now, b), b => Recent(c, now, b));
  }

  /** A future booking counts toward the "last 30 days" totals. */
  lemma FutureBookingCounted(b: Booking, now: Instant)
    requires b.date > now
    ensures Recent(b.counselorId, now, b)
  {
  }
}
