/** The admin dashboard's aggregation of the four fetched collections (users,
    cars, bookings, payments) into summary figures, chart series, rankings and
    key performance indicators. "Now" is a parameter: the calendar month the
    dashboard is opened in. */
module Dashboard {
  import opened Records
  import opened Folds
  import opened Ranking
  import opened Months

  // ---------------------------------------------------------------------
  // Summary figures

  /** The four tiles at the top of the page. */
  datatype Stats = Stats(users: nat, cars: nat, bookings: nat, revenue: int)

  /** `payments.reduce((sum, p) => sum + (p.amount || 0), 0)` */
  function TotalRevenue(payments: seq<Payment>): (r: int)
    ensures payments == [] ==> r == 0
    ensures (forall i :: 0 <= i < |payments| ==> AmountOrZero(payments[i]) >= 0) ==> r >= 0
  {
    SumNonNegative(payments, AmountOrZero);
    Sum(payments, AmountOrZero)
  }

  /** With no negative amount the total is not negative, and a payment
      without an amount adds nothing to it. */
  lemma TotalRevenueBounds(payments: seq<Payment>)
    ensures (forall i :: 0 <= i < |payments| ==> AmountOrZero(payments[i]) >= 0) ==> TotalRevenue(payments) >= 0
    ensures forall p: Payment :: p.amount.None? ==> TotalRevenue(payments + [p]) == TotalRevenue(payments)
  {
    SumNonNegative(payments, AmountOrZero);
    forall p: Payment | p.amount.None? ensures TotalRevenue(payments + [p]) == TotalRevenue(payments) {
      SumSnoc(payments, p, AmountOrZero);
    }
  }

  /** The `setStats` call of `fetchStats`. */
  function SummaryStats(users: seq<User>, cars: seq<Car>, bookings: seq<Booking>, payments: seq<Payment>): (s: Stats)
    ensures s.users == |users| && s.cars == |cars| && s.bookings == |bookings|
    ensures s.revenue == TotalRevenue(payments)
    ensures (forall i :: 0 <= i < |payments| ==> AmountOrZero(payments[i]) >= 0) ==> s.revenue >= 0
  {
    Stats(|users|, |cars|, |bookings|, TotalRevenue(payments))
  }

  // ---------------------------------------------------------------------
  // Monthly series

  function PaymentTime(p: Payment): Option<Stamp>
  {
    p.paymentTime
  }

  function UserCreated(u: User): Option<Stamp>
  {
    u.createdAt
  }

  function BookingCreated(b: Booking): Option<Stamp>
  {
    b.createdAt
  }

  /** `generateMonthlyRevenue`: six months ending with `now`, each with the
      amounts of the payments made in it added up. */
  method GenerateMonthlyRevenue(payments: seq<Payment>, now: YearMonth) returns (last6Months: seq<MonthValue>)
    ensures last6Months == LastSixMonths(now, MonthTotalOf(payments, PaymentTime, AmountOrZero))
    ensures Total(last6Months) == Sum(Filter(payments, InWindow(PaymentTime, now)), AmountOrZero)
  {
    last6Months := Series(now, MonthTotalOf(payments, PaymentTime, AmountOrZero));
    SeriesTotalIsWindowTotal(payments, PaymentTime, AmountOrZero, now);
  }

  /** `generateMonthlyUserRegistrations`: six months ending with `now`, each
      with the number of users created in it. */
  method GenerateMonthlyUserRegistrations(users: seq<User>, now: YearMonth) returns (last6Months: seq<MonthValue>)
    ensures last6Months == LastSixMonths(now, MonthCountOf(users, UserCreated))
    ensures Total(last6Months) == |Filter(users, InWindow(UserCreated, now))|
  {
    last6Months := Series(now, MonthCountOf(users, UserCreated));
    SeriesCountIsWindowCount(users, UserCreated, now);
  }

  /** `generateMonthlyBookings`: six months ending with `now`, each with the
      number of bookings created in it. */
  method GenerateMonthlyBookings(bookings: seq<Booking>, now: YearMonth) returns (last6Months: seq<MonthValue>)
    ensures last6Months == LastSixMonths(now, MonthCountOf(bookings, BookingCreated))
    ensures Total(last6Months) == |Filter(bookings, InWindow(BookingCreated, now))|
  {
    last6Months := Series(now, MonthCountOf(bookings, BookingCreated));
    SeriesCountIsWindowCount(bookings, BookingCreated, now);
  }

  /** With no negative amount, the six months of revenue never add up to
      more than the total revenue tile. */
  lemma MonthlyRevenueWithinTotal(payments: seq<Payment>, now: YearMonth)
    requires forall i :: 0 <= i < |payments| ==> AmountOrZero(payments[i]) >= 0
    ensures Total(LastSixMonths(now, MonthTotalOf(payments, PaymentTime, AmountOrZero))) <= TotalRevenue(payments)
  {
    SeriesTotalIsWindowTotal(payments, PaymentTime, AmountOrZero, now);
    var inWindow := InWindow(PaymentTime, now);
    var v := (p: Payment) => if inWindow(p) then AmountOrZero(p) else 0;
    SumFilter(payments, inWindow, AmountOrZero, v);
    SumMonotone(payments, v, AmountOrZero);
  }

  // ---------------------------------------------------------------------
  // Counts by key

  function Status(b: Booking): string
  {
    b.status
  }

  function CarType(c: Car): string
  {
    c.carType
  }

  /** The status tally of `prepareChartData`: its counts add up to the
      number of bookings, and each status seen has its number of bookings. */
  lemma BookingsByStatusTotal(bookings: seq<Booking>)
    ensures MapSum(TallyBy(bookings, Status)) == |bookings|
    ensures forall s :: s in TallyBy(bookings, Status) <==> exists i :: 0 <= i < |bookings| && bookings[i].status == s
  {
    TallyTotal(bookings, Status);
  }

  /** The car-type tally of `prepareChartData`: its counts add up to the
      number of cars. */
  lemma CarsByTypeTotal(cars: seq<Car>)
    ensures MapSum(TallyBy(cars, CarType)) == |cars|
    ensures forall t :: t in TallyBy(cars, CarType) <==> exists i :: 0 <= i < |cars| && cars[i].carType == t
  {
    TallyTotal(cars, CarType);
  }

  // ---------------------------------------------------------------------
  // Per-car rankings

  /** `${car.brand} ${car.model}` */
  function CarName(c: Car): string
  {
    c.brand + " " + c.model
  }

  /** The filter callback `booking => booking.carId === id`. */
  function OfCar(id: Id): Booking -> bool
  {
    (b: Booking) => b.carId == id
  }

  /** `bookings.filter(booking => booking.carId === car.id).length` */
  function BookingCount(bookings: seq<Booking>, car: Car): nat
  {
    |Filter(bookings, OfCar(car.id))|
  }

  /** `totalBookings > 0 ? Math.min(totalBookings * 10, 100) : 0`: ten points
      per booking, capped at 100. */
  function UtilizationScore(totalBookings: nat): (u: int)
    ensures 0 <= u <= 100
    ensures u == 0 <==> totalBookings == 0
    ensures u == 100 <==> totalBookings >= 10
    ensures totalBookings < 10 ==> u == 10 * totalBookings
  {
    if totalBookings > 0 then Min(totalBookings * 10, 100) else 0
  }

  lemma UtilizationExamples()
    ensures UtilizationScore(12) == 100 && UtilizationScore(3) == 30 && UtilizationScore(0) == 0
  {
  }

  /** One bar of the utilization chart. */
  datatype CarUtilization = CarUtilization(carName: string, utilization: int)

  function UtilizationOf(bookings: seq<Booking>, car: Car): CarUtilization
  {
    CarUtilization(CarName(car), UtilizationScore(BookingCount(bookings, car)))
  }

  function Utilization(e: CarUtilization): int
  {
    e.utilization
  }

  /** `cars.map(car => ...)` of `generateCarUtilization`. */
  function UtilizationsOf(cars: seq<Car>, bookings: seq<Booking>): (r: seq<CarUtilization>)
    ensures |r| == |cars|
    ensures forall i :: 0 <= i < |cars| ==> r[i] == UtilizationOf(bookings, cars[i])
  {
    seq(|cars|, i requires 0 <= i < |cars| => UtilizationOf(bookings, cars[i]))
  }

  /** `generateCarUtilization`: the ten cars (or all, if fewer) with the
      highest utilization, highest first; no car left out scores above a car
      shown. */
  function GenerateCarUtilization(cars: seq<Car>, bookings: seq<Booking>): (r: seq<CarUtilization>)
    ensures |r| == Min(10, |cars|)
    ensures NonIncreasing(r, Utilization)
    ensures multiset(r) <= multiset(UtilizationsOf(cars, bookings))
    ensures forall x :: x in multiset(UtilizationsOf(cars, bookings)) - multiset(r) ==>
      forall i :: 0 <= i < |r| ==> x.utilization <= r[i].utilization
    ensures forall k :: WithKey(r, Utilization, k) <= WithKey(UtilizationsOf(cars, bookings), Utilization, k)
    ensures forall i :: 0 <= i < |r| ==> 0 <= r[i].utilization <= 100
    ensures forall i :: 0 <= i < |r| ==> exists c :: c in cars && r[i] == UtilizationOf(bookings, c)
    ensures forall c :: c in cars && UtilizationOf(bookings, c) !in r ==>
      forall i :: 0 <= i < |r| ==> UtilizationOf(bookings, c).utilization <= r[i].utilization
  {
    var r := TopByKey(UtilizationsOf(cars, bookings), Utilization, 10);
    UtilizationRanked(cars, bookings, r);
    UtilizationLeftOut(cars, bookings, r);
    r
  }

  lemma UtilizationRanked(cars: seq<Car>, bookings: seq<Booking>, r: seq<CarUtilization>)
    requires r == TopByKey(UtilizationsOf(cars, bookings), Utilization, 10)
    ensures forall i :: 0 <= i < |r| ==> exists c :: c in cars && r[i] == UtilizationOf(bookings, c)
  {
    var all := UtilizationsOf(cars, bookings);
    TopByKeyMembers(all, Utilization, 10);
    forall i | 0 <= i < |r| ensures exists c :: c in cars && r[i] == UtilizationOf(bookings, c) {
      var j :| 0 <= j < |all| && all[j] == r[i];
      assert cars[j] in cars;
    }
  }

  lemma UtilizationLeftOut(cars: seq<Car>, bookings: seq<Booking>, r: seq<CarUtilization>)
    requires r == TopByKey(UtilizationsOf(cars, bookings), Utilization, 10)
    ensures forall c :: c in cars && UtilizationOf(bookings, c) !in r ==>
      forall i :: 0 <= i < |r| ==> UtilizationOf(bookings, c).utilization <= r[i].utilization
    ensures forall x :: x in multiset(UtilizationsOf(cars, bookings)) - multiset(r) ==>
      forall i :: 0 <= i < |r| ==> x.utilization <= r[i].utilization
  {
    var all := UtilizationsOf(cars, bookings);
    TopByKeyMembers(all, Utilization, 10);
    forall c | c in cars && UtilizationOf(bookings, c) !in r
      ensures forall i :: 0 <= i < |r| ==> UtilizationOf(bookings, c).utilization <= r[i].utilization
    {
      var j :| 0 <= j < |cars| && cars[j] == c;
      var u := all[j];
      assert u in all && u !in r;
      assert forall i :: 0 <= i < |r| ==> Utilization(u) <= Utilization(r[i]);
    }
  }

  /** One bar of the popular-cars chart. */
  datatype CarPopularity = CarPopularity(carName: string, bookingCount: nat, car: Car)

  function PopularityOf(bookings: seq<Booking>, car: Car): CarPopularity
  {
    CarPopularity(CarName(car), BookingCount(bookings, car), car)
  }

  function Popularity(e: CarPopularity): int
  {
    e.bookingCount
  }

  /** `cars.map(car => ...)` of `generatePopularCars`. */
  function PopularitiesOf(cars: seq<Car>, bookings: seq<Booking>): (r: seq<CarPopularity>)
    ensures |r| == |cars|
    ensures forall i :: 0 <= i < |cars| ==> r[i] == PopularityOf(bookings, cars[i])
  {
    seq(|cars|, i requires 0 <= i < |cars| => PopularityOf(bookings, cars[i]))
  }

  /** `generatePopularCars`: the ten most booked cars (or all, if fewer),
      most booked first, each with the number of bookings of that car; no car
      left out has more bookings than a car shown. */
  function GeneratePopularCars(cars: seq<Car>, bookings: seq<Booking>): (r: seq<CarPopularity>)
    ensures |r| == Min(10, |cars|)
    ensures NonIncreasing(r, Popularity)
    ensures multiset(r) <= multiset(PopularitiesOf(cars, bookings))
    ensures forall x :: x in multiset(PopularitiesOf(cars, bookings)) - multiset(r) ==>
      forall i :: 0 <= i < |r| ==> x.bookingCount <= r[i].bookingCount
    ensures forall k :: WithKey(r, Popularity, k) <= WithKey(PopularitiesOf(cars, bookings), Popularity, k)
    ensures forall i :: 0 <= i < |r| ==> r[i].car in cars && r[i].carName == CarName(r[i].car)
    ensures forall i :: 0 <= i < |r| ==> r[i].bookingCount == |Filter(bookings, OfCar(r[i].car.id))|
    ensures forall c :: c in cars && PopularityOf(bookings, c) !in r ==>
      forall i :: 0 <= i < |r| ==> BookingCount(bookings, c) <= r[i].bookingCount
  {
    var r := TopByKey(PopularitiesOf(cars, bookings), Popularity, 10);
    PopularityRanked(cars, bookings, r);
    PopularityLeftOut(cars, bookings, r);
    r
  }

  lemma PopularityRanked(cars: seq<Car>, bookings: seq<Booking>, r: seq<CarPopularity>)
    requires r == TopByKey(PopularitiesOf(cars, bookings), Popularity, 10)
    ensures forall i :: 0 <= i < |r| ==> r[i].car in cars && r[i] == PopularityOf(bookings, r[i].car)
  {
    var all := PopularitiesOf(cars, bookings);
    TopByKeyMembers(all, Popularity, 10);
    forall i | 0 <= i < |r| ensures r[i].car in cars && r[i] == PopularityOf(bookings, r[i].car) {
      var j :| 0 <= j < |all| && all[j] == r[i];
      assert cars[j] in cars;
    }
  }

  lemma PopularityLeftOut(cars: seq<Car>, bookings: seq<Booking>, r: seq<CarPopularity>)
    requires r == TopByKey(PopularitiesOf(cars, bookings), Popularity, 10)
    ensures forall c :: c in cars && PopularityOf(bookings, c) !in r ==>
      forall i :: 0 <= i < |r| ==> BookingCount(bookings, c) <= r[i].bookingCount
    ensures forall x :: x in multiset(PopularitiesOf(cars, bookings)) - multiset(r) ==>
      forall i :: 0 <= i < |r| ==> x.bookingCount <= r[i].bookingCount
  {
    var all := PopularitiesOf(cars, bookings);
    TopByKeyMembers(all, Popularity, 10);
    forall c | c in cars && PopularityOf(bookings, c) !in r
      ensures forall i :: 0 <= i < |r| ==> BookingCount(bookings, c) <= r[i].bookingCount
    {
      var j :| 0 <= j < |cars| && cars[j] == c;
      var p := all[j];
      assert p in all && p !in r;
      assert forall i :: 0 <= i < |r| ==> Popularity(p) <= Popularity(r[i]);
    }
  }

  /** The count shown for a car is the number of bookings that name it: each
      of them carries the car's id, and every booking with that id is one. */
  lemma BookingCountCountsTheCarsBookings(bookings: seq<Booking>, car: Car)
    ensures forall b :: b in Filter(bookings, OfCar(car.id)) <==> b in bookings && b.carId == car.id
    ensures BookingCount(bookings, car) == 0 <==> forall i :: 0 <= i < |bookings| ==> bookings[i].carId != car.id
  {
    FilterMembers(bookings, OfCar(car.id));
    if BookingCount(bookings, car) == 0 {
      forall i | 0 <= i < |bookings| ensures bookings[i].carId != car.id {
        assert bookings[i] in bookings;
      }
    }
  }

  // ---------------------------------------------------------------------
  // Revenue by car type

  /** The filter callback `c => c.id === booking.carId`. */
  function WithId(id: Id): Car -> bool
  {
    (c: Car) => c.id == id
  }

  /** The filter callback `p => p.bookingId === booking.id`. */
  function ForBooking(id: Id): Payment -> bool
  {
    (p: Payment) => p.bookingId == id
  }

  /** `cars.find(c => c.id === booking.carId)` */
  function CarOf(cars: seq<Car>, b: Booking): Option<Car>
  {
    Find(cars, WithId(b.carId))
  }

  /** `payments.find(p => p.bookingId === booking.id)` */
  function PaymentOf(payments: seq<Payment>, b: Booking): Option<Payment>
  {
    Find(payments, ForBooking(b.id))
  }

  /** The booking has a car of type `t` and a payment. */
  predicate Counted(cars: seq<Car>, payments: seq<Payment>, b: Booking, t: string)
  {
    CarOf(cars, b).Some? && CarOf(cars, b).value.carType == t && PaymentOf(payments, b).Some?
  }

  /** What a booking adds under type `t`: the amount of its first payment
      (0 when that has no amount) when it is counted under `t`, else nothing. */
  function ShareOf(cars: seq<Car>, payments: seq<Payment>, t: string): Booking -> int
  {
    b => if Counted(cars, payments, b, t) then AmountOrZero(PaymentOf(payments, b).value) else 0
  }

  /** What a booking adds to the chart as a whole. */
  function Contribution(cars: seq<Car>, payments: seq<Payment>): Booking -> int
  {
    b => if CarOf(cars, b).Some? && PaymentOf(payments, b).Some? then AmountOrZero(PaymentOf(payments, b).value) else 0
  }

  /** The dictionary `generateRevenueByCarType` builds, booking by booking,
      in the order of the `forEach`. */
  function RevenueByType(cars: seq<Car>, bookings: seq<Booking>, payments: seq<Payment>): map<string, int>
  {
    if bookings == [] then map[]
    else
      var init, last := bookings[..|bookings| - 1], bookings[|bookings| - 1];
      var acc := RevenueByType(cars, init, payments);
      var car, payment := CarOf(cars, last), PaymentOf(payments, last);
      if car.Some? && payment.Some? then
        var t := car.value.carType;
        acc[t := (if t in acc then acc[t] else 0) + AmountOrZero(payment.value)]
      else acc
  }

  /** A type is a key exactly when some booking of a car of that type has a
      payment. */
  lemma {:induction false} RevenueByTypeKeys(cars: seq<Car>, bookings: seq<Booking>, payments: seq<Payment>, t: string)
    ensures t in RevenueByType(cars, bookings, payments) <==> exists i :: 0 <= i < |bookings| && Counted(cars, payments, bookings[i], t)
  {
    if bookings != [] {
      var init, last := bookings[..|bookings| - 1], bookings[|bookings| - 1];
      RevenueByTypeKeys(cars, init, payments, t);
      assert forall i :: 0 <= i < |init| ==> init[i] == bookings[i];
      if exists i :: 0 <= i < |bookings| && Counted(cars, payments, bookings[i], t) {
        var i :| 0 <= i < |bookings| && Counted(cars, payments, bookings[i], t);
        if i < |init| {
          assert Counted(cars, payments, init[i], t);
        }
      }
    }
  }

  /** Each type holds what the payments of its bookings add up to: the
      amount of each counted booking's first payment, 0 when that payment has
      no amount. */
  lemma {:induction false} RevenueByTypeValue(cars: seq<Car>, bookings: seq<Booking>, payments: seq<Payment>, t: string)
    ensures t in RevenueByType(cars, bookings, payments) ==> RevenueByType(cars, bookings, payments)[t] == Sum(bookings, ShareOf(cars, payments, t))
    ensures t !in RevenueByType(cars, bookings, payments) ==> Sum(bookings, ShareOf(cars, payments, t)) == 0
  {
    if bookings != [] {
      var init, last := bookings[..|bookings| - 1], bookings[|bookings| - 1];
      RevenueByTypeValue(cars, init, payments, t);
      SumSnoc(init, last, ShareOf(cars, payments, t));
      assert bookings == init + [last];
    }
  }

  /** `generateRevenueByCarType`: the `forEach` over the bookings that adds
      each paid booking's amount under its car's type. */
  method GenerateRevenueByCarType(cars: seq<Car>, bookings: seq<Booking>, payments: seq<Payment>) returns (revenueByType: map<string, int>)
    ensures revenueByType == RevenueByType(cars, bookings, payments)
  {
    revenueByType := map[];
    var i := 0;
    while i < |bookings|
      invariant 0 <= i <= |bookings|
      invariant revenueByType == RevenueByType(cars, bookings[..i], payments)
    {
      var booking := bookings[i];
      var car := CarOf(cars, booking);
      var payment := PaymentOf(payments, booking);
      if car.Some? && payment.Some? {
        var t := car.value.carType;
        revenueByType := revenueByType[t := (if t in revenueByType then revenueByType[t] else 0) + AmountOrZero(payment.value)];
      }
      assert bookings[..i + 1][..i] == bookings[..i];
      i := i + 1;
    }
    assert bookings[..i] == bookings;
  }

  /** The slices of the revenue chart add up to the amounts of the first
      payments of the bookings that have both a car and a payment. */
  lemma {:induction false} RevenueByTypeTotal(cars: seq<Car>, bookings: seq<Booking>, payments: seq<Payment>)
    ensures MapSum(RevenueByType(cars, bookings, payments)) == Sum(bookings, Contribution(cars, payments))
  {
    if bookings == [] {
      assert RevenueByType(cars, bookings, payments) == map[];
    } else {
      var init, last := bookings[..|bookings| - 1], bookings[|bookings| - 1];
      assert bookings == init + [last];
      RevenueByTypeTotal(cars, init, payments);
      SumSnoc(init, last, Contribution(cars, payments));
      var acc := RevenueByType(cars, init, payments);
      var car, payment := CarOf(cars, last), PaymentOf(payments, last);
      if car.Some? && payment.Some? {
        var t := car.value.carType;
        var v := (if t in acc then acc[t] else 0) + AmountOrZero(payment.value);
        assert RevenueByType(cars, bookings, payments) == acc[t := v];
        MapSumUpdate(acc, t, v);
      } else {
        assert RevenueByType(cars, bookings, payments) == acc;
      }
    }
  }

  /** A booking without a payment leaves the chart as it was. */
  lemma UnpaidBookingAddsNothing(cars: seq<Car>, bookings: seq<Booking>, payments: seq<Payment>, b: Booking)
    requires forall i :: 0 <= i < |payments| ==> payments[i].bookingId != b.id
    ensures RevenueByType(cars, bookings + [b], payments) == RevenueByType(cars, bookings, payments)
  {
    FindSpec(payments, ForBooking(b.id));
    assert (bookings + [b])[..|bookings|] == bookings;
  }

  // ---------------------------------------------------------------------
  // Histograms

  const Days: seq<string> := ["Sunday", "Monday", "Tuesday", "Wednesday", "Thursday", "Friday", "Saturday"]

  lemma DaysDistinct()
    ensures forall i, j :: 0 <= i < j < 7 ==> Days[i] != Days[j]
  {
    assert Days[0][1] == 'u' && Days[6][1] == 'a';
    assert Days[2][1] == 'u' && Days[4][1] == 'h';
  }

  /** The booking was created on weekday `d` (`getDay()`, 0 is Sunday). */
  function CreatedOnDay(d: Weekday): Booking -> bool
  {
    (b: Booking) => b.createdAt.Some? && b.createdAt.value.weekday == d
  }

  /** The booking was created in hour `h` (`getHours()`). */
  function CreatedInHour(h: Hour): Booking -> bool
  {
    (b: Booking) => b.createdAt.Some? && b.createdAt.value.hour == h
  }

  /** The booking has a creation time. */
  function HasCreatedAt(b: Booking): bool
  {
    b.createdAt.Some?
  }

  /** The day histogram is exact for `seen`: its keys are exactly the seven
      day names, each counts the bookings created on that weekday, and the
      counts add up to the number of bookings with a creation time. */
  ghost predicate DayCounts(bookingsByDay: map<string, int>, seen: seq<Booking>)
  {
    (forall k :: k in bookingsByDay <==> k in Days)
    && (forall d: Weekday :: bookingsByDay[Days[d]] == |Filter(seen, CreatedOnDay(d))|)
    && MapSum(bookingsByDay) == |Filter(seen, HasCreatedAt)|
  }

  lemma DayFiltersSnoc(seen: seq<Booking>, b: Booking)
    ensures forall d: Weekday :: |Filter(seen + [b], CreatedOnDay(d))| == |Filter(seen, CreatedOnDay(d))| + (if CreatedOnDay(d)(b) then 1 else 0)
  {
    forall d: Weekday ensures |Filter(seen + [b], CreatedOnDay(d))| == |Filter(seen, CreatedOnDay(d))| + (if CreatedOnDay(d)(b) then 1 else 0) {
      FilterSnoc(seen, b, CreatedOnDay(d));
    }
  }

  /** Incrementing the booking's weekday keeps every day's count exact. */
  lemma DayCountsBump(bookingsByDay: map<string, int>, seen: seq<Booking>, b: Booking)
    requires forall k :: k in bookingsByDay <==> k in Days
    requires forall d: Weekday :: bookingsByDay[Days[d]] == |Filter(seen, CreatedOnDay(d))|
    requires b.createdAt.Some?
    ensures var dayName := Days[b.createdAt.value.weekday];
      forall d: Weekday :: bookingsByDay[dayName := bookingsByDay[dayName] + 1][Days[d]] == |Filter(seen + [b], CreatedOnDay(d))|
  {
    var w := b.createdAt.value.weekday;
    var dayName := Days[w];
    var m := bookingsByDay[dayName := bookingsByDay[dayName] + 1];
    DayFiltersSnoc(seen, b);
    DaysDistinct();
    forall d: Weekday ensures m[Days[d]] == |Filter(seen + [b], CreatedOnDay(d))| {
      if d != w {
        assert Days[d] != dayName;
      }
    }
  }

  /** `bookingsByDay[dayName]++` for one more booking with a creation time
      keeps the histogram exact. */
  lemma DayCountsStep(bookingsByDay: map<string, int>, seen: seq<Booking>, b: Booking)
    requires DayCounts(bookingsByDay, seen) && b.createdAt.Some?
    ensures var dayName := Days[b.createdAt.value.weekday];
      DayCounts(bookingsByDay[dayName := bookingsByDay[dayName] + 1], seen + [b])
  {
    var dayName := Days[b.createdAt.value.weekday];
    var m := bookingsByDay[dayName := bookingsByDay[dayName] + 1];
    assert forall k :: k in m <==> k in Days;
    DayCountsBump(bookingsByDay, seen, b);
    FilterSnoc(seen, b, HasCreatedAt);
    MapSumUpdate(bookingsByDay, dayName, bookingsByDay[dayName] + 1);
  }

  /** A booking without a creation time leaves the histogram exact. */
  lemma DayCountsSkip(bookingsByDay: map<string, int>, seen: seq<Booking>, b: Booking)
    requires DayCounts(bookingsByDay, seen) && b.createdAt.None?
    ensures DayCounts(bookingsByDay, seen + [b])
  {
    FilterSnoc(seen, b, HasCreatedAt);
    DayFiltersSnoc(seen, b);
  }

  /** Before any booking, every day counts 0. */
  lemma DayCountsStart(bookingsByDay: map<string, int>)
    requires forall k :: k in bookingsByDay <==> k in Days
    requires forall k :: k in bookingsByDay ==> bookingsByDay[k] == 0
    requires MapSum(bookingsByDay) == 0
    ensures DayCounts(bookingsByDay, [])
  {
    forall d: Weekday ensures bookingsByDay[Days[d]] == |Filter([], CreatedOnDay(d))| {
      assert Days[d] in bookingsByDay;
    }
  }

  /** `days.forEach(day => { bookingsByDay[day] = 0; })` */
  method ZeroDays() returns (bookingsByDay: map<string, int>)
    ensures forall k :: k in bookingsByDay <==> k in Days
    ensures forall k :: k in bookingsByDay ==> bookingsByDay[k] == 0
    ensures MapSum(bookingsByDay) == 0
  {
    bookingsByDay := map[];
    var j := 0;
    while j < 7
      invariant 0 <= j <= 7
      invariant forall k :: k in bookingsByDay <==> k in Days[..j]
      invariant forall k :: k in bookingsByDay ==> bookingsByDay[k] == 0
      invariant MapSum(bookingsByDay) == 0
    {
      MapSumUpdate(bookingsByDay, Days[j], 0);
      bookingsByDay := bookingsByDay[Days[j] := 0];
      j := j + 1;
    }
    assert Days[..7] == Days;
  }

  /** The `forEach` callback: a booking with a creation time adds one under
      the name of its weekday; the histogram stays exact. */
  method CountDay(bookingsByDay: map<string, int>, ghost seen: seq<Booking>, booking: Booking) returns (counted: map<string, int>)
    requires DayCounts(bookingsByDay, seen)
    ensures DayCounts(counted, seen + [booking])
    ensures booking.createdAt.None? ==> counted == bookingsByDay
  {
    counted := bookingsByDay;
    if booking.createdAt.Some? {
      DayCountsStep(bookingsByDay, seen, booking);
      var dayName := Days[booking.createdAt.value.weekday];
      counted := counted[dayName := counted[dayName] + 1];
    } else {
      DayCountsSkip(bookingsByDay, seen, booking);
    }
  }

  /** `generateBookingsByDayOfWeek`: every one of the seven day names is a
      key, starting from 0; each booking with a creation time adds one under
      the name of its weekday. The counts add up to the number of bookings
      with a creation time. */
  method GenerateBookingsByDayOfWeek(bookings: seq<Booking>) returns (bookingsByDay: map<string, int>)
    ensures DayCounts(bookingsByDay, bookings)
  {
    bookingsByDay := ZeroDays();
    DayCountsStart(bookingsByDay);
    ghost var seen: seq<Booking> := [];
    var i := 0;
    while i < |bookings|
      invariant 0 <= i <= |bookings| && seen == bookings[..i]
      invariant DayCounts(bookingsByDay, seen)
    {
      assert bookings[..i + 1] == seen + [bookings[i]];
      bookingsByDay := CountDay(bookingsByDay, seen, bookings[i]);
      seen := seen + [bookings[i]];
      i := i + 1;
    }
    assert seen == bookings;
  }

  /** The hour histogram is exact for `seen`: its keys are exactly the hours
      0 to 23, each counts the bookings created in that hour, and the counts
      add up to the number of bookings with a creation time. */
  ghost predicate HourCounts(hourlyBookings: map<int, int>, seen: seq<Booking>)
  {
    (forall h :: h in hourlyBookings <==> 0 <= h < 24)
    && (forall h: Hour :: hourlyBookings[h] == |Filter(seen, CreatedInHour(h))|)
    && MapSum(hourlyBookings) == |Filter(seen, HasCreatedAt)|
  }

  lemma HourFiltersSnoc(seen: seq<Booking>, b: Booking)
    ensures forall h: Hour :: |Filter(seen + [b], CreatedInHour(h))| == |Filter(seen, CreatedInHour(h))| + (if CreatedInHour(h)(b) then 1 else 0)
  {
    forall h: Hour ensures |Filter(seen + [b], CreatedInHour(h))| == |Filter(seen, CreatedInHour(h))| + (if CreatedInHour(h)(b) then 1 else 0) {
      FilterSnoc(seen, b, CreatedInHour(h));
    }
  }

  /** `hourlyBookings[hour]++` for one more booking with a creation time
      keeps the histogram exact. */
  lemma HourCountsStep(hourlyBookings: map<int, int>, seen: seq<Booking>, b: Booking)
    requires HourCounts(hourlyBookings, seen) && b.createdAt.Some?
    ensures var hour := b.createdAt.value.hour;
      HourCounts(hourlyBookings[hour := hourlyBookings[hour] + 1], seen + [b])
  {
    var hour := b.createdAt.value.hour;
    FilterSnoc(seen, b, HasCreatedAt);
    HourFiltersSnoc(seen, b);
    MapSumUpdate(hourlyBookings, hour, hourlyBookings[hour] + 1);
  }

  /** A booking without a creation time leaves the histogram exact. */
  lemma HourCountsSkip(hourlyBookings: map<int, int>, seen: seq<Booking>, b: Booking)
    requires HourCounts(hourlyBookings, seen) && b.createdAt.None?
    ensures HourCounts(hourlyBookings, seen + [b])
  {
    FilterSnoc(seen, b, HasCreatedAt);
    HourFiltersSnoc(seen, b);
  }

  /** Before any booking, every hour counts 0. */
  lemma HourCountsStart(hourlyBookings: map<int, int>)
    requires forall h :: h in hourlyBookings <==> 0 <= h < 24
    requires forall h :: h in hourlyBookings ==> hourlyBookings[h] == 0
    requires MapSum(hourlyBookings) == 0
    ensures HourCounts(hourlyBookings, [])
  {
  }

  /** `for (let i = 0; i < 24; i++) hourlyBookings[i] = 0;` */
  method ZeroHours() returns (hourlyBookings: map<int, int>)
    ensures forall h :: h in hourlyBookings <==> 0 <= h < 24
    ensures forall h :: h in hourlyBookings ==> hourlyBookings[h] == 0
    ensures MapSum(hourlyBookings) == 0
  {
    hourlyBookings := map[];
    var i := 0;
    while i < 24
      invariant 0 <= i <= 24
      invariant forall h :: h in hourlyBookings <==> 0 <= h < i
      invariant forall h :: h in hourlyBookings ==> hourlyBookings[h] == 0
      invariant MapSum(hourlyBookings) == 0
    {
      MapSumUpdate(hourlyBookings, i, 0);
      hourlyBookings := hourlyBookings[i := 0];
      i := i + 1;
    }
  }

  /** The `forEach` callback: a booking with a creation time adds one under
      its hour; the histogram stays exact. */
  method CountHour(hourlyBookings: map<int, int>, ghost seen: seq<Booking>, booking: Booking) returns (counted: map<int, int>)
    requires HourCounts(hourlyBookings, seen)
    ensures HourCounts(counted, seen + [booking])
    ensures booking.createdAt.None? ==> counted == hourlyBookings
  {
    counted := hourlyBookings;
    if booking.createdAt.Some? {
      HourCountsStep(hourlyBookings, seen, booking);
      var hour := booking.createdAt.value.hour;
      counted := counted[hour := counted[hour] + 1];
    } else {
      HourCountsSkip(hourlyBookings, seen, booking);
    }
  }

  /** `generateBookingsByHour`: the keys are exactly the hours 0 to 23,
      starting from 0; each booking with a creation time adds one under its
      hour. The counts add up to the number of bookings with a creation time. */
  method GenerateBookingsByHour(bookings: seq<Booking>) returns (hourlyBookings: map<int, int>)
    ensures HourCounts(hourlyBookings, bookings)
  {
    hourlyBookings := ZeroHours();
    HourCountsStart(hourlyBookings);
    ghost var seen: seq<Booking> := [];
    var i := 0;
    while i < |bookings|
      invariant 0 <= i <= |bookings| && seen == bookings[..i]
      invariant HourCounts(hourlyBookings, seen)
    {
      assert bookings[..i + 1] == seen + [bookings[i]];
      hourlyBookings := CountHour(hourlyBookings, seen, bookings[i]);
      seen := seen + [bookings[i]];
      i := i + 1;
    }
    assert seen == bookings;
  }

  // ---------------------------------------------------------------------
  // Customer lifetime value

  /** The filter callback `booking => booking.userId === user.id`. */
  function OfUser(id: Id): Booking -> bool
  {
    (b: Booking) => b.userId == id
  }

  /** `payment ? payment.amount : 0` for the booking's first payment. */
  function PaidFor(payments: seq<Payment>): Booking -> int
  {
    b => match PaymentOf(payments, b) case Some(p) => AmountOrZero(p) case None => 0
  }

  /** One row of the lifetime-value table. */
  datatype CustomerValue = CustomerValue(customerName: string, totalRevenue: int, bookingCount: nat)

  /** The row of one user: the name, the user's bookings counted, and what
      their first payments add up to. */
  function ValueOf(bookings: seq<Booking>, payments: seq<Payment>, user: User): (c: CustomerValue)
    ensures c.customerName == user.name
    ensures c.bookingCount == |Filter(bookings, OfUser(user.id))| <= |bookings|
    ensures c.bookingCount == 0 ==> c.totalRevenue == 0
  {
    var userBookings := Filter(bookings, OfUser(user.id));
    CustomerValue(user.name, Sum(userBookings, PaidFor(payments)), |userBookings|)
  }

  function Revenue(c: CustomerValue): int
  {
    c.totalRevenue
  }

  predicate HasRevenue(c: CustomerValue)
  {
    c.totalRevenue > 0
  }

  /** `users.map(user => ...)` of `generateCustomerLifetimeValue`. */
  function ValuesOf(users: seq<User>, bookings: seq<Booking>, payments: seq<Payment>): (r: seq<CustomerValue>)
    ensures |r| == |users|
    ensures forall i :: 0 <= i < |users| ==> r[i] == ValueOf(bookings, payments, users[i])
  {
    seq(|users|, i requires 0 <= i < |users| => ValueOf(bookings, payments, users[i]))
  }

  /** A customer who brought in revenue made at least one booking: a sum
      over no bookings is 0. */
  lemma RevenueNeedsBooking(bookings: seq<Booking>, payments: seq<Payment>, user: User)
    ensures HasRevenue(ValueOf(bookings, payments, user)) ==> ValueOf(bookings, payments, user).bookingCount >= 1
  {
  }

  /** `generateCustomerLifetimeValue`: the ten customers (or fewer) who
      brought in the most revenue, highest first; only customers with revenue
      are listed, each with at least one booking, and no customer with
      revenue left out brought in more than a customer listed. */
  function GenerateCustomerLifetimeValue(users: seq<User>, bookings: seq<Booking>, payments: seq<Payment>): (r: seq<CustomerValue>)
    ensures |r| <= 10 && |r| <= |users|
    ensures NonIncreasing(r, Revenue)
    ensures |r| == Min(10, |Filter(ValuesOf(users, bookings, payments), HasRevenue)|)
    ensures multiset(r) <= multiset(Filter(ValuesOf(users, bookings, payments), HasRevenue))
    ensures forall x :: x in multiset(Filter(ValuesOf(users, bookings, payments), HasRevenue)) - multiset(r) ==>
      |r| == 10 && forall i :: 0 <= i < |r| ==> x.totalRevenue <= r[i].totalRevenue
    ensures forall k :: WithKey(r, Revenue, k) <= WithKey(Filter(ValuesOf(users, bookings, payments), HasRevenue), Revenue, k)
    ensures forall i :: 0 <= i < |r| ==> r[i].totalRevenue > 0 && r[i].bookingCount >= 1
    ensures forall i :: 0 <= i < |r| ==> exists u :: u in users && r[i] == ValueOf(bookings, payments, u)
    ensures forall u :: u in users && HasRevenue(ValueOf(bookings, payments, u)) && ValueOf(bookings, payments, u) !in r ==>
      |r| == 10 && forall i :: 0 <= i < |r| ==> ValueOf(bookings, payments, u).totalRevenue <= r[i].totalRevenue
  {
    var r := TopByKey(Filter(ValuesOf(users, bookings, payments), HasRevenue), Revenue, 10);
    LifetimeValueRanked(users, bookings, payments, r);
    LifetimeValueLeftOut(users, bookings, payments, r);
    r
  }

  lemma LifetimeValueRanked(users: seq<User>, bookings: seq<Booking>, payments: seq<Payment>, r: seq<CustomerValue>)
    requires r == TopByKey(Filter(ValuesOf(users, bookings, payments), HasRevenue), Revenue, 10)
    ensures forall i :: 0 <= i < |r| ==> r[i].totalRevenue > 0 && r[i].bookingCount >= 1
    ensures forall i :: 0 <= i < |r| ==> exists u :: u in users && r[i] == ValueOf(bookings, payments, u)
    ensures forall u :: u in users && HasRevenue(ValueOf(bookings, payments, u)) && ValueOf(bookings, payments, u) !in r ==>
      |r| == 10 && forall i :: 0 <= i < |r| ==> ValueOf(bookings, payments, u).totalRevenue <= r[i].totalRevenue
  {
    var all := ValuesOf(users, bookings, payments);
    var paying := Filter(all, HasRevenue);
    FilterMembers(all, HasRevenue);
    TopByKeyMembers(paying, Revenue, 10);
    forall i | 0 <= i < |r| ensures r[i].totalRevenue > 0 && r[i].bookingCount >= 1 && exists u :: u in users && r[i] == ValueOf(bookings, payments, u) {
      assert r[i] in paying;
      var j :| 0 <= j < |all| && all[j] == r[i];
      assert users[j] in users;
      RevenueNeedsBooking(bookings, payments, users[j]);
    }
    forall u | u in users && HasRevenue(ValueOf(bookings, payments, u)) && ValueOf(bookings, payments, u) !in r
      ensures |r| == 10 && forall i :: 0 <= i < |r| ==> ValueOf(bookings, payments, u).totalRevenue <= r[i].totalRevenue
    {
      var j :| 0 <= j < |users| && users[j] == u;
      assert all[j] in all;
    }
  }

  /** Counting copies: a paying row left out (two users may have identical
      rows) means the list is full and ranks no higher than any row listed. */
  lemma LifetimeValueLeftOut(users: seq<User>, bookings: seq<Booking>, payments: seq<Payment>, r: seq<CustomerValue>)
    requires r == TopByKey(Filter(ValuesOf(users, bookings, payments), HasRevenue), Revenue, 10)
    ensures forall x :: x in multiset(Filter(ValuesOf(users, bookings, payments), HasRevenue)) - multiset(r) ==>
      |r| == 10 && forall i :: 0 <= i < |r| ==> x.totalRevenue <= r[i].totalRevenue
  {
    TopByKeyFull(Filter(ValuesOf(users, bookings, payments), HasRevenue), Revenue, 10);
  }

  /** The "Avg. per Booking" column: defined for every row listed, since each
      has at least one booking. The rounding is not modelled. */
  function AveragePerBooking(c: CustomerValue): (r: real)
    requires c.bookingCount >= 1
    ensures r * (c.bookingCount as real) == c.totalRevenue as real
  {
    (c.totalRevenue as real) / (c.bookingCount as real)
  }

  // ---------------------------------------------------------------------
  // Key performance indicators

  /** `m[k] || 0` */
  function CountOr0(m: map<string, int>, k: string): int
  {
    if k in m then m[k] else 0
  }

  /** "Booking Success Rate": the share of paid bookings, in percent, 0 when
      there are no bookings. */
  function SuccessRate(bookingsByStatus: map<string, int>, bookings: nat): (r: real)
    ensures bookings == 0 ==> r == 0.0
    ensures bookings > 0 ==> r * (bookings as real) == (CountOr0(bookingsByStatus, "PAID") as real) * 100.0
  {
    if bookings > 0 then (CountOr0(bookingsByStatus, "PAID") as real) / (bookings as real) * 100.0 else 0.0
  }

  /** `whole > 0 ? part / whole : 0`, before rounding: the guarded quotient
      of the "Average Revenue per Booking" and "Bookings per Car" tiles. */
  function Ratio(part: int, whole: nat): (r: real)
    ensures whole == 0 ==> r == 0.0
    ensures whole > 0 ==> r * (whole as real) == part as real
  {
    if whole > 0 then (part as real) / (whole as real) else 0.0
  }

  /** "Average Revenue per Booking": the revenue tile shared out over the
      bookings tile, 0 when there are no bookings. */
  function RevenuePerBooking(stats: Stats): (r: real)
    ensures stats.bookings == 0 ==> r == 0.0
    ensures stats.bookings > 0 ==> r * (stats.bookings as real) == stats.revenue as real
  {
    Ratio(stats.revenue, stats.bookings)
  }

  /** "Bookings per Car": the bookings tile shared out over the cars tile, 0
      when there are no cars; never negative. */
  function BookingsPerCar(stats: Stats): (r: real)
    ensures stats.cars == 0 ==> r == 0.0
    ensures stats.cars > 0 ==> r * (stats.cars as real) == stats.bookings as real && r >= 0.0
  {
    Ratio(stats.bookings, stats.cars)
  }

  /** A part over a positive whole is a fraction between 0 and 1. */
  lemma FractionBounds(part: real, whole: real)
    requires 0.0 <= part <= whole && whole > 0.0
    ensures 0.0 <= part / whole <= 1.0
  {
  }

  /** With the status counts tallied from the bookings, the success rate is
      a percentage: the paid bookings are some of the bookings. */
  lemma SuccessRateIsPercentage(bookings: seq<Booking>)
    ensures 0.0 <= SuccessRate(TallyBy(bookings, Status), |bookings|) <= 100.0
  {
    var paid := CountOr0(TallyBy(bookings, Status), "PAID");
    assert 0 <= paid <= |bookings|;
    if |bookings| > 0 {
      FractionBounds(paid as real, |bookings| as real);
    }
  }

  // ---------------------------------------------------------------------
  // The whole pipeline

  /** The chart-ready structures of `prepareChartData`. */
  datatype ChartData = ChartData(
    monthlyRevenue: seq<MonthValue>,
    bookingsByStatus: map<string, int>,
    carsByType: map<string, int>,
    userRegistrations: seq<MonthValue>,
    monthlyBookings: seq<MonthValue>,
    carUtilization: seq<CarUtilization>,
    revenueByCarType: map<string, int>,
    bookingsByDayOfWeek: map<string, int>,
    bookingsByHour: map<int, int>,
    customerLifetimeValue: seq<CustomerValue>,
    popularCars: seq<CarPopularity>)

  /** What `prepareChartData` builds: each series, count and ranking of the
      dashboard, as specified above, from the four collections. */
  ghost predicate ChartOf(chart: ChartData, users: seq<User>, cars: seq<Car>, bookings: seq<Booking>, payments: seq<Payment>, now: YearMonth)
  {
    chart.monthlyRevenue == LastSixMonths(now, MonthTotalOf(payments, PaymentTime, AmountOrZero))
    && chart.userRegistrations == LastSixMonths(now, MonthCountOf(users, UserCreated))
    && chart.monthlyBookings == LastSixMonths(now, MonthCountOf(bookings, BookingCreated))
    && chart.bookingsByStatus == TallyBy(bookings, Status) && MapSum(chart.bookingsByStatus) == |bookings|
    && chart.carsByType == TallyBy(cars, CarType) && MapSum(chart.carsByType) == |cars|
    && chart.carUtilization == GenerateCarUtilization(cars, bookings)
    && chart.revenueByCarType == RevenueByType(cars, bookings, payments)
    && DayCounts(chart.bookingsByDayOfWeek, bookings)
    && HourCounts(chart.bookingsByHour, bookings)
    && chart.customerLifetimeValue == GenerateCustomerLifetimeValue(users, bookings, payments)
    && chart.popularCars == GeneratePopularCars(cars, bookings)
  }

  /** `prepareChartData`: every chart structure built from the four collections. */
  method PrepareChartData(users: seq<User>, cars: seq<Car>, bookings: seq<Booking>, payments: seq<Payment>, now: YearMonth)
    returns (chart: ChartData)
    ensures ChartOf(chart, users, cars, bookings, payments, now)
  {
    var monthlyRevenue := GenerateMonthlyRevenue(payments, now);
    var bookingsByStatus := TallyBy(bookings, Status);
    BookingsByStatusTotal(bookings);
    var carsByType := TallyBy(cars, CarType);
    CarsByTypeTotal(cars);
    var userRegistrations := GenerateMonthlyUserRegistrations(users, now);
    var monthlyBookings := GenerateMonthlyBookings(bookings, now);
    var carUtilization := GenerateCarUtilization(cars, bookings);
    var revenueByCarType := GenerateRevenueByCarType(cars, bookings, payments);
    var bookingsByDayOfWeek := GenerateBookingsByDayOfWeek(bookings);
    var bookingsByHour := GenerateBookingsByHour(bookings);
    var customerLifetimeValue := GenerateCustomerLifetimeValue(users, bookings, payments);
    var popularCars := GeneratePopularCars(cars, bookings);
    chart := ChartData(monthlyRevenue, bookingsByStatus, carsByType, userRegistrations, monthlyBookings,
      carUtilization, revenueByCarType, bookingsByDayOfWeek, bookingsByHour, customerLifetimeValue, popularCars);
  }

  /** `fetchStats` once the four collections have arrived: the summary
      figures, then `prepareChartData`; the paid share of the status counts
      is a percentage. */
  method FetchStats(users: seq<User>, cars: seq<Car>, bookings: seq<Booking>, payments: seq<Payment>, now: YearMonth)
    returns (stats: Stats, chart: ChartData)
    ensures stats.users == |users| && stats.cars == |cars| && stats.bookings == |bookings|
    ensures stats.revenue == TotalRevenue(payments)
    ensures ChartOf(chart, users, cars, bookings, payments, now)
    ensures MapSum(chart.bookingsByStatus) == stats.bookings && MapSum(chart.carsByType) == stats.cars
    ensures 0.0 <= SuccessRate(chart.bookingsByStatus, stats.bookings) <= 100.0
  {
    stats := SummaryStats(users, cars, bookings, payments);
    chart := PrepareChartData(users, cars, bookings, payments, now);
    SuccessRateIsPercentage(bookings);
  }
}
