/** The data shaping of the clinic dashboard: the tables derived once at
    startup (revenue per year with its growth column, year-to-date revenue),
    the default control values, and the reactive handler that masks the
    appointment and revenue tables by an inclusive date range and a set of
    service categories and aggregates them for its three charts. All tables
    are immutable snapshots; the handler is a function of them and of the
    control values. */
module Dashboard {
  import opened Tables

  // ---------------------------------------------------------------------
  // Calendar dates at day granularity

  type DayOfYear = d: int | 1 <= d <= 366 witness 1

  /** A calendar date as its year and its 1-based ordinal day within that year. */
  datatype Date = Date(year: int, dayOfYear: DayOfYear)

  /** Calendar order: earlier year first, then earlier day. */
  predicate AtOrBefore(a: Date, b: Date)
  {
    a.year < b.year || (a.year == b.year && a.dayOfYear <= b.dayOfYear)
  }

  /** A number that orders dates the way the calendar does; used to sort groups by date. */
  function SortKey(d: Date): int
  {
    d.year * 366 + d.dayOfYear
  }

  /** SortKey is an order-isomorphism: it orders dates exactly as the calendar does. */
  lemma SortKeyOrder(a: Date, b: Date)
    ensures AtOrBefore(a, b) <==> SortKey(a) <= SortKey(b)
    ensures a == b <==> SortKey(a) == SortKey(b)
  {
    if a.year < b.year {
      assert a.year * 366 + 366 <= b.year * 366;
    } else if b.year < a.year {
      assert b.year * 366 + 366 <= a.year * 366;
    }
  }

  // ---------------------------------------------------------------------
  // The loaded tables

  /** One row of the appointment query: the appointment's date, status and its service's category. */
  datatype Appointment = Appointment(date: Date, status: string, category: string)

  /** One row of the revenue query: a billing record's payment date, total amount and its service's category. */
  datatype Payment = Payment(paymentDate: Date, totalAmount: int, category: string)

  // Column accessors, used as group keys and summed values.
  function AppointmentDate(a: Appointment): Date { a.date }
  function Status(a: Appointment): string { a.status }
  function RowCount(a: Appointment): int { 1 }
  function PaymentDate(p: Payment): Date { p.paymentDate }
  function Amount(p: Payment): int { p.totalAmount }
  /** The derived `Year` column of the revenue table. */
  function Year(p: Payment): int { p.paymentDate.year }

  /** Sort scores: by date, by year, and by descending count. */
  function DateScore(g: Group<Date>): int { SortKey(g.key) }
  function YearScore(g: Group<int>): int { g.key }
  function DescendingSize(g: Group<string>): int { -(g.size as int) }

  // ---------------------------------------------------------------------
  // The reactive handler

  /** The three control values: start and end of the date picker, and the dropdown's categories. */
  datatype Selection = Selection(start: Date, end: Date, categories: seq<string>)

  /** The mask shared by both tables: the date lies in [start, end], both ends
      included, and the category is one of the selected ones. */
  predicate Chosen(sel: Selection, d: Date, category: string)
  {
    AtOrBefore(sel.start, d) && AtOrBefore(d, sel.end) && category in sel.categories
  }

  /** The masked appointment table: exactly the chosen rows, in their original order. */
  function FilterAppointments(appts: seq<Appointment>, sel: Selection): (r: seq<Appointment>)
    ensures |r| <= |appts|
    ensures forall a :: a in r <==> a in appts && Chosen(sel, a.date, a.category)
  {
    Filter(appts, (a: Appointment) => Chosen(sel, a.date, a.category))
  }

  /** The masked revenue table, by the same predicate on payment date and category. */
  function FilterPayments(revenue: seq<Payment>, sel: Selection): (r: seq<Payment>)
    ensures |r| <= |revenue|
    ensures forall p :: p in r <==> p in revenue && Chosen(sel, p.paymentDate, p.category)
  {
    Filter(revenue, (p: Payment) => Chosen(sel, p.paymentDate, p.category))
  }

  /** `groupby('AppointmentDate').size()`: one row per date present, dates
      strictly ascending, each with its number of appointments. */
  function AppointmentsPerDate(appts: seq<Appointment>): (r: seq<Group<Date>>)
    ensures IsGrouping(r, appts, AppointmentDate, RowCount)
    ensures forall i, j :: 0 <= i < j < |r| ==> AtOrBefore(r[i].key, r[j].key) && r[i].key != r[j].key
  {
    var gs := GroupRows(appts, AppointmentDate, RowCount);
    var r := SortBy(gs, DateScore);
    SortKeepsGrouping(gs, appts, AppointmentDate, RowCount, DateScore);
    DatesAscending(r);
    r
  }

  /** `Status.value_counts()`: one row per status present with its count,
      counts non-increasing. */
  function StatusCounts(appts: seq<Appointment>): (r: seq<Group<string>>)
    ensures IsGrouping(r, appts, Status, RowCount)
    ensures forall i, j :: 0 <= i < j < |r| ==> r[i].size >= r[j].size
  {
    var gs := GroupRows(appts, Status, RowCount);
    var r := SortBy(gs, DescendingSize);
    SortKeepsGrouping(gs, appts, Status, RowCount, DescendingSize);
    r
  }

  /** `groupby('PaymentDate')['TotalAmount'].sum()`: one row per payment date
      present, dates strictly ascending, each with the sum of its amounts. */
  function RevenuePerDate(revenue: seq<Payment>): (r: seq<Group<Date>>)
    ensures IsGrouping(r, revenue, PaymentDate, Amount)
    ensures forall i, j :: 0 <= i < j < |r| ==> AtOrBefore(r[i].key, r[j].key) && r[i].key != r[j].key
  {
    var gs := GroupRows(revenue, PaymentDate, Amount);
    var r := SortBy(gs, DateScore);
    SortKeepsGrouping(gs, revenue, PaymentDate, Amount, DateScore);
    DatesAscending(r);
    r
  }

  /** Groups sorted by date score with distinct keys are in strictly ascending calendar order. */
  lemma DatesAscending(r: seq<Group<Date>>)
    requires DistinctKeys(r) && SortedBy(r, DateScore)
    ensures forall i, j :: 0 <= i < j < |r| ==> AtOrBefore(r[i].key, r[j].key) && r[i].key != r[j].key
  {
    forall g: Group<Date>, h: Group<Date> | g.key != h.key ensures DateScore(g) != DateScore(h) {
      SortKeyOrder(g.key, h.key);
    }
    StrictlySorted(r, DateScore);
    forall i, j | 0 <= i < j < |r| ensures AtOrBefore(r[i].key, r[j].key) && r[i].key != r[j].key {
      SortKeyOrder(r[i].key, r[j].key);
    }
  }

  /** The handler's three outputs, in the order of its return statement. */
  datatype Figures = Figures(
    appointmentsOverTime: seq<Group<Date>>,
    revenueOverTime: seq<Group<Date>>,
    statusDistribution: seq<Group<string>>)

  /** The reactive handler: masks both tables by the selection and aggregates them. */
  function UpdateFigures(appts: seq<Appointment>, revenue: seq<Payment>, sel: Selection): (f: Figures)
    ensures IsGrouping(f.appointmentsOverTime, FilterAppointments(appts, sel), AppointmentDate, RowCount)
    ensures IsGrouping(f.statusDistribution, FilterAppointments(appts, sel), Status, RowCount)
    ensures IsGrouping(f.revenueOverTime, FilterPayments(revenue, sel), PaymentDate, Amount)
    ensures forall i, j :: 0 <= i < j < |f.appointmentsOverTime| ==>
              AtOrBefore(f.appointmentsOverTime[i].key, f.appointmentsOverTime[j].key)
              && f.appointmentsOverTime[i].key != f.appointmentsOverTime[j].key
    ensures forall i, j :: 0 <= i < j < |f.revenueOverTime| ==>
              AtOrBefore(f.revenueOverTime[i].key, f.revenueOverTime[j].key)
              && f.revenueOverTime[i].key != f.revenueOverTime[j].key
    ensures forall i, j :: 0 <= i < j < |f.statusDistribution| ==>
              f.statusDistribution[i].size >= f.statusDistribution[j].size
  {
    var shown := FilterAppointments(appts, sel);
    Figures(AppointmentsPerDate(shown), RevenuePerDate(FilterPayments(revenue, sel)), StatusCounts(shown))
  }

  /** No category selected, or a start after the end: both masked tables and
      all three aggregates are empty, and the handler still returns its three outputs. */
  lemma EmptySelection(appts: seq<Appointment>, revenue: seq<Payment>, sel: Selection)
    requires sel.categories == [] || !AtOrBefore(sel.start, sel.end)
    ensures FilterAppointments(appts, sel) == [] && FilterPayments(revenue, sel) == []
    ensures UpdateFigures(appts, revenue, sel) == Figures([], [], [])
  {
    assert forall d, c :: !Chosen(sel, d, c);
    var f := UpdateFigures(appts, revenue, sel);
    GroupingOfNothing(f.appointmentsOverTime, AppointmentDate, RowCount);
    GroupingOfNothing(f.statusDistribution, Status, RowCount);
    GroupingOfNothing(f.revenueOverTime, PaymentDate, Amount);
  }

  // ---------------------------------------------------------------------
  // Default control values

  /** `AppointmentDate.min()`; None stands for pandas' NaT on an empty table. */
  function EarliestDate(appts: seq<Appointment>): (r: Option<Date>)
    ensures r.None? <==> appts == []
    ensures r.Some? ==> (exists a :: a in appts && a.date == r.value)
                        && forall a :: a in appts ==> AtOrBefore(r.value, a.date)
  {
    if appts == [] then None
    else
      match EarliestDate(appts[1..])
      case None => Some(appts[0].date)
      case Some(d) =>
        assert forall a :: a in appts ==> a == appts[0] || a in appts[1..];
        if AtOrBefore(appts[0].date, d) then Some(appts[0].date) else Some(d)
  }

  /** `AppointmentDate.max()`; None stands for pandas' NaT on an empty table. */
  function LatestDate(appts: seq<Appointment>): (r: Option<Date>)
    ensures r.None? <==> appts == []
    ensures r.Some? ==> (exists a :: a in appts && a.date == r.value)
                        && forall a :: a in appts ==> AtOrBefore(a.date, r.value)
  {
    if appts == [] then None
    else
      match LatestDate(appts[1..])
      case None => Some(appts[0].date)
      case Some(d) =>
        assert forall a :: a in appts ==> a == appts[0] || a in appts[1..];
        if AtOrBefore(d, appts[0].date) then Some(appts[0].date) else Some(d)
  }

  /** `unique()`: each value of the column exactly once. */
  function Unique(s: seq<string>): (r: seq<string>)
    ensures forall x :: x in r <==> x in s
    ensures forall i, j :: 0 <= i < j < |r| ==> r[i] != r[j]
  {
    if s == [] then []
    else
      var init := Unique(s[..|s| - 1]);
      assert s == s[..|s| - 1] + [s[|s| - 1]];
      if s[|s| - 1] in init then init else init + [s[|s| - 1]]
  }

  /** The controls' initial values: the whole span of appointment dates and
      every service category. None when the appointment table is empty (the
      picker then starts at NaT). */
  function DefaultSelection(appts: seq<Appointment>, serviceCategories: seq<string>): (r: Option<Selection>)
    ensures r.None? <==> appts == []
    ensures r.Some? ==> Some(r.value.start) == EarliestDate(appts) && Some(r.value.end) == LatestDate(appts)
    ensures r.Some? ==> forall c :: c in r.value.categories <==> c in serviceCategories
  {
    match (EarliestDate(appts), LatestDate(appts))
    case (Some(first), Some(last)) => Some(Selection(first, last, Unique(serviceCategories)))
    case _ => None
  }

  /** With the default controls the appointment mask keeps every row, provided
      every appointment's category is a service category (the query joins
      appointments to services). */
  lemma DefaultKeepsEveryAppointment(appts: seq<Appointment>, serviceCategories: seq<string>)
    requires forall a :: a in appts ==> a.category in serviceCategories
    ensures DefaultSelection(appts, serviceCategories).Some? ==>
              FilterAppointments(appts, DefaultSelection(appts, serviceCategories).value) == appts
  {
    var d := DefaultSelection(appts, serviceCategories);
    if d.Some? {
      var sel := d.value;
      FilterKeepsAll(appts, (a: Appointment) => Chosen(sel, a.date, a.category));
    }
  }

  // ---------------------------------------------------------------------
  // Tables derived at startup

  /** Revenue per year: one row per payment year present, years strictly
      ascending, each with that year's total; the totals add up to the grand total. */
  function AnnualRevenue(revenue: seq<Payment>): (r: seq<Group<int>>)
    ensures IsGrouping(r, revenue, Year, Amount)
    ensures forall i, j :: 0 <= i < j < |r| ==> r[i].key < r[j].key
  {
    var gs := GroupRows(revenue, Year, Amount);
    var r := SortBy(gs, YearScore);
    SortKeepsGrouping(gs, revenue, Year, Amount, YearScore);
    StrictlySorted(r, YearScore);
    r
  }

  /** One cell of `pct_change() * 100`: absent for the earliest year, undefined
      (inf or NaN in pandas) after a zero year. */
  datatype Growth = NoPrior | Percent(value: real) | Undefined

  function Change(previous: int, current: int): (g: Growth)
    ensures previous == 0 <==> g.Undefined?
    ensures g.Percent? ==> g.value * previous as real == (current - previous) as real * 100.0
    ensures g.Percent? && previous > 0 ==> (g.value > 0.0 <==> current > previous)
  {
    if previous == 0 then Undefined
    else Percent((current - previous) as real / previous as real * 100.0)
  }

  /** The growth column: one cell per year, none for the earliest, and each
      later cell the percentage change over the row before it. */
  function GrowthColumn(annual: seq<Group<int>>): (g: seq<Growth>)
    ensures |g| == |annual|
    ensures |g| > 0 ==> g[0] == NoPrior
    ensures forall i :: 0 < i < |g| ==> g[i] == Change(annual[i - 1].total, annual[i].total)
  {
    seq(|annual|, i requires 0 <= i < |annual| =>
      if i == 0 then NoPrior else Change(annual[i - 1].total, annual[i].total))
  }

  /** Revenue of 100, 150 and 120 in three consecutive years grows by 50% and then by -20%. */
  lemma GrowthExample()
    ensures GrowthColumn([Group(2021, 1, 100), Group(2022, 1, 150), Group(2023, 1, 120)])
            == [NoPrior, Percent(50.0), Percent(-20.0)]
  {
    var g := GrowthColumn([Group(2021, 1, 100), Group(2022, 1, 150), Group(2023, 1, 120)]);
    assert g[1] == Percent(50.0);
    assert g[2] == Percent(-20.0);
  }

  /** The year-to-date mask: paid on or before today's day of the year, whatever the year. */
  function PaidBy(today: DayOfYear): Payment -> bool
  {
    (p: Payment) => p.paymentDate.dayOfYear <= today
  }

  /** The revenue rows paid on or before today's day of the year. */
  function YearToDateRows(revenue: seq<Payment>, today: DayOfYear): (r: seq<Payment>)
    ensures forall p :: p in r <==> p in revenue && p.paymentDate.dayOfYear <= today
  {
    Filter(revenue, PaidBy(today))
  }

  /** Year-to-date revenue: per year, the sum of the amounts paid on or before
      today's day of the year; years with no such payment are absent. */
  function YearToDate(revenue: seq<Payment>, today: DayOfYear): (r: seq<Group<int>>)
    ensures IsGrouping(r, YearToDateRows(revenue, today), Year, Amount)
    ensures forall i, j :: 0 <= i < j < |r| ==> r[i].key < r[j].key
  {
    AnnualRevenue(YearToDateRows(revenue, today))
  }

  /** Each year's year-to-date revenue is at most its annual revenue when no
      amount is negative, and every year-to-date year is an annual year. */
  lemma YearToDateWithinAnnual(revenue: seq<Payment>, today: DayOfYear, year: int)
    requires forall p :: p in revenue ==> p.totalAmount >= 0
    ensures Keys(YearToDate(revenue, today)) <= Keys(AnnualRevenue(revenue))
    ensures TotalAt(YearToDate(revenue, today), year) <= TotalAt(AnnualRevenue(revenue), year)
  {
    KeySetFilter(revenue, PaidBy(today), Year);
    SumKeyFilterAtMost(revenue, PaidBy(today), Year, Amount, year);
  }

  /** Payments on day 10 and day 200 of one year, seen on day 50: only the day-10 payment counts. */
  lemma YearToDateExample(early: int, late: int)
    ensures YearToDate([Payment(Date(2023, 10), early, "Cardiology"), Payment(Date(2023, 200), late, "Cardiology")], 50)
            == [Group(2023, 1, early)]
  {
    var rows := [Payment(Date(2023, 10), early, "Cardiology"), Payment(Date(2023, 200), late, "Cardiology")];
    assert rows[1..] == [rows[1]] && rows[1..][1..] == [];
    assert Filter(rows[1..], PaidBy(50)) == [];
    assert YearToDateRows(rows, 50) == [rows[0]];
    var r := YearToDate(rows, 50);
    assert Keys(r) == {2023};
    assert |r| == 1;
    DistinctAt(r, 0);
    MemberKey(r, 0);
  }
}
