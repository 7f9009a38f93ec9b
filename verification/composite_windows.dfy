/** Composite report identities: vectors of window pins over a reporting horizon, and the
    source products cut from them. */
module CompositeWindows {
  import opened Records

  // ---- civil dates --------------------------------------------------------------

  datatype Ymd = Ymd(year: int, month: int, day: int)

  predicate LeapYear(year: int) {
    year % 4 == 0 && (year % 100 != 0 || year % 400 == 0)
  }

  /** `monthrange(year, month)[1]`. */
  function MonthLength(year: int, month: int): int {
    if month == 2 then (if LeapYear(year) then 29 else 28)
    else if month == 4 || month == 6 || month == 9 || month == 11 then 30
    else 31
  }

  type Date = d: Ymd | 1 <= d.year <= 9999 && 1 <= d.month <= 12 && 1 <= d.day <= MonthLength(d.year, d.month)
    witness Ymd(1, 1, 1)

  predicate Earlier(a: Ymd, b: Ymd) {
    a.year < b.year || (a.year == b.year && (a.month < b.month || (a.month == b.month && a.day < b.day)))
  }

  /** The day after; for the last day of year 9999, which no date equals. */
  function NextDay(d: Date): Ymd {
    if d.day < MonthLength(d.year, d.month) then d.(day := d.day + 1)
    else if d.month < 12 then Ymd(d.year, d.month + 1, 1)
    else Ymd(d.year + 1, 1, 1)
  }

  /** The Gregorian calendar's day number, day 1 being the first of January of year 1: a leap
      day every fourth year, save every hundredth, but for every four hundredth. */
  function DaysBeforeYear(year: int): int {
    365 * (year - 1) + (year - 1) / 4 - (year - 1) / 100 + (year - 1) / 400
  }

  function DayNumber(d: Ymd): int
    requires 1 <= d.month <= 12
  {
    var before := [0, 31, 59, 90, 120, 151, 181, 212, 243, 273, 304, 334];
    var leapDay := DaysBeforeYear(d.year + 1) - DaysBeforeYear(d.year) - 365;
    DaysBeforeYear(d.year) + before[d.month - 1] + (if d.month > 2 then leapDay else 0) + d.day
  }

  lemma YearLengths(year: int)
    ensures DaysBeforeYear(year + 1) == DaysBeforeYear(year) + (if LeapYear(year) then 366 else 365)
  {
    DivisionSteps(year, 4);
    DivisionSteps(year, 100);
    DivisionSteps(year, 400);
    LeapCenturies(year);
  }

  lemma LeapCenturies(year: int)
    ensures year % 400 == 0 ==> year % 100 == 0
    ensures year % 100 == 0 ==> year % 4 == 0
  {
  }

  lemma DivisionSteps(n: int, k: int)
    requires k == 4 || k == 100 || k == 400
    ensures n / k == (n - 1) / k + (if n % k == 0 then 1 else 0)
  {
  }

  /** The next day is the next day number, over month ends, leap days and year ends alike. */
  lemma NextDayCounts(d: Date)
    ensures DayNumber(NextDay(d)) == DayNumber(d) + 1
  {
    YearLengths(d.year);
    YearLengths(d.year + 1);
  }

  /** There is no date strictly between a day and the next one. */
  lemma NextDayIsNext(d: Date, e: Date)
    ensures Earlier(d, e) <==> !Earlier(e, NextDay(d))
  {
  }

  // ---- selections ---------------------------------------------------------------

  datatype WindowPin = WindowPin(
    materializationId: string,
    periodStart: Date,
    periodEnd: Date,
    methodBinding: map<string, string>,
    otherPins: map<string, string>)

  datatype Scope = Scope(tenantId: string, compositeId: string, currency: string, returnView: string,
                         methodology: string, engineVersion: string)

  datatype Selection = Selection(
    scope: Scope,
    periodStart: Date,
    periodEnd: Date,
    responseDigest: string,
    windows: seq<WindowPin>)

  datatype CompositeError =
    | WindowInverted
    | EmptyBinding
    | BlankBinding
    | WindowCountOutOfRange
    | RepeatedMaterialization
    | HorizonNotCovered
    | NotContiguous
    | DateOverflow
    | IncompleteMonth
    | NotTheNamedYear
    | NotTheNamedMonths
    | DigestDisagrees
    | RepeatedProductKey
    | OutOfScope
    | NotTheSubvector
    | NotAtTheHorizon

  /** The code points `str.strip` removes. */
  predicate Space(c: char) {
    var n := c as int;
    || 9 <= n <= 13 || 28 <= n <= 32 || n == 0x85 || n == 0xA0 || n == 0x1680 || 0x2000 <= n <= 0x200A
    || n == 0x2028 || n == 0x2029 || n == 0x202F || n == 0x205F || n == 0x3000
  }

  predicate Blank(s: string) {
    forall i :: 0 <= i < |s| ==> Space(s[i])
  }

  function OrderedWindow(w: WindowPin): Option<CompositeError> {
    if w.methodBinding == map[] then Some(EmptyBinding)
    else if Earlier(w.periodEnd, w.periodStart) then Some(WindowInverted)
    else if exists key :: key in w.methodBinding && (Blank(key) || Blank(w.methodBinding[key])) then Some(BlankBinding)
    else None
  }

  predicate Follows(previous: WindowPin, current: WindowPin) {
    current.periodStart == NextDay(previous.periodEnd)
  }

  function OrderedVector(s: Selection): Option<CompositeError> {
    var n := |s.windows|;
    if !(1 <= n <= 120) then Some(WindowCountOutOfRange)
    else if exists i, j :: 0 <= i < j < n && s.windows[i].materializationId == s.windows[j].materializationId
      then Some(RepeatedMaterialization)
    else if s.windows[0].periodStart != s.periodStart || s.windows[n - 1].periodEnd != s.periodEnd
        then Some(HorizonNotCovered)
    else Contiguity(s.windows)
  }

  const LAST_DATE := Ymd(9999, 12, 31)

  /** Adjacent pairs in order; the day after the last representable date cannot be formed. */
  function Contiguity(ws: seq<WindowPin>): Option<CompositeError> {
    if |ws| < 2 then None
    else if ws[0].periodEnd == LAST_DATE then Some(DateOverflow)
    else if !Follows(ws[0], ws[1]) then Some(NotContiguous)
    else Contiguity(ws[1..])
  }

  lemma {:induction false} ContiguityIsExact(ws: seq<WindowPin>)
    ensures Contiguity(ws).None? <==> forall i :: 0 <= i < |ws| - 1 ==> Follows(ws[i], ws[i + 1])
  {
    if |ws| >= 2 {
      ContiguityIsExact(ws[1..]);
      if Contiguity(ws).None? {
        forall i | 0 <= i < |ws| - 1 ensures Follows(ws[i], ws[i + 1]) {
          if i > 0 { assert Follows(ws[1..][i - 1], ws[1..][i]); }
        }
      } else if forall i :: 0 <= i < |ws| - 1 ==> Follows(ws[i], ws[i + 1]) {
        assert Follows(ws[0], ws[0 + 1]);
        forall i | 0 <= i < |ws[1..]| - 1
            ensures Follows(ws[1..][i], ws[1..][i + 1]) { assert Follows(ws[i + 1], ws[i + 1 + 1]); }
      }
    }
  }

  ghost predicate Admitted(s: Selection) {
    (forall w :: w in s.windows ==> OrderedWindow(w).None?) && OrderedVector(s).None?
  }

  /** A window that names its sources, each by something, and does not end before it starts. */
  ghost predicate WellPinned(w: WindowPin) {
    && w.methodBinding != map[]
    && (forall key :: key in w.methodBinding ==> !Blank(key) && !Blank(w.methodBinding[key]))
    && !Earlier(w.periodEnd, w.periodStart)
  }

  /** One to 120 well-pinned windows of different materializations, from the first day of the
      horizon to the last, each beginning the day after the one before. */
  ghost predicate CoversHorizon(s: Selection) {
    var ws, n := s.windows, |s.windows|;
    && 1 <= n <= 120
    && (forall i, j :: 0 <= i < j < n ==> ws[i].materializationId != ws[j].materializationId)
    && (forall i :: 0 <= i < n ==> WellPinned(ws[i]))
    && ws[0].periodStart == s.periodStart && ws[n - 1].periodEnd == s.periodEnd
    && (forall i :: 0 <= i < n - 1 ==> ws[i + 1].periodStart == NextDay(ws[i].periodEnd))
  }

  lemma WindowIsExact(w: WindowPin)
    ensures OrderedWindow(w).None? <==> WellPinned(w)
  {
  }

  /** Each refusal of a window has its condition, in order. */
  lemma WindowRefusalsAreExact(w: WindowPin)
    ensures var refusal, blank := OrderedWindow(w), exists key :: key in w.methodBinding
                                                      && (Blank(key) || Blank(w.methodBinding[key]));
            && (refusal == Some(EmptyBinding) <==> |w.methodBinding| == 0)
            && (refusal == Some(WindowInverted) <==> |w.methodBinding| > 0 && Earlier(w.periodEnd, w.periodStart))
            && (refusal == Some(BlankBinding) <==>
                  |w.methodBinding| > 0 && !Earlier(w.periodEnd, w.periodStart) && blank)
  {
  }

  lemma VectorIsExact(s: Selection)
    ensures OrderedVector(s).None?
            <==> var ws, n := s.windows, |s.windows|;
                 && 1 <= n <= 120
                 && (forall i, j :: 0 <= i < j < n ==> ws[i].materializationId != ws[j].materializationId)
                 && ws[0].periodStart == s.periodStart && ws[n - 1].periodEnd == s.periodEnd
                 && (forall i :: 0 <= i < n - 1 ==> Follows(ws[i], ws[i + 1]))
  {
    ContiguityIsExact(s.windows);
  }

  lemma FollowingIsNextDay(ws: seq<WindowPin>)
    ensures (forall i :: 0 <= i < |ws| - 1 ==> Follows(ws[i], ws[i + 1]))
            <==> (forall i :: 0 <= i < |ws| - 1 ==> ws[i + 1].periodStart == NextDay(ws[i].periodEnd))
  {
    if forall i :: 0 <= i < |ws| - 1 ==> ws[i + 1].periodStart == NextDay(ws[i].periodEnd) {
      forall i | 0 <= i < |ws| - 1 ensures Follows(ws[i], ws[i + 1]) {
        assert ws[i + 1].periodStart == NextDay(ws[i].periodEnd);
      }
    } else {
      var i :| 0 <= i < |ws| - 1 && ws[i + 1].periodStart != NextDay(ws[i].periodEnd);
      assert !Follows(ws[i], ws[i + 1]);
    }
  }

  /** A selection passes its validators exactly when its windows cover its horizon so. */
  lemma AdmittedIsExact(s: Selection)
    ensures Admitted(s) <==> CoversHorizon(s)
  {
    VectorIsExact(s);
    FollowingIsNextDay(s.windows);
    forall i | 0 <= i < |s.windows| ensures OrderedWindow(s.windows[i]).None? <==> WellPinned(s.windows[i]) {
      WindowIsExact(s.windows[i]);
    }
    EveryWindow(s.windows);
  }

  lemma EveryWindow(ws: seq<WindowPin>)
    ensures (forall w :: w in ws ==> OrderedWindow(w).None?)
            <==> forall i :: 0 <= i < |ws| ==> OrderedWindow(ws[i]).None?
  {
  }

  ghost predicate BreaksAt(ws: seq<WindowPin>, i: nat) {
    && i + 1 < |ws| && ws[i + 1].periodStart != NextDay(ws[i].periodEnd)
    && (forall k :: 0 <= k < i ==> ws[k + 1].periodStart == NextDay(ws[k].periodEnd))
  }

  /** The loop stops at the first pair that does not follow, and cannot form the day after
      the last representable one. */
  lemma {:induction false} BreaksAreNamed(ws: seq<WindowPin>, i: nat)
    requires BreaksAt(ws, i)
    ensures Contiguity(ws) == Some(if ws[i].periodEnd == Ymd(9999, 12, 31) then DateOverflow else NotContiguous)
  {
    if i > 0 {
      assert ws[0 + 1].periodStart == NextDay(ws[0].periodEnd);
      forall k | 0 <= k < i - 1 ensures ws[1..][k + 1].periodStart == NextDay(ws[1..][k].periodEnd) {
        assert ws[(k + 1) + 1].periodStart == NextDay(ws[k + 1].periodEnd);
      }
      BreaksAreNamed(ws[1..], i - 1);
    }
  }

  /** Each refusal of the vector has its condition, in the order the validators stand. */
  lemma VectorRefusalsAreExact(s: Selection)
    ensures var ws, n, refusal := s.windows, |s.windows|, OrderedVector(s);
            var repeats := exists i, j :: 0 <= i < j < n && ws[i].materializationId == ws[j].materializationId;
            && (refusal == Some(WindowCountOutOfRange) <==> n == 0 || n > 120)
            && (refusal == Some(RepeatedMaterialization) <==> 1 <= n <= 120 && repeats)
            && (refusal == Some(HorizonNotCovered) <==>
                  && 1 <= n <= 120 && !repeats
                  && (ws[0].periodStart != s.periodStart || ws[n - 1].periodEnd != s.periodEnd))
            && (refusal == Some(DateOverflow) || refusal == Some(NotContiguous) <==>
                  && 1 <= n <= 120 && !repeats
                  && ws[0].periodStart == s.periodStart && ws[n - 1].periodEnd == s.periodEnd
                  && exists i: nat :: BreaksAt(ws, i))
  {
    var ws := s.windows;
    ContiguityRefusals(ws);
    ContiguityIsExact(ws);
    if i: nat :| BreaksAt(ws, i) { BreaksAreNamed(ws, i); }
    else { NothingBreaks(ws); }
  }

  lemma {:induction false} ContiguityRefusals(ws: seq<WindowPin>)
    ensures Contiguity(ws).None? || Contiguity(ws) == Some(DateOverflow) || Contiguity(ws) == Some(NotContiguous)
  {
    if |ws| >= 2 { ContiguityRefusals(ws[1..]); }
  }

  lemma NothingBreaks(ws: seq<WindowPin>)
    requires forall i: nat :: !BreaksAt(ws, i)
    ensures Contiguity(ws).None?
  {
    NothingBreaksUpTo(ws, |ws|);
    ContiguityIsExact(ws);
    forall k | 0 <= k < |ws| - 1 ensures Follows(ws[k], ws[k + 1]) {
      assert ws[k + 1].periodStart == NextDay(ws[k].periodEnd);
    }
  }

  lemma {:induction false} NothingBreaksUpTo(ws: seq<WindowPin>, n: nat)
    requires forall i: nat :: !BreaksAt(ws, i)
    ensures forall k :: 0 <= k < n && k + 1 < |ws| ==> ws[k + 1].periodStart == NextDay(ws[k].periodEnd)
  {
    if n > 0 {
      NothingBreaksUpTo(ws, n - 1);
      assert !BreaksAt(ws, n - 1);
    }
  }

  predicate Within(w: WindowPin, d: Ymd) {
    !Earlier(d, w.periodStart) && !Earlier(w.periodEnd, d)
  }

  /** What the order checks come to: windows that end no earlier than they start, each
      beginning the day after the one before. */
  ghost predicate Contiguous(ws: seq<WindowPin>) {
    && (forall i :: 0 <= i < |ws| ==> !Earlier(ws[i].periodEnd, ws[i].periodStart))
    && (forall i :: 0 <= i < |ws| - 1 ==> Follows(ws[i], ws[i + 1]))
  }

  lemma AdmittedAreContiguous(s: Selection)
    requires Admitted(s)
    ensures Contiguous(s.windows) && s.windows != []
    ensures s.windows[0].periodStart == s.periodStart && s.windows[|s.windows| - 1].periodEnd == s.periodEnd
  {
    ContiguityIsExact(s.windows);
    forall i | 0 <= i < |s.windows| ensures !Earlier(s.windows[i].periodEnd, s.windows[i].periodStart) {
      assert OrderedWindow(s.windows[i]).None?;
    }
  }

  lemma {:induction false} LaterWindowsStartLater(ws: seq<WindowPin>, i: nat, j: nat)
    requires Contiguous(ws) && i < j < |ws|
    ensures Earlier(ws[i].periodEnd, ws[j].periodStart)
    decreases j
  {
    assert Follows(ws[j - 1], ws[j - 1 + 1]);
    NextDayIsNext(ws[j - 1].periodEnd, ws[j].periodStart);
    if i < j - 1 { LaterWindowsStartLater(ws, i, j - 1); }
  }

  lemma {:induction false} SomeWindow(ws: seq<WindowPin>, d: Date, n: nat) returns (k: nat)
    requires Contiguous(ws) && 0 < n <= |ws|
    requires !Earlier(d, ws[0].periodStart) && !Earlier(ws[n - 1].periodEnd, d)
    ensures k < n && Within(ws[k], d)
  {
    if !Earlier(d, ws[n - 1].periodStart) { k := n - 1; }
    else {
      assert Follows(ws[n - 2], ws[n - 2 + 1]);
      NextDayIsNext(ws[n - 2].periodEnd, d);
      k := SomeWindow(ws, d, n - 1);
    }
  }

  ghost predicate OnlyWindow(ws: seq<WindowPin>, d: Ymd, k: nat) {
    k < |ws| && Within(ws[k], d) && forall i :: 0 <= i < |ws| && i != k ==> !Within(ws[i], d)
  }

  ghost predicate CoveredOnce(ws: seq<WindowPin>, d: Ymd) {
    exists k: nat :: OnlyWindow(ws, d, k)
  }

  ghost predicate InHorizon(s: Selection, d: Ymd) {
    !Earlier(d, s.periodStart) && !Earlier(s.periodEnd, d)
  }

  lemma OneWindowAtMost(ws: seq<WindowPin>, d: Ymd, i: nat, j: nat)
    requires Contiguous(ws) && i < j < |ws|
    ensures !(Within(ws[i], d) && Within(ws[j], d))
  {
    LaterWindowsStartLater(ws, i, j);
  }

  lemma WindowsStayInHorizon(ws: seq<WindowPin>, d: Ymd, k: nat)
    requires Contiguous(ws) && k < |ws| && Within(ws[k], d)
    ensures !Earlier(d, ws[0].periodStart) && !Earlier(ws[|ws| - 1].periodEnd, d)
  {
    if k > 0 { LaterWindowsStartLater(ws, 0, k); }
    if k < |ws| - 1 { LaterWindowsStartLater(ws, k, |ws| - 1); }
  }

  /** An admitted selection's windows cover each day of its horizon exactly once, and no
      day outside it. */
  lemma WindowsCoverTheHorizonOnce(s: Selection, d: Date)
    requires Admitted(s)
    ensures InHorizon(s, d) <==> CoveredOnce(s.windows, d)
    ensures !InHorizon(s, d) ==> forall k :: 0 <= k < |s.windows| ==> !Within(s.windows[k], d)
  {
    AdmittedAreContiguous(s);
    var ws := s.windows;
    forall k | 0 <= k < |ws| && !InHorizon(s, d) ensures !Within(ws[k], d) {
      if Within(ws[k], d) { WindowsStayInHorizon(ws, d, k); }
    }
    if InHorizon(s, d) {
      var k := SomeWindow(ws, d, |ws|);
      forall i | 0 <= i < |ws| && i != k ensures !Within(ws[i], d) {
        if i < k { OneWindowAtMost(ws, d, i, k); } else { OneWindowAtMost(ws, d, k, i); }
      }
      assert OnlyWindow(ws, d, k);
    }
  }

  ghost predicate Chronological(ws: seq<WindowPin>) {
    && (forall i :: 0 <= i < |ws| ==> !Earlier(ws[i].periodEnd, ws[i].periodStart))
    && (forall i, j :: 0 <= i < j < |ws| ==> Earlier(ws[i].periodStart, ws[j].periodStart))
  }

  ghost predicate Partitioned(s: Selection) {
    forall d: Date {:trigger InHorizon(s, d)} {:trigger CoveredOnce(s.windows, d)} :: InHorizon(s, d)
        ==> CoveredOnce(s.windows, d)
  }

  lemma CoveredBy(ws: seq<WindowPin>, d: Ymd, i: nat, j: nat)
    requires CoveredOnce(ws, d) && i < |ws| && j < |ws| && Within(ws[i], d) && Within(ws[j], d)
    ensures i == j
  {
    var k: nat :| OnlyWindow(ws, d, k);
  }

  /** Conversely, windows listed in order that cover every day of the horizon exactly once
      are contiguous: the contiguity check refuses nothing it should admit. */
  lemma PartitionsAreContiguous(s: Selection, i: nat)
    requires Chronological(s.windows) && Partitioned(s) && i + 1 < |s.windows|
    requires s.windows[0].periodStart == s.periodStart && s.windows[|s.windows| - 1].periodEnd == s.periodEnd
    requires forall k :: 0 <= k < |s.windows| ==> !Earlier(s.periodEnd, s.windows[k].periodStart)
    ensures Follows(s.windows[i], s.windows[i + 1])
  {
    var ws := s.windows;
    var start, end := ws[i + 1].periodStart, ws[i].periodEnd;
    assert InHorizon(s, start);
    if !Earlier(end, start) { CoveredBy(ws, start, i, i + 1); }
    NextDayIsNext(end, start);
    var next: Date := NextDay(end);
    NextDayIsNext(end, next);
    assert InHorizon(s, next);
    var k: nat :| OnlyWindow(ws, next, k);
    if k <= i {
      assert InHorizon(s, ws[i].periodStart);
      CoveredBy(ws, ws[i].periodStart, k, i);
    }
  }

  // ---- complete months ----------------------------------------------------------

  predicate CompleteMonth(w: WindowPin) {
    && w.periodStart.day == 1 && w.periodStart.year == w.periodEnd.year && w.periodStart.month == w.periodEnd.month
    && w.periodEnd.day == MonthLength(w.periodEnd.year, w.periodEnd.month)
  }

  function RequireCompleteMonths(s: Selection): Option<CompositeError> {
    if forall w :: w in s.windows ==> CompleteMonth(w) then None else Some(IncompleteMonth)
  }

  datatype ProductPin =
    | CalendarReturn(productKey: string, year: int, selection: Selection)
    | TrailingReturn(productKey: string, months: int, selection: Selection)

  function ValidatePin(p: ProductPin): Option<CompositeError> {
    match p
    case CalendarReturn(_, year, s) =>
      if !(1 <= year <= 9999) || s.periodStart != Ymd(year, 1, 1) || s.periodEnd != Ymd(year, 12, 31)
          || |s.windows| != 12
      then Some(NotTheNamedYear) else RequireCompleteMonths(s)
    case TrailingReturn(_, months, s) =>
      if !(1 <= months <= 120) || |s.windows| != months then Some(NotTheNamedMonths) else RequireCompleteMonths(s)
  }

  /** The window is month `ordinal`, counted from January of year 0, as a whole. */
  predicate IsMonth(w: WindowPin, ordinal: int) {
    var year, month := ordinal / 12, ordinal % 12 + 1;
    w.periodStart == Ymd(year, month, 1) && w.periodEnd == Ymd(year, month, MonthLength(year, month))
  }

  function MonthOrdinal(d: Ymd): int {
    12 * d.year + d.month - 1
  }

  /** Contiguous complete months are consecutive months, across year ends and in leap years. */
  lemma {:induction false} MonthsAreConsecutive(ws: seq<WindowPin>, k: nat)
    requires Contiguous(ws) && k < |ws| && forall w :: w in ws ==> CompleteMonth(w)
    ensures IsMonth(ws[k], MonthOrdinal(ws[0].periodStart) + k)
  {
    var first := MonthOrdinal(ws[0].periodStart);
    assert CompleteMonth(ws[k]);
    if k > 0 {
      MonthsAreConsecutive(ws, k - 1);
      assert Follows(ws[k - 1], ws[k - 1 + 1]);
      NextMonth(ws[k - 1], ws[k], first + k - 1);
    } else {
      MonthOfStart(ws[0]);
    }
  }

  lemma MonthOfStart(w: WindowPin)
    requires CompleteMonth(w)
    ensures IsMonth(w, MonthOrdinal(w.periodStart))
  {
  }

  lemma NextMonth(previous: WindowPin, current: WindowPin, ordinal: int)
    requires IsMonth(previous, ordinal) && Follows(previous, current) && CompleteMonth(current)
    ensures IsMonth(current, ordinal + 1)
  {
    assert MonthOrdinal(current.periodStart) == ordinal + 1;
    MonthOfStart(current);
  }

  /** The twelve windows are the twelve months of the product's year, the k-th one month k. */
  ghost predicate ItsYear(p: ProductPin)
    requires p.CalendarReturn?
  {
    1 <= p.year <= 9999 && |p.selection.windows| == 12
    && forall k :: 0 <= k < 12 ==> IsMonth(p.selection.windows[k], 12 * p.year + k)
  }

  /** A calendar product is admitted exactly when its windows are the months of its year. */
  lemma CalendarProductsAreTheirYear(p: ProductPin)
    requires p.CalendarReturn? && Admitted(p.selection)
    ensures ValidatePin(p).None? <==> ItsYear(p)
  {
    AdmittedAreContiguous(p.selection);
    var ws := p.selection.windows;
    if ValidatePin(p).None? {
      forall k | 0 <= k < 12 ensures IsMonth(ws[k], 12 * p.year + k) { MonthsAreConsecutive(ws, k); }
    }
    if |ws| == 12 && forall k :: 0 <= k < 12 ==> IsMonth(ws[k], 12 * p.year + k) {
      assert IsMonth(ws[0], 12 * p.year + 0) && IsMonth(ws[11], 12 * p.year + 11);
      assert forall k :: 0 <= k < 12 ==> CompleteMonth(ws[k]);
    }
  }

  // ---- source products of a second-version identity -----------------------------

  datatype SourceProduct = SourceProduct(pin: ProductPin, responseDigest: string)

  function ResponseDigestAgrees(p: SourceProduct): Option<CompositeError> {
    if p.responseDigest != p.pin.selection.responseDigest then Some(DigestDisagrees) else None
  }

  function Expected(ws: seq<WindowPin>, start: Date, end: Date): seq<WindowPin> {
    if ws == [] then []
    else (if !Earlier(ws[0].periodStart, start) && !Earlier(end, ws[0].periodEnd) then [ws[0]] else [])
         + Expected(ws[1..], start, end)
  }

  function InScope(primary: Selection, products: seq<SourceProduct>): Option<CompositeError> {
    if products == [] then None
    else
      var s := products[0].pin.selection;
      if s.scope != primary.scope then Some(OutOfScope)
      else if s.windows != Expected(primary.windows, s.periodStart, s.periodEnd) then Some(NotTheSubvector)
      else if products[0].pin.TrailingReturn? && s.periodEnd != primary.periodEnd then Some(NotAtTheHorizon)
      else InScope(primary, products[1..])
  }

  function ProductScope(primary: Selection, products: seq<SourceProduct>): Option<CompositeError> {
    if exists i, j :: 0 <= i < j < |products| && products[i].pin.productKey == products[j].pin.productKey
    then Some(RepeatedProductKey) else InScope(primary, products)
  }

  predicate Inside(w: WindowPin, start: Date, end: Date) {
    !Earlier(w.periodStart, start) && !Earlier(end, w.periodEnd)
  }

  lemma {:induction false} ExpectedNone(ws: seq<WindowPin>, start: Date, end: Date)
    requires forall w :: w in ws ==> !Inside(w, start, end)
    ensures Expected(ws, start, end) == []
  {
    if ws != [] {
      assert !Inside(ws[0], start, end);
      ExpectedNone(ws[1..], start, end);
    }
  }

  lemma {:induction false} ExpectedAll(ws: seq<WindowPin>, start: Date, end: Date)
    requires forall w :: w in ws ==> Inside(w, start, end)
    ensures Expected(ws, start, end) == ws
  {
    if ws != [] {
      assert Inside(ws[0], start, end);
      ExpectedAll(ws[1..], start, end);
    }
  }

  lemma {:induction false} ExpectedAppends(a: seq<WindowPin>, b: seq<WindowPin>, start: Date, end: Date)
    ensures Expected(a + b, start, end) == Expected(a, start, end) + Expected(b, start, end)
  {
    if a == [] { assert a + b == b; }
    else {
      ExpectedAppends(a[1..], b, start, end);
      assert (a + b)[1..] == a[1..] + b && (a + b)[0] == a[0];
    }
  }

  lemma InsideSlice(ws: seq<WindowPin>, i: nat, j: nat, k: nat)
    requires Contiguous(ws) && i < j <= |ws| && k < |ws|
    ensures Inside(ws[k], ws[i].periodStart, ws[j - 1].periodEnd) <==> i <= k < j
  {
    if k < i { LaterWindowsStartLater(ws, k, i); }
    if i < k { LaterWindowsStartLater(ws, i, k); }
    if k < j - 1 { LaterWindowsStartLater(ws, k, j - 1); }
    if j - 1 < k { LaterWindowsStartLater(ws, j - 1, k); }
  }

  /** Between the start of window `i` and the end of window `j - 1` the filter keeps exactly
      the slice from `i` to `j`. */
  lemma SliceIsExpected(ws: seq<WindowPin>, i: nat, j: nat)
    requires Contiguous(ws) && i < j <= |ws|
    ensures Expected(ws, ws[i].periodStart, ws[j - 1].periodEnd) == ws[i..j]
  {
    var start, end := ws[i].periodStart, ws[j - 1].periodEnd;
    forall k | 0 <= k < |ws| ensures Inside(ws[k], start, end) <==> i <= k < j { InsideSlice(ws, i, j, k); }
    PartsInside(ws, i, j, start, end);
    ThreeParts(ws, ws[..i], ws[i..j], ws[j..], start, end);
  }

  lemma PartsInside(ws: seq<WindowPin>, i: nat, j: nat, start: Date, end: Date)
    requires i < j <= |ws| && forall k :: 0 <= k < |ws| ==> (Inside(ws[k], start, end) <==> i <= k < j)
    ensures ws == ws[..i] + ws[i..j] + ws[j..]
    ensures forall w :: w in ws[..i] || w in ws[j..] ==> !Inside(w, start, end)
    ensures forall w :: w in ws[i..j] ==> Inside(w, start, end)
  {
  }

  lemma ThreeParts(ws: seq<WindowPin>, a: seq<WindowPin>, b: seq<WindowPin>, c: seq<WindowPin>, start: Date, end: Date)
    requires ws == a + b + c
    requires forall w :: w in a || w in c ==> !Inside(w, start, end)
    requires forall w :: w in b ==> Inside(w, start, end)
    ensures Expected(ws, start, end) == b
  {
    ExpectedNone(a, start, end);
    ExpectedAll(b, start, end);
    ExpectedNone(c, start, end);
    ExpectedAppends(a + b, c, start, end);
    ExpectedAppends(a, b, start, end);
  }

  /** Windows kept by the filter start with some window and end with a later one. */
  lemma {:induction false} ExpectedStart(ws: seq<WindowPin>, start: Date, end: Date) returns (i: nat)
    requires Expected(ws, start, end) != []
    ensures i < |ws| && Inside(ws[i], start, end) && Expected(ws, start, end)[0] == ws[i]
  {
    if Inside(ws[0], start, end) { i := 0; }
    else { i := ExpectedStart(ws[1..], start, end); i := i + 1; }
  }

  lemma {:induction false} ExpectedEnd(ws: seq<WindowPin>, start: Date, end: Date) returns (j: nat)
    requires Expected(ws, start, end) != []
    ensures j < |ws| && Inside(ws[j], start, end)
    ensures Expected(ws, start, end)[|Expected(ws, start, end)| - 1] == ws[j]
  {
    if Expected(ws[1..], start, end) != [] { j := ExpectedEnd(ws[1..], start, end); j := j + 1; }
    else { j := 0; }
  }

  ghost predicate SliceAt(ws: seq<WindowPin>, product: seq<WindowPin>, i: nat) {
    i + |product| <= |ws| && product == ws[i..i + |product|]
  }

  lemma SubvectorIsSlice(ws: seq<WindowPin>, product: seq<WindowPin>, start: Date, end: Date) returns (i: nat)
    requires Contiguous(ws) && product != [] && product == Expected(ws, start, end)
    requires product[0].periodStart == start && product[|product| - 1].periodEnd == end
    ensures SliceAt(ws, product, i)
  {
    i := ExpectedStart(ws, start, end);
    var j := ExpectedEnd(ws, start, end);
    if j < i { LaterWindowsStartLater(ws, j, i); }
    SliceIsExpected(ws, i, j + 1);
  }

  lemma SlicesPassTheFilter(ws: seq<WindowPin>, product: seq<WindowPin>, start: Date, end: Date)
    requires Contiguous(ws) && product != []
    requires product[0].periodStart == start && product[|product| - 1].periodEnd == end
    ensures product == Expected(ws, start, end) <==> exists i: nat :: SliceAt(ws, product, i)
  {
    if product == Expected(ws, start, end) {
      var i := SubvectorIsSlice(ws, product, start, end);
    }
    if i: nat :| SliceAt(ws, product, i) {
      SliceIsExpected(ws, i, i + |product|);
    }
  }

  ghost predicate IsSliceOf(ws: seq<WindowPin>, product: seq<WindowPin>) {
    exists i: nat :: SliceAt(ws, product, i)
  }

  /** The exact-subvector check admits exactly the contiguous slices of the primary windows. */
  lemma SubvectorsAreSlices(primary: Selection, product: Selection)
    requires Admitted(primary) && Admitted(product)
    ensures product.windows == Expected(primary.windows, product.periodStart, product.periodEnd)
            <==> IsSliceOf(primary.windows, product.windows)
  {
    AdmittedAreContiguous(primary);
    AdmittedAreContiguous(product);
    SlicesPassTheFilter(primary.windows, product.windows, product.periodStart, product.periodEnd);
  }

  lemma OneInScope(primary: Selection, p: SourceProduct)
    ensures var s := p.pin.selection;
            InScope(primary, [p]).None?
            <==> && s.scope == primary.scope
                 && s.windows == Expected(primary.windows, s.periodStart, s.periodEnd)
                 && (p.pin.TrailingReturn? ==> s.periodEnd == primary.periodEnd)
  {
    assert InScope(primary, []).None?;
  }

  lemma SuffixSlice(ws: seq<WindowPin>, last: seq<WindowPin>, i: nat)
    requires Contiguous(ws) && last != [] && SliceAt(ws, last, i)
    ensures last[|last| - 1].periodEnd == ws[|ws| - 1].periodEnd <==> i + |last| == |ws|
  {
    var n := |last|;
    assert ws[i + n - 1] == last[n - 1];
    if i + n < |ws| { LaterWindowsStartLater(ws, i + n - 1, |ws| - 1); }
  }

  /** A trailing product of n months in scope is exactly the last n primary windows. */
  lemma TrailingProductsAreSuffixes(primary: Selection, p: SourceProduct)
    requires Admitted(primary) && p.pin.TrailingReturn? && Admitted(p.pin.selection) && ValidatePin(p.pin).None?
    ensures var s, n := p.pin.selection, p.pin.months;
            InScope(primary, [p]).None?
            <==> && s.scope == primary.scope && n <= |primary.windows|
                 && s.windows == primary.windows[|primary.windows| - n..]
  {
    var s := p.pin.selection;
    AdmittedAreContiguous(primary);
    AdmittedAreContiguous(s);
    OneInScope(primary, p);
    SuffixesEndTogether(primary.windows, s.windows, s.periodStart, s.periodEnd);
  }

  lemma SuffixesEndTogether(ws: seq<WindowPin>, last: seq<WindowPin>, start: Date, end: Date)
    requires Contiguous(ws) && ws != [] && last != [] && last[0].periodStart == start
        && last[|last| - 1].periodEnd == end
    ensures last == Expected(ws, start, end) && end == ws[|ws| - 1].periodEnd
            <==> |last| <= |ws| && last == ws[|ws| - |last|..]
  {
    SlicesPassTheFilter(ws, last, start, end);
    if i: nat :| SliceAt(ws, last, i) { SuffixSlice(ws, last, i); }
    if |last| <= |ws| && last == ws[|ws| - |last|..] {
      assert SliceAt(ws, last, |ws| - |last|);
      SuffixSlice(ws, last, |ws| - |last|);
    }
  }

  ghost predicate Scoped(primary: Selection, products: seq<SourceProduct>, k: nat) {
    k < |products| && InScope(primary, [products[k]]).None?
  }

  /** The loop over the products passes exactly when each product passes. */
  lemma {:induction false} EveryProductIsInScope(primary: Selection, products: seq<SourceProduct>)
    ensures InScope(primary, products).None?
            <==> forall k: nat {:trigger Scoped(primary, products, k)} :: k < |products|
                  ==> Scoped(primary, products, k)
  {
    if products != [] {
      var rest := products[1..];
      EveryProductIsInScope(primary, rest);
      OneInScope(primary, products[0]);
      assert InScope(primary, products).None? <==> Scoped(primary, products, 0) && InScope(primary, rest).None?;
      forall k: nat | k < |rest| ensures Scoped(primary, rest, k) <==> Scoped(primary, products, k + 1) {}
      forall k: nat | 0 < k < |products| ensures Scoped(primary, products, k) <==> Scoped(primary, rest, k - 1) {}
    }
  }

  // ---- the whole identity -------------------------------------------------------

  datatype Identity = Identity(selection: Selection, products: seq<SourceProduct>)

  /** The validators of one product, innermost first. */
  ghost predicate ProductValid(p: SourceProduct) {
    Admitted(p.pin.selection) && ValidatePin(p.pin).None? && ResponseDigestAgrees(p).None?
  }

  /** A second-version identity that every validator passes. */
  ghost predicate IdentityValid(identity: Identity) {
    && Admitted(identity.selection) && 1 <= |identity.products| <= 8
    && (forall k :: 0 <= k < |identity.products| ==> ProductValid(identity.products[k]))
    && ProductScope(identity.selection, identity.products).None?
  }

  /** What a source product has to be: in scope, answered by the response it names, and
      either the twelve months of one year, in order, somewhere in the primary windows, or
      the last so many complete months of them. */
  ghost predicate ProductBelongs(primary: Selection, p: SourceProduct) {
    var s, n := p.pin.selection, |p.pin.selection.windows|;
    && s.scope == primary.scope && p.responseDigest == s.responseDigest
    && match p.pin
       case CalendarReturn(_, _, _) => ItsYear(p.pin) && IsSliceOf(primary.windows, s.windows)
       case TrailingReturn(_, months, _) =>
         && 1 <= months == n <= |primary.windows| && s.windows == primary.windows[|primary.windows| - n..]
         && (forall w :: w in s.windows ==> IsMonth(w, MonthOrdinal(w.periodStart)))
  }

  lemma CalendarBelongsExactly(primary: Selection, p: SourceProduct)
    requires Admitted(primary) && Admitted(p.pin.selection) && p.pin.CalendarReturn?
    ensures ValidatePin(p.pin).None? && ResponseDigestAgrees(p).None? && InScope(primary, [p]).None?
            <==> ProductBelongs(primary, p)
  {
    OneInScope(primary, p);
    CalendarProductsAreTheirYear(p.pin);
    SubvectorsAreSlices(primary, p.pin.selection);
  }

  lemma TrailingBelongsExactly(primary: Selection, p: SourceProduct)
    requires Admitted(primary) && Admitted(p.pin.selection) && p.pin.TrailingReturn?
    ensures ValidatePin(p.pin).None? && ResponseDigestAgrees(p).None? && InScope(primary, [p]).None?
            <==> ProductBelongs(primary, p)
  {
    TrailingPinIsExact(p.pin);
    if ValidatePin(p.pin).None? { TrailingProductsAreSuffixes(primary, p); }
  }

  lemma TrailingPinIsExact(pin: ProductPin)
    requires pin.TrailingReturn? && OrderedVector(pin.selection).None?
    ensures ValidatePin(pin).None?
            <==> && 1 <= pin.months == |pin.selection.windows|
                 && forall w :: w in pin.selection.windows ==> IsMonth(w, MonthOrdinal(w.periodStart))
  {
    assert forall w :: CompleteMonth(w) <==> IsMonth(w, MonthOrdinal(w.periodStart));
  }

  ghost predicate ProductPasses(identity: Identity, k: nat) {
    k < |identity.products| && ProductValid(identity.products[k]) && Scoped(identity.selection, identity.products, k)
  }

  lemma PassingIsBelonging(identity: Identity, k: nat)
    requires Admitted(identity.selection) && k < |identity.products| && Admitted(identity.products[k].pin.selection)
    ensures ProductPasses(identity, k) <==> ProductBelongs(identity.selection, identity.products[k])
  {
    var p := identity.products[k];
    if p.pin.CalendarReturn? { CalendarBelongsExactly(identity.selection, p); }
    else { TrailingBelongsExactly(identity.selection, p); }
  }

  /** Each refusal of one product has its condition, in the order the validators stand: what
      its windows name, what it answers to, and where in the primary windows it lies. */
  lemma ProductRefusalsAreExact(primary: Selection, p: SourceProduct)
    ensures var s, n, pin := p.pin.selection, |p.pin.selection.windows|, ValidatePin(p.pin);
            var whole := forall w :: w in s.windows ==> IsMonth(w, MonthOrdinal(w.periodStart));
            var named := if p.pin.CalendarReturn?
                         then 1 <= p.pin.year <= 9999 && n == 12 && s.periodStart == Ymd(p.pin.year, 1, 1)
                              && s.periodEnd == Ymd(p.pin.year, 12, 31)
                         else 1 <= n <= 120 && n == p.pin.months;
            && (pin == Some(NotTheNamedYear) <==> p.pin.CalendarReturn? && !named)
            && (pin == Some(NotTheNamedMonths) <==> p.pin.TrailingReturn? && !named)
            && (pin == Some(IncompleteMonth) <==> named && !whole)
            && (ResponseDigestAgrees(p) == Some(DigestDisagrees) <==> p.responseDigest != s.responseDigest)
  {
    forall w: WindowPin ensures CompleteMonth(w) <==> IsMonth(w, MonthOrdinal(w.periodStart)) {}
  }

  ghost predicate LiesIn(primary: Selection, p: SourceProduct) {
    p.pin.selection.windows == Expected(primary.windows, p.pin.selection.periodStart, p.pin.selection.periodEnd)
  }

  /** The loop stops at the first product out of scope, and says why. */
  lemma {:induction false} ScopeRefusalsAreExact(primary: Selection, products: seq<SourceProduct>, k: nat)
    requires k < |products| && !Scoped(primary, products, k)
    requires forall i: nat {:trigger Scoped(primary, products, i)} :: i < k ==> Scoped(primary, products, i)
    ensures var refusal, p := InScope(primary, products), products[k];
            && (refusal == Some(OutOfScope) <==> p.pin.selection.scope != primary.scope)
            && (refusal == Some(NotTheSubvector) <==> p.pin.selection.scope == primary.scope && !LiesIn(primary, p))
            && (refusal == Some(NotAtTheHorizon) <==>
                  && p.pin.selection.scope == primary.scope && LiesIn(primary, p)
                  && p.pin.TrailingReturn? && p.pin.selection.periodEnd != primary.periodEnd)
  {
    OneInScope(primary, products[k]);
    if k > 0 {
      assert Scoped(primary, products, 0);
      OneInScope(primary, products[0]);
      forall i: nat | i < k ensures Scoped(primary, products[1..], i) <==> Scoped(primary, products, i + 1) {}
      assert !Scoped(primary, products[1..], k - 1);
      ScopeRefusalsAreExact(primary, products[1..], k - 1);
    }
  }

  ghost predicate UniqueKeys(products: seq<SourceProduct>) {
    forall i, j :: 0 <= i < j < |products| ==> products[i].pin.productKey != products[j].pin.productKey
  }

  lemma IdentityPasses(identity: Identity)
    requires Admitted(identity.selection) && 1 <= |identity.products| <= 8
    ensures IdentityValid(identity)
            <==> UniqueKeys(identity.products)
                 && forall k: nat {:trigger ProductPasses(identity, k)} :: k < |identity.products|
                     ==> ProductPasses(identity, k)
  {
    var primary, products := identity.selection, identity.products;
    EveryProductIsInScope(primary, products);
    assert ProductScope(primary, products).None? <==> UniqueKeys(products) && InScope(primary, products).None?;
    if IdentityValid(identity) {
      forall k: nat | k < |products| ensures ProductPasses(identity, k) { assert Scoped(primary, products, k); }
    }
    if forall k: nat {:trigger ProductPasses(identity, k)} :: k < |products| ==> ProductPasses(identity, k) {
      forall k: nat | k < |products| ensures ProductValid(products[k]) && Scoped(primary, products, k) {
        assert ProductPasses(identity, k);
      }
    }
  }

  lemma AdmittedIdentitiesAreExact(identity: Identity)
    requires Admitted(identity.selection) && 1 <= |identity.products| <= 8
    requires forall k :: 0 <= k < |identity.products| ==> Admitted(identity.products[k].pin.selection)
    ensures IdentityValid(identity) <==> UniqueKeys(identity.products) && EveryProductBelongs(identity)
  {
    IdentityPasses(identity);
    forall k: nat | k < |identity.products|
      ensures ProductPasses(identity, k) <==> ProductBelongs(identity.selection, identity.products[k])
    {
      PassingIsBelonging(identity, k);
    }
  }

  ghost predicate EveryProductBelongs(identity: Identity) {
    forall k :: 0 <= k < |identity.products| ==> ProductBelongs(identity.selection, identity.products[k])
  }

  ghost predicate EverySelectionCovers(identity: Identity) {
    CoversHorizon(identity.selection)
    && forall k :: 0 <= k < |identity.products| ==> CoversHorizon(identity.products[k].pin.selection)
  }

  /** An identity passes all its validators exactly when it has one to eight products, its
      primary windows and each product's windows cover their horizons, product keys are
      unique, and every product is the stretch of the primary windows it names. */
  lemma IdentitiesAreExact(identity: Identity)
    ensures IdentityValid(identity)
            <==> && 1 <= |identity.products| <= 8 && EverySelectionCovers(identity)
                 && UniqueKeys(identity.products) && EveryProductBelongs(identity)
  {
    AdmittedIsExact(identity.selection);
    forall k | 0 <= k < |identity.products|
      ensures Admitted(identity.products[k].pin.selection) <==> CoversHorizon(identity.products[k].pin.selection)
      ensures IdentityValid(identity) ==> Admitted(identity.products[k].pin.selection)
    {
      AdmittedIsExact(identity.products[k].pin.selection);
      assert IdentityValid(identity) ==> ProductValid(identity.products[k]);
    }
    if 1 <= |identity.products| <= 8 && EverySelectionCovers(identity) { AdmittedIdentitiesAreExact(identity); }
  }
}
