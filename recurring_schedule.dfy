/**
 * models/RecurringPickupSchedule.js: the validation of the two day fields,
 * the next pickup date of a schedule, and toggling a schedule on and off.
 */
module RecurringSchedule {
  import opened Wrappers
  import opened Calendar

  datatype Frequency = Weekly | Biweekly | Monthly

  /** A Number path of the document: not set at all (undefined), set to null, or a number. */
  datatype DayField = NoDay | NullDay | Day(n: int)

  const DayOfWeekRangeMessage := "Day of week must be between 0-6"
  const DayOfWeekRequiredMessage := "Day of week is required for weekly and biweekly schedules"
  const DayOfMonthRangeMessage := "Day of month must be between 1-31"
  const DayOfMonthRequiredMessage := "Day of month is required for monthly schedules"

  predicate NeedsDayOfWeek(f: Option<Frequency>) {
    f == Some(Weekly) || f == Some(Biweekly)
  }

  predicate NeedsDayOfMonth(f: Option<Frequency>) {
    f == Some(Monthly)
  }

  /**
   * The first failing validator of a day path in declaration order (min, max,
   * then the custom one), as the schema declares them but run on every value,
   * undefined included: the behaviour the custom validators are written for.
   */
  function DayError(v: DayField, lo: int, hi: int, needed: bool, rangeMessage: string, requiredMessage: string): (e: Option<string>)
    ensures e.None? <==> (needed ==> v.Day?) && (v.Day? ==> lo <= v.n <= hi)
    ensures e.Some? ==> e.value == (if v.Day? && !(lo <= v.n <= hi) then rangeMessage else requiredMessage)
  {
    match v
    case Day(n) => if n < lo || n > hi then Some(rangeMessage) else None
    case _ => if needed then Some(requiredMessage) else None
  }

  /** The error of path day_of_week, if any. */
  function DayOfWeekError(f: Option<Frequency>, v: DayField): (e: Option<string>)
    ensures e.None? <==> (NeedsDayOfWeek(f) ==> v.Day?) && (v.Day? ==> 0 <= v.n <= 6)
  {
    DayError(v, 0, 6, NeedsDayOfWeek(f), DayOfWeekRangeMessage, DayOfWeekRequiredMessage)
  }

  /** The error of path day_of_month, if any. */
  function DayOfMonthError(f: Option<Frequency>, v: DayField): (e: Option<string>)
    ensures e.None? <==> (NeedsDayOfMonth(f) ==> v.Day?) && (v.Day? ==> 1 <= v.n <= 31)
  {
    DayError(v, 1, 31, NeedsDayOfMonth(f), DayOfMonthRangeMessage, DayOfMonthRequiredMessage)
  }

  /**
   * The same validators as Mongoose runs them: a path that is not required
   * skips every validator while its value is undefined, so the custom
   * "required for ..." check only ever sees null or a number.
   */
  function DayErrorAsWritten(v: DayField, lo: int, hi: int, needed: bool, rangeMessage: string, requiredMessage: string): (e: Option<string>)
    ensures v.NoDay? ==> e.None?
    ensures !v.NoDay? ==> e == DayError(v, lo, hi, needed, rangeMessage, requiredMessage)
  {
    if v.NoDay? then None else DayError(v, lo, hi, needed, rangeMessage, requiredMessage)
  }

  function DayOfWeekErrorAsWritten(f: Option<Frequency>, v: DayField): Option<string> {
    DayErrorAsWritten(v, 0, 6, NeedsDayOfWeek(f), DayOfWeekRangeMessage, DayOfWeekRequiredMessage)
  }

  function DayOfMonthErrorAsWritten(f: Option<Frequency>, v: DayField): Option<string> {
    DayErrorAsWritten(v, 1, 31, NeedsDayOfMonth(f), DayOfMonthRangeMessage, DayOfMonthRequiredMessage)
  }

  /** As written, a weekly or monthly schedule that leaves its day out is accepted. */
  lemma OmittedDayAcceptedAsWritten()
    ensures DayOfWeekErrorAsWritten(Some(Weekly), NoDay).None?
    ensures DayOfWeekErrorAsWritten(Some(Biweekly), NoDay).None?
    ensures DayOfMonthErrorAsWritten(Some(Monthly), NoDay).None?
    ensures DayOfWeekError(Some(Weekly), NoDay) == Some(DayOfWeekRequiredMessage)
    ensures DayOfMonthError(Some(Monthly), NoDay) == Some(DayOfMonthRequiredMessage)
  {
  }

  /** The two differ only on an omitted day of a frequency that needs it. */
  lemma AsWrittenDiffersOnlyOnOmittedDay(f: Option<Frequency>, w: DayField, m: DayField)
    ensures DayOfWeekErrorAsWritten(f, w) != DayOfWeekError(f, w) <==> w.NoDay? && NeedsDayOfWeek(f)
    ensures DayOfMonthErrorAsWritten(f, m) != DayOfMonthError(f, m) <==> m.NoDay? && NeedsDayOfMonth(f)
  {
  }

  /** Neither day is required by the frequencies that do not use it; a present day is still range-checked. */
  lemma OtherFrequencyDayOptional(f: Option<Frequency>)
    ensures !NeedsDayOfWeek(f) ==> DayOfWeekError(f, NoDay).None? && DayOfWeekError(f, NullDay).None?
    ensures !NeedsDayOfMonth(f) ==> DayOfMonthError(f, NoDay).None? && DayOfMonthError(f, NullDay).None?
    ensures DayOfWeekError(f, Day(7)) == Some(DayOfWeekRangeMessage)
    ensures DayOfMonthError(f, Day(0)) == Some(DayOfMonthRangeMessage)
  {
  }

  /** A recurring pickup schedule document. */
  class Schedule {
    /** None when frequency is unset. */
    var frequency: Option<Frequency>
    var dayOfWeek: DayField
    var dayOfMonth: DayField
    var isActive: bool
    var nextPickupDate: Option<Date>

    /** `new RecurringPickupSchedule({...})`; `is_active` defaults to true when not given. */
    constructor (frequency: Option<Frequency>, dayOfWeek: DayField, dayOfMonth: DayField,
                 isActive: Option<bool>, nextPickupDate: Option<Date>)
      ensures this.frequency == frequency && this.dayOfWeek == dayOfWeek && this.dayOfMonth == dayOfMonth
      ensures this.isActive == (if isActive.Some? then isActive.value else true)
      ensures this.nextPickupDate == nextPickupDate
    {
      this.frequency := frequency;
      this.dayOfWeek := dayOfWeek;
      this.dayOfMonth := dayOfMonth;
      this.isActive := if isActive.Some? then isActive.value else true;
      this.nextPickupDate := nextPickupDate;
    }

    /** The (path, message) errors of validation, in schema order. */
    function ValidationErrors(): (errs: seq<(string, string)>)
      reads this
      ensures |errs| == 0 <==>
                && frequency.Some?
                && DayOfWeekError(frequency, dayOfWeek).None?
                && DayOfMonthError(frequency, dayOfMonth).None?
                && nextPickupDate.Some?
      ensures forall i :: 0 <= i < |errs| ==> errs[i].0 in {"frequency", "day_of_week", "day_of_month", "next_pickup_date"}
    {
      (if frequency.None? then [("frequency", "Frequency is required")] else [])
      + (match DayOfWeekError(frequency, dayOfWeek) case Some(e) => [("day_of_week", e)] case None => [])
      + (match DayOfMonthError(frequency, dayOfMonth) case Some(e) => [("day_of_month", e)] case None => [])
      + (if nextPickupDate.None? then [("next_pickup_date", "Path `next_pickup_date` is required.")] else [])
    }

    /**
     * The errors the program's own save reports: the day paths are checked by
     * the validators as Mongoose runs them, which skip an undefined day.
     */
    function ValidationErrorsAsWritten(): (errs: seq<(string, string)>)
      reads this
      ensures |errs| == 0 <==>
                && frequency.Some?
                && DayOfWeekErrorAsWritten(frequency, dayOfWeek).None?
                && DayOfMonthErrorAsWritten(frequency, dayOfMonth).None?
                && nextPickupDate.Some?
    {
      (if frequency.None? then [("frequency", "Frequency is required")] else [])
      + (match DayOfWeekErrorAsWritten(frequency, dayOfWeek) case Some(e) => [("day_of_week", e)] case None => [])
      + (match DayOfMonthErrorAsWritten(frequency, dayOfMonth) case Some(e) => [("day_of_month", e)] case None => [])
      + (if nextPickupDate.None? then [("next_pickup_date", "Path `next_pickup_date` is required.")] else [])
    }

    /**
     * `calculateNextPickupDate()` with the clock reading `now`: one or two
     * weeks, or one calendar month, after the stored next date (or now).
     */
    function NextPickupDate(now: Date): (r: Date)
      reads this
      ensures var base := if nextPickupDate.Some? then nextPickupDate.value else now;
              && r.msOfDay == base.msOfDay
              && (frequency == Some(Weekly) ==> DayNumber(r) == DayNumber(base) + 7)
              && (frequency == Some(Biweekly) ==> DayNumber(r) == DayNumber(base) + 14)
              && (frequency == Some(Monthly) ==>
                    && (r.year, r.month) == NextMonth(base.year, base.month)
                    && r.day == (if base.day <= DaysInMonth(r.year, r.month) then base.day else DaysInMonth(r.year, r.month)))
              && (frequency.Some? ==> LocalMs(r) > LocalMs(base))
              && (frequency.None? ==> r == base)
    {
      var base := if nextPickupDate.Some? then nextPickupDate.value else now;
      match frequency
      case Some(Weekly) => AddDaysIsLater(base, 7); AddWeeks(base, 1)
      case Some(Biweekly) => AddDaysIsLater(base, 14); AddWeeks(base, 2)
      case Some(Monthly) => AddOneMonthIsLater(base); AddOneMonth(base)
      case None => base
    }

    /** `toggleActive()`: flip `is_active`, then save; the flag stays flipped even when saving fails. */
    method ToggleActive() returns (saved: Result<(), seq<(string, string)>>)
      modifies this
      ensures isActive == !old(isActive)
      ensures frequency == old(frequency) && dayOfWeek == old(dayOfWeek) && dayOfMonth == old(dayOfMonth)
      ensures nextPickupDate == old(nextPickupDate)
      ensures saved == (if |ValidationErrors()| == 0 then Success(()) else Failure(ValidationErrors()))
    {
      isActive := !isActive;
      var errs := ValidationErrors();
      if |errs| == 0 {
        saved := Success(());
      } else {
        saved := Failure(errs);
      }
    }
  }

  /**
   * The program's save accepts every schedule the corrected validation accepts,
   * and accepts more only when a frequency's needed day is left undefined.
   */
  lemma SaveAsWrittenAcceptsMore(s: Schedule)
    ensures |s.ValidationErrors()| == 0 ==> |s.ValidationErrorsAsWritten()| == 0
    ensures |s.ValidationErrorsAsWritten()| == 0 && |s.ValidationErrors()| > 0 ==>
              (NeedsDayOfWeek(s.frequency) && s.dayOfWeek.NoDay?) || (NeedsDayOfMonth(s.frequency) && s.dayOfMonth.NoDay?)
  {
    AsWrittenDiffersOnlyOnOmittedDay(s.frequency, s.dayOfWeek, s.dayOfMonth);
  }

  /** Toggling twice restores the flag, and nothing else moved. */
  method ToggleTwice(s: Schedule)
    modifies s
    ensures s.isActive == old(s.isActive)
    ensures s.frequency == old(s.frequency) && s.dayOfWeek == old(s.dayOfWeek)
    ensures s.dayOfMonth == old(s.dayOfMonth) && s.nextPickupDate == old(s.nextPickupDate)
  {
    var _ := s.ToggleActive();
    var _ := s.ToggleActive();
  }

  /** A monthly schedule due at 10:00 on 31 January 2024 moves to 10:00 on 29 February 2024. */
  lemma NextPickupExample(s: Schedule)
    requires s.frequency == Some(Monthly) && s.nextPickupDate == Some(DateTime(2024, 1, 31, 36000000))
    ensures s.NextPickupDate(DateTime(2000, 1, 1, 0)) == DateTime(2024, 2, 29, 36000000)
  {
  }
}
