/** The month picker: a popover with a year stepper and twelve month
    buttons. Choosing a month reports midnight of its first day and closes
    the popover; the year buttons move the date one year back or forward. */
module MonthPicker {
  import opened Js
  import opened Calendar
  import opened Seqs

  /** `setMonth(startOfMonth(date), k)`: the first day of month index `k`
      (0 for January) of the date's year. */
  function SelectMonth(d: DateTime, k: int): (r: DateTime)
    requires 0 <= k < 12
    ensures r.year == d.year && r.month == k + 1 && r.day == 1 && r.millis == 0
  {
    StartOfMonth(YearMonth(d.year, k + 1))
  }

  /** `setYear(date, y)`: the same month, day and time of day in year `y`,
      except that 29 February of a year that is not a leap year runs over
      into 1 March. */
  function SetYear(d: DateTime, y: int): (r: DateTime)
    ensures r.year == y && r.millis == d.millis
    ensures d.day <= DaysInMonth(y, d.month) ==> r.month == d.month && r.day == d.day
    ensures d.day > DaysInMonth(y, d.month) ==> d.month == 2 && d.day == 29 && !IsLeapYear(y) && r.month == 3 && r.day == 1
  {
    if d.day <= DaysInMonth(y, d.month) then Instant(y, d.month, d.day, d.millis)
    else Instant(y, 3, 1, d.millis)
  }

  /** `handleYearChange(change)`. */
  function ChangeYear(d: DateTime, change: int): (r: DateTime)
    ensures r.year == d.year + change
  {
    SetYear(d, d.year + change)
  }

  /** Only 29 February can leave its month when the year changes. */
  lemma ChangeYearKeepsMonth(d: DateTime, change: int)
    requires !(d.month == 2 && d.day == 29)
    ensures MonthOf(ChangeYear(d, change)) == YearMonth(d.year + change, d.month)
    ensures ChangeYear(d, change).day == d.day && ChangeYear(d, change).millis == d.millis
  {
  }

  /** Stepping the year forward and back again returns the date, unless it
      was 29 February and the year in between has no such day. */
  lemma ChangeYearBack(d: DateTime, change: int)
    requires !(d.month == 2 && d.day == 29) || IsLeapYear(d.year + change)
    ensures ChangeYear(ChangeYear(d, change), -change) == d
  {
  }

  /** Stepping from 29 February into a year without one lands on 1 March, and
      stepping back does not return. */
  lemma LeapDayOverflow(d: DateTime)
    requires d.month == 2 && d.day == 29 && !IsLeapYear(d.year + 1)
    ensures MonthOf(ChangeYear(d, 1)) == YearMonth(d.year + 1, 3)
    ensures ChangeYear(ChangeYear(d, 1), -1) != d
  {
  }

  /** A month chosen from the buttons is kept by the year buttons. */
  lemma SelectedMonthSurvivesYearChange(d: DateTime, k: int, change: int)
    requires 0 <= k < 12
    ensures ChangeYear(SelectMonth(d, k), change) == StartOfMonth(YearMonth(d.year + change, k + 1))
  {
  }

  // ---------------------------------------------------------------------
  // The buttons

  /** `index === currentMonth`. */
  predicate Highlighted(d: DateTime, index: int) {
    index == d.month - 1
  }

  function HighlightedButtons(d: DateTime): set<int> {
    set i | 0 <= i < 12 && Highlighted(d, i)
  }

  /** Exactly one month button is highlighted: the one of the date's month. */
  lemma OneButtonHighlighted(d: DateTime)
    ensures HighlightedButtons(d) == {d.month - 1}
  {
    assert d.month - 1 in HighlightedButtons(d);
  }

  /** After a month is chosen its own button is the highlighted one. */
  lemma SelectedButtonHighlighted(d: DateTime, k: int)
    requires 0 <= k < 12
    ensures HighlightedButtons(SelectMonth(d, k)) == {k}
  {
    OneButtonHighlighted(SelectMonth(d, k));
  }

  function ThreeLetters(): string -> string {
    (name: string) => Prefix(name, 3)
  }

  /** `month.slice(0, 3)` for each month name. */
  function ButtonLabels(): seq<string> {
    Map(MonthNames, ThreeLetters())
  }

  /** The button labels are the twelve short month names in calendar
      order, each three letters long. */
  lemma ButtonLabelsShort()
    ensures |ButtonLabels()| == 12
    ensures forall i :: 0 <= i < 12 ==> ButtonLabels()[i] == ShortMonthName(i + 1) && |ButtonLabels()[i]| == 3
  {
    forall i | 0 <= i < 12 ensures ButtonLabels()[i] == ShortMonthName(i + 1) && |ButtonLabels()[i]| == 3 {
      assert |MonthNames[i]| >= 3;
    }
  }

  /** `format(date, "MMMM yyyy")`: the trigger's label. */
  function TriggerLabel(d: DateTime): string {
    MonthNames[d.month - 1] + " " + FnsYear(d.year)
  }

  /** The trigger names the month just chosen, and the highlighted button
      carries the first three letters of that name. */
  lemma TriggerShowsSelection(d: DateTime, k: int)
    requires 0 <= k < 12
    ensures TriggerLabel(SelectMonth(d, k)) == MonthNames[k] + " " + FnsYear(d.year)
    ensures ButtonLabels()[k] == TriggerLabel(SelectMonth(d, k))[..3]
  {
    ButtonLabelsShort();
    assert |MonthNames[k]| >= 3;
  }

  // ---------------------------------------------------------------------
  // The component's state

  /** The popover flag the component owns, and the date it shows. The date
      is the form field that `onSelect` writes back. */
  class MonthPickerState {
    var date: DateTime
    var isOpen: bool

    constructor(date: DateTime)
      ensures this.date == date && !isOpen
    {
      this.date := date;
      isOpen := false;
    }

    /** `onOpenChange`: the trigger opens and closes the popover. */
    method SetOpen(open: bool)
      modifies this
      ensures isOpen == open && date == old(date)
    {
      isOpen := open;
    }

    /** `handleMonthSelect(k)`: reports the chosen month and closes. */
    method HandleMonthSelect(k: int)
      requires 0 <= k < 12
      modifies this
      ensures date == SelectMonth(old(date), k)
      ensures !isOpen
    {
      date := SelectMonth(date, k);
      isOpen := false;
    }

    /** `handleYearChange(change)`: reports the shifted date and leaves the
      popover as it was. */
    method HandleYearChange(change: int)
      modifies this
      ensures date == ChangeYear(old(date), change)
      ensures isOpen == old(isOpen)
    {
      date := ChangeYear(date, change);
    }
  }
}
