/** `TimePeriod`, its builder, the built-in 24x7 period and its object definition. */
module TimePeriod {
  import opened Wrappers
  import opened JavaString
  import opened ObjectFormat
  import TR = TimeRange

  datatype DayOfWeek = MONDAY | TUESDAY | WEDNESDAY | THURSDAY | FRIDAY | SATURDAY | SUNDAY

  /** `DayOfWeek.name()` */
  function DayName(d: DayOfWeek): string {
    match d
    case MONDAY => "MONDAY"
    case TUESDAY => "TUESDAY"
    case WEDNESDAY => "WEDNESDAY"
    case THURSDAY => "THURSDAY"
    case FRIDAY => "FRIDAY"
    case SATURDAY => "SATURDAY"
    case SUNDAY => "SUNDAY"
  }

  /** A `Weekday`: one day and the time ranges it covers. */
  datatype Weekday = Weekday(day: DayOfWeek, timeRanges: seq<TR.TimeRange>)

  datatype TimePeriod = TimePeriod(name: string, alias: string, weekdays: seq<Weekday>)

  /** `TimePeriod.TimePeriodBuilder`: collects weekdays in call order. */
  class TimePeriodBuilder {
    const name: string
    const alias: string
    var weekdays: seq<Weekday>

    constructor(name: string, alias: string)
      ensures this.name == name && this.alias == alias && weekdays == []
    {
      this.name := name;
      this.alias := alias;
      weekdays := [];
    }

    /** `addWeekday` appends and returns the same builder. */
    method AddWeekday(weekday: Weekday) returns (builder: TimePeriodBuilder)
      modifies this
      ensures builder == this
      ensures weekdays == old(weekdays) + [weekday]
    {
      weekdays := weekdays + [weekday];
      builder := this;
    }

    /**
     * `build` keeps the name, the alias and the weekdays in the order they were added. The Java
     * period shares the builder's list; the value taken here is a copy, which is the same thing
     * because no builder is used again after `build`.
     */
    method Build() returns (period: TimePeriod)
      ensures period.name == name && period.alias == alias && period.weekdays == weekdays
    {
      period := TimePeriod(name, alias, weekdays);
    }
  }

  /** `getTwentyFourSevenName()` */
  function TwentyFourSevenName(): string { "24x7" }

  function AllDay(): TR.TimeRange { TR.TimeRange(TR.Time(0, 0), TR.Time(24, 0)) }

  const WeekOrder: seq<DayOfWeek> := [SUNDAY, MONDAY, TUESDAY, WEDNESDAY, THURSDAY, FRIDAY, SATURDAY]

  /** The 24x7 period: Sunday through Saturday, each with the single range 00:00-24:00. */
  predicate IsTwentyFourSeven(period: TimePeriod) {
    && period.name == TwentyFourSevenName()
    && period.alias == "24 hours a day, 7 days a week"
    && |period.weekdays| == 7
    && forall i :: 0 <= i < 7 ==> period.weekdays[i] == Weekday(WeekOrder[i], [AllDay()])
  }

  /** `TwentyFourSeven()` */
  method TwentyFourSeven() returns (period: TimePeriod)
    ensures IsTwentyFourSeven(period)
  {
    var allDay := AllDay();
    var builder := new TimePeriodBuilder("24x7", "24 hours a day, 7 days a week");
    builder := builder.AddWeekday(Weekday(SUNDAY, [allDay]));
    builder := builder.AddWeekday(Weekday(MONDAY, [allDay]));
    builder := builder.AddWeekday(Weekday(TUESDAY, [allDay]));
    builder := builder.AddWeekday(Weekday(WEDNESDAY, [allDay]));
    builder := builder.AddWeekday(Weekday(THURSDAY, [allDay]));
    builder := builder.AddWeekday(Weekday(FRIDAY, [allDay]));
    builder := builder.AddWeekday(Weekday(SATURDAY, [allDay]));
    period := builder.Build();
  }

  /** `getAllDefaultTimePeriods()`: exactly one period, the 24x7 one. */
  method AllDefaultTimePeriods() returns (periods: seq<TimePeriod>)
    ensures |periods| == 1 && IsTwentyFourSeven(periods[0])
  {
    var period := TwentyFourSeven();
    periods := [period];
  }

  // ---------------------------------------------------------------- object definition

  /** The ranges of one weekday, as `toString` texts joined with ','. */
  function RangesText(ranges: seq<TR.TimeRange>): string {
    Join(seq(|ranges|, i requires 0 <= i < |ranges| => TR.ToString(ranges[i])), ",")
  }

  /** The line of one weekday: the lower-case day name, then its ranges. */
  function WeekdayField(w: Weekday): Field {
    Field(ToLower(DayName(w.day)), RangesText(w.timeRanges))
  }

  function WeekdayFields(ws: seq<Weekday>): seq<Field> {
    seq(|ws|, i requires 0 <= i < |ws| => WeekdayField(ws[i]))
  }

  lemma WeekdayFieldsSnoc(ws: seq<Weekday>, i: int)
    requires 0 <= i < |ws|
    ensures WeekdayFields(ws[..i + 1]) == WeekdayFields(ws[..i]) + [WeekdayField(ws[i])]
  {
    assert ws[..i + 1] == ws[..i] + [ws[i]];
  }

  function HeaderFields(period: TimePeriod): seq<Field> {
    [Field("timeperiod_name", period.name), Field("alias", period.alias)]
  }

  /** The definition a period stands for: name and alias, then one line per weekday in order. */
  function PeriodDefinition(period: TimePeriod): Definition {
    Definition("timeperiod", HeaderFields(period) + WeekdayFields(period.weekdays))
  }

  /** `getObjectDefinitions()` */
  method ObjectDefinitions(period: TimePeriod) returns (text: string)
    ensures text == Render(PeriodDefinition(period))
  {
    text := "define " + "timeperiod" + "{\n";
    ghost var header := text;
    text := text + "\ttimeperiod_name\t" + period.name + "\n";
    text := text + "\talias\t" + period.alias + "\n";
    ghost var written := HeaderFields(period);
    assert text == header + FieldLines(written) by {
      assert FieldLines(written[1..]) == Line(written[1]) + FieldLines([]);
    }
    var i := 0;
    while i < |period.weekdays|
      invariant 0 <= i <= |period.weekdays|
      invariant written == HeaderFields(period) + WeekdayFields(period.weekdays[..i])
      invariant text == header + FieldLines(written)
    {
      var w := period.weekdays[i];
      var line := "\t" + ToLower(DayName(w.day)) + "\t" + RangesText(w.timeRanges) + "\n";
      assert line == Line(WeekdayField(w));
      AppendLine(header, written, WeekdayField(w));
      text := text + line;
      written := written + [WeekdayField(w)];
      WeekdayFieldsSnoc(period.weekdays, i);
      i := i + 1;
    }
    assert period.weekdays[..i] == period.weekdays;
    text := text + "}\n\n";
  }

  lemma HeaderPlain(period: TimePeriod)
    requires '\n' !in period.name && '\n' !in period.alias
    ensures '{' !in "timeperiod"
    ensures forall i :: 0 <= i < |HeaderFields(period)| ==> PlainField(HeaderFields(period)[i])
  {
  }

  /** A weekday's line has no tab in its key, and no newline in its value when its ranges have none. */
  lemma WeekdayFieldPlain(w: Weekday)
    requires '\n' !in RangesText(w.timeRanges)
    ensures PlainField(WeekdayField(w))
  {
    var key := ToLower(DayName(w.day));
    DayKeyLetters(w.day);
    assert forall k :: 0 <= k < |key| ==> key[k] != '\t';
  }

  /** A weekday's key is made of lower-case letters only. */
  lemma DayKeyLetters(day: DayOfWeek)
    ensures forall k :: 0 <= k < |ToLower(DayName(day))| ==> 'a' <= ToLower(DayName(day))[k] <= 'z'
  {
    var n := DayName(day);
    assert forall k :: 0 <= k < |n| ==> 'A' <= n[k] <= 'Z';
  }

  /**
   * A reader of the definition gets back the name, the alias and one field per weekday, in
   * order, as long as no name, alias or range text holds a newline.
   */
  lemma ReadBack(period: TimePeriod)
    requires '\n' !in period.name && '\n' !in period.alias
    requires forall i :: 0 <= i < |period.weekdays| ==> '\n' !in RangesText(period.weekdays[i].timeRanges)
    ensures ParseAll(Render(PeriodDefinition(period))) == Some([PeriodDefinition(period)])
  {
    var ws := WeekdayFields(period.weekdays);
    forall i | 0 <= i < |ws| ensures PlainField(ws[i]) {
      WeekdayFieldPlain(period.weekdays[i]);
    }
    HeaderPlain(period);
    PlainConcat("timeperiod", HeaderFields(period), ws);
    ReadBackOne(PeriodDefinition(period));
  }
}
