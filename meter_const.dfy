// Utility meter (next gen): the predefined reset cycles and their tables.

module MeterConst {
  import opened Common

  /** The predefined reset cycles. */
  datatype Cycle =
    | EveryFiveMinutes | EveryTenMinutes | QuarterHourly | EveryTwentyMinutes
    | HalfHourly | Hourly | Daily | Weekly | Monthly | Bimonthly | Quarterly
    | HalfYearly | Yearly

  const Precision := 5
  const Collecting := "collecting"
  const Paused := "paused"
  const SingleTariff := "single_tariff"
  const TotalTariff := "total"

  /** The configuration key of a cycle. */
  function Key(c: Cycle): string
  {
    match c
    case EveryFiveMinutes => "every-five-minutes"
    case EveryTenMinutes => "every-ten-minutes"
    case QuarterHourly => "quarter-hourly"
    case EveryTwentyMinutes => "every-twenty-minutes"
    case HalfHourly => "half-hourly"
    case Hourly => "hourly"
    case Daily => "daily"
    case Weekly => "weekly"
    case Monthly => "monthly"
    case Bimonthly => "bimonthly"
    case Quarterly => "quarterly"
    case HalfYearly => "half-yearly"
    case Yearly => "yearly"
  }

  /** The display name of a cycle (the values of the name table). */
  function Name(c: Cycle): string
  {
    match c
    case EveryFiveMinutes => "5 Minute"
    case EveryTenMinutes => "10 Minute"
    case QuarterHourly => "15 Minute"
    case EveryTwentyMinutes => "20 Minute"
    case HalfHourly => "30 Minute"
    case Hourly => "Hourly"
    case Daily => "Daily"
    case Weekly => "Weekly"
    case Monthly => "Monthly"
    case Bimonthly => "Bi Monthly"
    case Quarterly => "Quarterly"
    case HalfYearly => "Half Yearly"
    case Yearly => "Yearly"
  }

  /** A piece of a cron field: literal text or one of the `{minute}`, `{hour}`, `{day}` slots. */
  datatype Piece = Text(s: string) | MinuteSlot | HourSlot | DaySlot

  type Field = seq<Piece>

  /** The cron template of a cycle, as its five space-separated fields. */
  function CronTemplate(c: Cycle): seq<Field>
  {
    var m := [MinuteSlot];
    var h := [HourSlot];
    var star := [Text("*")];
    var one := [Text("1")];
    match c
    case EveryFiveMinutes => [[MinuteSlot, Text("/5")], star, star, star, star]
    case EveryTenMinutes => [[MinuteSlot, Text("/10")], star, star, star, star]
    case QuarterHourly => [[MinuteSlot, Text("/15")], star, star, star, star]
    case EveryTwentyMinutes => [[MinuteSlot, Text("/20")], star, star, star, star]
    case HalfHourly => [[MinuteSlot, Text("/30")], star, star, star, star]
    case Hourly => [m, star, star, star, star]
    case Daily => [m, h, star, star, star]
    case Weekly => [m, h, star, star, [DaySlot]]
    case Monthly => [m, h, one, star, star]
    case Bimonthly => [m, h, one, [Text("*/2")], star]
    case Quarterly => [m, h, one, [Text("*/3")], star]
    case HalfYearly => [m, h, one, [Text("*/6")], star]
    case Yearly => [m, h, one, one, star]
  }

  /** The cycles a multi meter can combine, in display order. */
  const MultiMeterTypes: seq<Cycle> := [
    EveryFiveMinutes, EveryTenMinutes, QuarterHourly, EveryTwentyMinutes,
    HalfHourly, Hourly, Daily, Weekly, Monthly, Bimonthly, Quarterly,
    HalfYearly, Yearly
  ]

  /** Keys of a list of cycles. */
  function Keys(cs: seq<Cycle>): (r: seq<string>)
  {
    seq(|cs|, i requires 0 <= i < |cs| => Key(cs[i]))
  }

  /** The single-cycle choices, "none" first. */
  const MeterTypes: seq<string> := [
    "none", "every-five-minutes", "every-ten-minutes", "quarter-hourly",
    "every-twenty-minutes", "half-hourly", "hourly", "daily", "weekly",
    "monthly", "bimonthly", "quarterly", "half-yearly", "yearly"
  ]

  /** The cycles offered by the configuration selector. */
  const ConfMeterTypes: seq<Cycle> := [
    EveryFiveMinutes, QuarterHourly, HalfHourly, Hourly, Daily, Weekly,
    Monthly, Bimonthly, Quarterly, HalfYearly, Yearly
  ]

  /** Reads a configuration key back into a cycle. */
  function ParseCycle(s: string): Option<Cycle>
  {
    if s == "every-five-minutes" then Some(EveryFiveMinutes)
    else if s == "every-ten-minutes" then Some(EveryTenMinutes)
    else if s == "quarter-hourly" then Some(QuarterHourly)
    else if s == "every-twenty-minutes" then Some(EveryTwentyMinutes)
    else if s == "half-hourly" then Some(HalfHourly)
    else if s == "hourly" then Some(Hourly)
    else if s == "daily" then Some(Daily)
    else if s == "weekly" then Some(Weekly)
    else if s == "monthly" then Some(Monthly)
    else if s == "bimonthly" then Some(Bimonthly)
    else if s == "quarterly" then Some(Quarterly)
    else if s == "half-yearly" then Some(HalfYearly)
    else if s == "yearly" then Some(Yearly)
    else None
  }

  /** The `offset` duration of a meter: days, hours, minutes, seconds. */
  datatype Offset = Offset(days: nat, hours: nat, minutes: nat, seconds: nat)

  const DefaultOffset := Offset(0, 0, 0, 0)

  lemma {:induction false} ParseKey(c: Cycle)
    ensures ParseCycle(Key(c)) == Some(c)
  {
    match c
    case EveryFiveMinutes =>
    case EveryTenMinutes =>
    case QuarterHourly =>
    case EveryTwentyMinutes =>
    case HalfHourly =>
    case Hourly =>
    case Daily =>
    case Weekly =>
    case Monthly =>
    case Bimonthly =>
    case Quarterly =>
    case HalfYearly =>
    case Yearly =>
  }

  /** Distinct cycles have distinct configuration keys. */
  lemma KeyInjective(a: Cycle, b: Cycle)
    requires Key(a) == Key(b)
    ensures a == b
  {
    ParseKey(a);
    ParseKey(b);
  }

  lemma MeterTypesIsNoneThenMulti()
    ensures MeterTypes == ["none"] + Keys(MultiMeterTypes)
  {
  }

  /** Where a cycle sits in the display order. */
  function Position(c: Cycle): nat
  {
    match c
    case EveryFiveMinutes => 0
    case EveryTenMinutes => 1
    case QuarterHourly => 2
    case EveryTwentyMinutes => 3
    case HalfHourly => 4
    case Hourly => 5
    case Daily => 6
    case Weekly => 7
    case Monthly => 8
    case Bimonthly => 9
    case Quarterly => 10
    case HalfYearly => 11
    case Yearly => 12
  }

  /** The multi-meter list has no repeated cycle or key and lists every named cycle. */
  lemma MultiMeterTypesAreTheNamedCycles()
    ensures NoDuplicates(MultiMeterTypes)
    ensures NoDuplicates(Keys(MultiMeterTypes))
    ensures forall c: Cycle :: c in MultiMeterTypes
  {
    EveryCycleIsListed();
    var ks := Keys(MultiMeterTypes);
    forall i, j | 0 <= i < j < |ks|
      ensures ks[i] != ks[j]
    {
      if ks[i] == ks[j] {
        KeyInjective(MultiMeterTypes[i], MultiMeterTypes[j]);
      }
    }
  }

  lemma EveryCycleIsListed()
    ensures forall c: Cycle :: c in MultiMeterTypes
  {
    forall c: Cycle
      ensures c in MultiMeterTypes
    {
      assert MultiMeterTypes[Position(c)] == c;
    }
  }

  lemma ConfMeterTypesAreMultiTypes()
    ensures forall i :: 0 <= i < |ConfMeterTypes| ==> ConfMeterTypes[i] in MultiMeterTypes
  {
  }

  // ---- cron templates -------------------------------------------------------

  /** A field's text, each slot replaced by the given string. */
  function RenderField(f: Field, minute: string, hour: string, day: string): string
  {
    if |f| == 0 then ""
    else
      var head := match f[0]
        case Text(s) => s
        case MinuteSlot => minute
        case HourSlot => hour
        case DaySlot => day;
      head + RenderField(f[1..], minute, hour, day)
  }

  /** Renders every field and joins them with single spaces. */
  function RenderFields(fs: seq<Field>, minute: string, hour: string, day: string): string
  {
    if |fs| == 0 then ""
    else if |fs| == 1 then RenderField(fs[0], minute, hour, day)
    else RenderField(fs[0], minute, hour, day) + " " + RenderFields(fs[1..], minute, hour, day)
  }

  /** The template as written in the cron table, slots spelled `{minute}`, `{hour}`, `{day}`. */
  function TemplateText(c: Cycle): string
  {
    RenderFields(CronTemplate(c), "{minute}", "{hour}", "{day}")
  }

  /** `PERIOD2CRON[c].format(minute=…, hour=…, day=…)`. */
  function Format(c: Cycle, minute: string, hour: string, day: string): string
  {
    RenderFields(CronTemplate(c), minute, hour, day)
  }

  predicate NoSpace(s: string)
  {
    forall i :: 0 <= i < |s| ==> s[i] != ' '
  }

  /** Literal text of a field is non-empty and free of spaces and braces. */
  predicate PlainPiece(p: Piece)
  {
    p.Text? ==> |p.s| > 0 && forall i :: 0 <= i < |p.s| ==> p.s[i] != ' ' && p.s[i] != '{' && p.s[i] != '}'
  }

  predicate WellFormedField(f: Field)
  {
    |f| > 0 && forall i :: 0 <= i < |f| ==> PlainPiece(f[i])
  }

  /** Every field a template is built from is non-empty plain text and slots. */
  lemma StockFieldsAreWellFormed()
    ensures WellFormedField([Text("*")]) && WellFormedField([Text("1")])
    ensures WellFormedField([MinuteSlot]) && WellFormedField([HourSlot]) && WellFormedField([DaySlot])
    ensures WellFormedField([MinuteSlot, Text("/5")]) && WellFormedField([MinuteSlot, Text("/10")])
    ensures WellFormedField([MinuteSlot, Text("/15")]) && WellFormedField([MinuteSlot, Text("/20")])
    ensures WellFormedField([MinuteSlot, Text("/30")])
    ensures WellFormedField([Text("*/2")]) && WellFormedField([Text("*/3")]) && WellFormedField([Text("*/6")])
  {
  }

  /** Every template has five non-empty fields made of plain text and the three known slots. */
  lemma TemplateIsFiveFields(c: Cycle)
    ensures |CronTemplate(c)| == 5
    ensures forall i :: 0 <= i < 5 ==> WellFormedField(CronTemplate(c)[i])
  {
    StockFieldsAreWellFormed();
    var t := CronTemplate(c);
    assert WellFormedField(t[0]) && WellFormedField(t[1]) && WellFormedField(t[2]);
    assert WellFormedField(t[3]) && WellFormedField(t[4]);
  }

  lemma {:induction false} RenderFieldNoSpace(f: Field, minute: string, hour: string, day: string)
    requires forall i :: 0 <= i < |f| ==> PlainPiece(f[i])
    requires NoSpace(minute) && NoSpace(hour) && NoSpace(day)
    ensures CountChar(RenderField(f, minute, hour, day), ' ') == 0
    decreases |f|
  {
    if |f| > 0 {
      RenderFieldNoSpace(f[1..], minute, hour, day);
      var head := match f[0]
        case Text(s) => s
        case MinuteSlot => minute
        case HourSlot => hour
        case DaySlot => day;
      NoSpaceCount(head);
      CountCharAppend(head, RenderField(f[1..], minute, hour, day), ' ');
    }
  }

  lemma {:induction false} NoSpaceCount(s: string)
    requires NoSpace(s)
    ensures CountChar(s, ' ') == 0
    decreases |s|
  {
    if |s| > 0 {
      NoSpaceCount(s[1..]);
    }
  }

  /** Joining n space-free fields gives exactly n - 1 spaces. */
  lemma {:induction false} RenderFieldsSpaces(fs: seq<Field>, minute: string, hour: string, day: string)
    requires |fs| > 0
    requires forall i :: 0 <= i < |fs| ==> WellFormedField(fs[i])
    requires NoSpace(minute) && NoSpace(hour) && NoSpace(day)
    ensures CountChar(RenderFields(fs, minute, hour, day), ' ') == |fs| - 1
    decreases |fs|
  {
    RenderFieldNoSpace(fs[0], minute, hour, day);
    if |fs| > 1 {
      RenderFieldsSpaces(fs[1..], minute, hour, day);
      var a := RenderField(fs[0], minute, hour, day);
      var b := RenderFields(fs[1..], minute, hour, day);
      CountCharAppend(a, " ", ' ');
      CountCharAppend(a + " ", b, ' ');
    }
  }

  lemma DigitsHaveNoSpace(s: string)
    requires AllDigits(s)
    ensures NoSpace(s)
  {
  }

  /**
   * The cron pattern `__init__` derives from a predefined cycle and an offset:
   * minutes, hours and days fill the slots and the result keeps five fields.
   */
  function CronPattern(c: Cycle, offset: Offset): (r: string)
    ensures CountChar(r, ' ') == 4
  {
    TemplateIsFiveFields(c);
    DigitsHaveNoSpace(NatToString(offset.minutes));
    DigitsHaveNoSpace(NatToString(offset.hours));
    DigitsHaveNoSpace(NatToString(offset.days));
    RenderFieldsSpaces(CronTemplate(c), NatToString(offset.minutes),
                       NatToString(offset.hours), NatToString(offset.days));
    Format(c, NatToString(offset.minutes), NatToString(offset.hours), NatToString(offset.days))
  }
}
