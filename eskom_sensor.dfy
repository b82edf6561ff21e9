// Eskom load-shedding: the status, area and API-quota sensors (sensor.py).

module EskomSensor {
  import opened Common
  import opened EskomCalendar

  /** `unique_id` of every sensor and calendar: the config entry id and the entity's own id. */
  function UniqueId(entryId: string, entityId: string): (id: string)
    ensures HasPrefix(id, entryId + "-") && id[|entryId| + 1..] == entityId
  {
    entryId + "-" + entityId
  }

  /** Entities of one entry with different ids get different unique ids. */
  lemma UniqueIdsAreDistinct(entryId: string, a: string, b: string)
    requires a != b
    ensures UniqueId(entryId, a) != UniqueId(entryId, b)
  {
    assert UniqueId(entryId, a)[|entryId| + 1..] == a;
  }

  // ---- status sensors -----------------------------------------------------------------------

  /** The "stage" field of an area's status: missing, text, or a number. */
  datatype StageField = StageAbsent | StageText(text: string) | StageNumber(number: int)

  predicate Truthy(f: StageField)
  {
    match f
    case StageAbsent => false
    case StageText(t) => t != ""
    case StageNumber(i) => i != 0
  }

  /**
   * `native_value` of a status sensor: `int(stage)` when the stage is truthy,
   * else None. `toInt` is Python's `int` on text, None where it raises.
   */
  function StatusValue(stage: StageField, toInt: string -> Option<int>): (r: Outcome<Option<int>>)
    ensures !Truthy(stage) ==> r == Ok(None)
    ensures stage.StageNumber? && Truthy(stage) ==> r == Ok(Some(stage.number))
    ensures stage.StageText? && Truthy(stage) ==>
              (r.Raises? <==> toInt(stage.text).None?) && (r.Ok? ==> r.value == toInt(stage.text))
  {
    if !Truthy(stage) then Ok(None)
    else match stage
      case StageNumber(i) => Ok(Some(i))
      case StageText(t) => if toInt(t).None? then Raises else Ok(Some(toInt(t).value))
  }

  /** The text "0" is truthy, so it reads as stage 0, while the number 0 reads as no stage. */
  lemma ZeroTextIsAStage(toInt: string -> Option<int>)
    requires toInt("0") == Some(0)
    ensures StatusValue(StageText("0"), toInt) == Ok(Some(0))
    ensures StatusValue(StageNumber(0), toInt) == Ok(None)
  {
  }

  /**
   * `extra_state_attributes` of a status sensor: the area name and the
   * parsed update time; a missing or unparsable time raises.
   */
  function StatusAttributes(name: Option<string>, stageUpdated: Option<string>, parse: string -> Option<Instant>)
    : (r: Outcome<(Option<string>, Instant)>)
    ensures r.Ok? <==> stageUpdated.Some? && parse(stageUpdated.value).Some?
    ensures r.Ok? ==> r.value.0 == name
  {
    if stageUpdated.None? || parse(stageUpdated.value).None? then Raises
    else Ok((name, parse(stageUpdated.value).value))
  }

  // ---- the area sensor ------------------------------------------------------------------------

  /** The longest run of digits at the start of `s`. */
  function LeadingDigits(s: string): (r: string)
    ensures AllDigits(r) && HasPrefix(s, r)
    ensures |r| == |s| || !IsDigit(s[|r|])
  {
    if |s| == 0 || !IsDigit(s[0]) then ""
    else
      var rest := LeadingDigits(s[1..]);
      assert s[1..][..|rest|] == s[1..|rest| + 1];
      [s[0]] + rest
  }

  /** `re.findall(r"\d+", s)[0]` as an integer, or None when there is no digit. */
  function FirstNumber(s: string): (r: Option<nat>)
    ensures r.None? <==> forall i :: 0 <= i < |s| ==> !IsDigit(s[i])
  {
    if |s| == 0 then None
    else if IsDigit(s[0]) then Some(ParseNat(LeadingDigits(s)))
    else
      var r := FirstNumber(s[1..]);
      assert forall i :: 1 <= i < |s| ==> s[i] == s[1..][i - 1];
      r
  }

  lemma {:induction false} SkipText(p: string, x: string)
    requires forall i :: 0 <= i < |p| ==> !IsDigit(p[i])
    ensures FirstNumber(p + x) == FirstNumber(x)
    decreases |p|
  {
    if |p| > 0 {
      assert (p + x)[0] == p[0] && !IsDigit(p[0]);
      assert (p + x)[1..] == p[1..] + x;
      SkipText(p[1..], x);
    } else {
      assert p + x == x;
    }
  }

  lemma {:induction false} AllLeadingDigits(s: string)
    requires AllDigits(s)
    ensures LeadingDigits(s) == s
    decreases |s|
  {
    if |s| > 0 {
      AllLeadingDigits(s[1..]);
    }
  }

  /** A note formatted "Stage X" reads as the number X. */
  lemma StageNoteReadsStage(n: nat)
    ensures FirstNumber("Stage " + NatToString(n)) == Some(n)
  {
    var digits := NatToString(n);
    assert forall i :: 0 <= i < |"Stage "| ==> !IsDigit("Stage "[i]);
    SkipText("Stage ", digits);
    AllLeadingDigits(digits);
    assert IsDigit(digits[0]);
    assert FirstNumber(digits) == Some(ParseNat(digits));
    ParseNatToString(n);
  }

  datatype AreaValue = AreaNumber(n: nat) | AreaNote(note: string)

  /** `native_value` of the area sensor: the first event's stage number, else its note, else 0. */
  function AreaStatus(events: seq<ApiEvent>): (v: AreaValue)
    ensures |events| == 0 ==> v == AreaNumber(0)
    ensures |events| > 0 && FirstNumber(events[0].note).Some? ==> v == AreaNumber(FirstNumber(events[0].note).value)
    ensures |events| > 0 && FirstNumber(events[0].note).None? ==> v == AreaNote(events[0].note)
  {
    if |events| == 0 then AreaNumber(0)
    else match FirstNumber(events[0].note)
      case Some(n) => AreaNumber(n)
      case None => AreaNote(events[0].note)
  }

  /** The area's name and region. */
  datatype AreaInfo = AreaInfo(name: string, region: string)

  datatype AreaAttributes = AreaAttributes(area: string, region: string, currentlyLoadshedding: bool)

  /**
   * `extra_state_attributes` of the area sensor: load shedding is on when
   * `now` lies within the first event, both ends included. Missing area
   * information or an unparsable time raises.
   */
  function AreaAttributesOf(events: seq<ApiEvent>, info: Option<AreaInfo>, parse: string -> Option<Instant>, now: Instant)
    : (r: Outcome<AreaAttributes>)
    ensures r.Ok? && |events| == 0 ==> !r.value.currentlyLoadshedding
    ensures r.Ok? && |events| > 0 ==>
              var first := NextEvent(events, parse);
              first.Ok? && first.value.Some? &&
              (r.value.currentlyLoadshedding <==> first.value.value.start <= now <= first.value.value.end)
    ensures r.Ok? <==> info.Some? && NextEvent(events, parse).Ok?
  {
    var first := NextEvent(events, parse);
    if first.Raises? || info.None? then Raises
    else
      var on := first.value.Some? && first.value.value.start <= now <= first.value.value.end;
      Ok(AreaAttributes(info.value.name, info.value.region, on))
  }

  // ---- the quota sensor ---------------------------------------------------------------------

  datatype Allowance = Allowance(limit: int, count: int, kind: string)

  /** `native_value` of the quota sensor: the calls left, or None without an allowance. */
  function QuotaValue(allowance: Option<Allowance>): (v: Option<int>)
    ensures v.Some? <==> allowance.Some?
    ensures v.Some? ==> v.value + allowance.value.count == allowance.value.limit
  {
    if allowance.Some? then Some(allowance.value.limit - allowance.value.count) else None
  }

  datatype QuotaAttributes = QuotaAttributes(remaining: int, count: int, limit: int, kind: string)

  function QuotaAttributesOf(allowance: Option<Allowance>): (r: Option<QuotaAttributes>)
    ensures r.Some? <==> allowance.Some?
    ensures r.Some? ==> r.value.limit == allowance.value.limit && r.value.count == allowance.value.count &&
                        r.value.kind == allowance.value.kind
  {
    if allowance.None? then None
    else
      var a := allowance.value;
      Some(QuotaAttributes(a.limit - a.count, a.count, a.limit, a.kind))
  }

  /** The attributes agree with each other and with the sensor's value: Remaining is Limit - Count. */
  lemma QuotaIsConsistent(allowance: Option<Allowance>)
    requires allowance.Some?
    ensures var r := QuotaAttributesOf(allowance).value;
            r.remaining == r.limit - r.count && QuotaValue(allowance) == Some(r.remaining)
  {
  }
}
