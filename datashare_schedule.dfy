/** Mapping between the `snapshot_schedule` block of an azurerm_data_share
    resource and the API's scheduled synchronization setting. */
module DataShareSchedule {
  import opened Wrappers

  /** A point in time (Go's time.Time inside date.Time); its structure is not modelled. */
  type Instant(==)

  /** RFC 3339 (section 5.6) date-time handling as time.Parse, Time.Format and
      Time.IsZero do it: `parse` yields None on malformed text, `zero` is the zero
      time (Go's Time{}) that time.Parse returns alongside its error, and `isZero`
      holds of every instant at the zero moment, whatever its location, so that
      more instants than `zero` itself may satisfy it. */
  datatype Rfc3339 = Rfc3339(
    parse: string -> Option<Instant>,
    format: Instant -> string,
    zero: Instant,
    isZero: Instant -> bool)

  /** One `snapshot_schedule` block of the configuration. */
  datatype ScheduleBlock = ScheduleBlock(name: string, recurrence: string, startTime: string)

  /** One `snapshot_schedule` entry produced for state; `name` is a Go *string. */
  datatype ScheduleState = ScheduleState(name: Option<string>, recurrence: string, startTime: string)

  datatype SynchronizationSettingKind = KindSynchronizationSetting | KindScheduleBased

  datatype ScheduledProperties = ScheduledProperties(recurrenceInterval: string, synchronizationTime: Option<Instant>)

  /** datashare.ScheduledSynchronizationSetting; its properties are an embedded pointer. */
  datatype ScheduledSynchronizationSetting =
    ScheduledSynchronizationSetting(name: Option<string>, kind: SynchronizationSettingKind, properties: Option<ScheduledProperties>)

  /** Reading a field through a nil embedded pointer stops a Go program. */
  datatype Panic = NilPointerDereference

  function ParseOrZero(c: Rfc3339, s: string): Instant {
    match c.parse(s)
    case Some(t) => t
    case None => c.zero
  }

  /** expandAzureRmDataShareSnapshotSchedule: no schedule for an empty list,
      otherwise a schedule-based setting built from the first block alone. A
      start time that does not parse is not an error: it becomes the zero time. */
  function ExpandSnapshotSchedule(input: seq<ScheduleBlock>, c: Rfc3339): (r: Option<ScheduledSynchronizationSetting>)
    ensures r.None? <==> |input| == 0
    ensures r.Some? ==>
      && r.value.kind == KindScheduleBased
      && r.value.name.None?
      && r.value.properties.Some?
      && r.value.properties.value.recurrenceInterval == input[0].recurrence
      && r.value.properties.value.synchronizationTime.Some?
    ensures r.Some? && c.parse(input[0].startTime).None? ==>
      r.value.properties.value.synchronizationTime == Some(c.zero)
    ensures r.Some? && c.parse(input[0].startTime).Some? ==>
      r.value.properties.value.synchronizationTime == c.parse(input[0].startTime)
  {
    if |input| == 0 then None
    else
      var schedule := input[0];
      var startTime := ParseOrZero(c, schedule.startTime);
      Some(ScheduledSynchronizationSetting(None, KindScheduleBased,
        Some(ScheduledProperties(schedule.recurrence, Some(startTime)))))
  }

  /** flattenAzureRmDataShareSnapshotSchedule: no entries for a nil setting,
      otherwise exactly one entry whose `start_time` is empty when the
      synchronization time is nil or zero and its RFC 3339 text otherwise. */
  function FlattenSnapshotSchedule(sync: Option<ScheduledSynchronizationSetting>, c: Rfc3339): (r: Result<seq<ScheduleState>, Panic>)
    ensures sync.None? ==> r == Success([])
    ensures sync.Some? && sync.value.properties.None? ==> r == Failure(NilPointerDereference)
    ensures sync.Some? && sync.value.properties.Some? ==>
      && r.Success? && |r.value| == 1
      && r.value[0].name == sync.value.name
      && r.value[0].recurrence == sync.value.properties.value.recurrenceInterval
    ensures sync.Some? && sync.value.properties.Some? ==>
      var t := sync.value.properties.value.synchronizationTime;
      r.value[0].startTime == if t.None? || c.isZero(t.value) then "" else c.format(t.value)
  {
    match sync
    case None => Success([])
    case Some(s) =>
      match s.properties
      case None => Failure(NilPointerDereference)
      case Some(props) =>
        var startTime :=
          if props.synchronizationTime.Some? && !c.isZero(props.synchronizationTime.value)
          then c.format(props.synchronizationTime.value) else "";
        Success([ScheduleState(s.name, props.recurrenceInterval, startTime)])
  }

  /** Blocks after the first have no effect on expand. */
  lemma ExpandReadsOnlyFirst(first: ScheduleBlock, rest: seq<ScheduleBlock>, c: Rfc3339)
    ensures ExpandSnapshotSchedule([first] + rest, c) == ExpandSnapshotSchedule([first], c)
  {
  }

  /** Expanding then flattening a configured schedule gives one entry with the
      same recurrence, no name (expand does not set one), and as start time the
      empty string when the configured text does not parse or parses to the zero
      time, and the RFC 3339 text of the parsed time otherwise. Go's Time{} is
      zero, which the first requirement states of the time record. */
  lemma ScheduleRoundTrip(input: seq<ScheduleBlock>, c: Rfc3339)
    requires c.isZero(c.zero)
    requires |input| > 0
    ensures FlattenSnapshotSchedule(ExpandSnapshotSchedule(input, c), c) ==
      var parsed := c.parse(input[0].startTime);
      Success([ScheduleState(None, input[0].recurrence,
        if parsed.None? || c.isZero(parsed.value) then "" else c.format(parsed.value))])
  {
  }

  /** An unparsable start time flattens back to the empty string. */
  lemma UnparsableStartTimeFlattensToEmpty(b: ScheduleBlock, c: Rfc3339)
    requires c.isZero(c.zero)
    requires c.parse(b.startTime).None?
    ensures FlattenSnapshotSchedule(ExpandSnapshotSchedule([b], c), c) == Success([ScheduleState(None, b.recurrence, "")])
  {
  }

  /** A start time survives expand and flatten exactly as written when it parses
      to a non-zero time that formats back to the same text. */
  lemma StartTimeSurvives(b: ScheduleBlock, c: Rfc3339)
    requires c.parse(b.startTime).Some? && !c.isZero(c.parse(b.startTime).value)
    requires c.format(c.parse(b.startTime).value) == b.startTime
    ensures FlattenSnapshotSchedule(ExpandSnapshotSchedule([b], c), c) == Success([ScheduleState(None, b.recurrence, b.startTime)])
  {
  }
}
