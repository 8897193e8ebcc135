/**
 * The event-object builder of calendar.js: it turns an array of loosely
 * typed plan options into Google Calendar v3 event resources, one per
 * option, in order. All-day plans get `date` fields in a fixed zone; timed
 * plans get `dateTime` fields in the zone the plan names, or a default one;
 * recurrence and reminders are carried over only when the plan supplies
 * them.
 */
module Calendar {
  import opened JsValues

  /** The zone written on both ends of an all-day event. */
  const AllDayTimeZone: string := "GMT+2"

  /** The zone of a timed event whose plan names none (or a falsy one). */
  const DefaultTimeZone: string := "Etc/GMT+2"

  /**
   * The properties of one plan object that the builder reads, each as the
   * JavaScript value found there (`Undefined` when the key is missing).
   */
  datatype Options = Options(
    summary: Value,
    location: Value,
    description: Value,
    start: Value,
    end: Value,
    allDay: Value,
    startTimeZone: Value,
    endTimeZone: Value,
    recurrence: Value,
    reminders: Value)

  /**
   * The `start` or `end` object of an event. It begins as `{}`; each key is
   * `None` until it is assigned, and `Some(v)` afterwards, where `v` may
   * itself be `Undefined` when the plan left the corresponding value out.
   */
  datatype EventTime = EventTime(date: Option<Value>, dateTime: Option<Value>, timeZone: Option<Value>)

  /** The `reminders` object of an event resource. */
  datatype ReminderSettings = ReminderSettings(useDefault: bool, overrides: Value)

  /**
   * An event resource. `summary`, `location` and `description` are always
   * present as keys; `recurrence` and `reminders` only when assigned.
   */
  datatype Event = Event(
    summary: Value,
    location: Value,
    description: Value,
    start: EventTime,
    end: EventTime,
    recurrence: Option<Value>,
    reminders: Option<ReminderSettings>)

  /** The `{}` that both `start` and `end` begin as. */
  const EmptyTime: EventTime := EventTime(None, None, None)

  /**
   * `receiver[name]` for a receiver that is not undefined or null. No
   * built-in prototype of a value this model represents defines the names
   * the builder reads, so every such value other than an object lacks them.
   * (`Symbol.prototype.description` exists, but symbols are not represented.)
   */
  function Property(receiver: Value, name: string): Value
    requires !Nullish(receiver)
  {
    if receiver.Object? && name in receiver.properties then receiver.properties[name] else Undefined
  }

  /**
   * Reads the plan properties of one element of the input array. The first
   * read is `options.summary`; on undefined or null it throws, so no event
   * is built from that element.
   */
  function ReadOptions(options: Value): (r: Result<Options, TypeError>)
    ensures r.Failure? <==> Nullish(options)
    ensures r.Failure? ==> r.error == TypeError(options, "summary")
  {
    if Nullish(options) then
      Failure(TypeError(options, "summary"))
    else
      Success(Options(
        Property(options, "summary"),
        Property(options, "location"),
        Property(options, "description"),
        Property(options, "start"),
        Property(options, "end"),
        Property(options, "allDay"),
        Property(options, "startTimeZone"),
        Property(options, "endTimeZone"),
        Property(options, "recurrence"),
        Property(options, "reminders")))
  }

  /** One end of the event: `date` for all-day plans, `dateTime` otherwise. */
  function TimeOf(allDay: bool, when: Value, zone: Value): EventTime {
    if allDay then
      EventTime(Some(when), None, Some(Str(AllDayTimeZone)))
    else
      EventTime(None, Some(when), Some(Or(zone, Str(DefaultTimeZone))))
  }

  /**
   * The event resource built from one plan. Each end carries exactly one of
   * `date` and `dateTime`, both ends choose the same one by the truthiness
   * of `allDay`, and each end carries a truthy time zone.
   */
  function EventOf(o: Options): (e: Event)
    ensures e.start.date.Some? != e.start.dateTime.Some?
    ensures e.end.date.Some? != e.end.dateTime.Some?
    ensures e.start.date.Some? == e.end.date.Some? == Truthy(o.allDay)
    ensures e.start.timeZone.Some? && Truthy(e.start.timeZone.value)
    ensures e.end.timeZone.Some? && Truthy(e.end.timeZone.value)
  {
    var allDay := Truthy(o.allDay);
    Event(
      o.summary,
      o.location,
      o.description,
      TimeOf(allDay, o.start, o.startTimeZone),
      TimeOf(allDay, o.end, o.endTimeZone),
      if Truthy(o.recurrence) then Some(o.recurrence) else None,
      if Truthy(o.reminders) then Some(ReminderSettings(false, o.reminders)) else None)
  }

  /**
   * What the builder promises of one event, property by property, stated
   * apart from how `EventOf` computes it.
   */
  ghost predicate Describes(e: Event, o: Options) {
    // the three copied keys, undefined ones included
    && e.summary == o.summary
    && e.location == o.location
    && e.description == o.description
    // all-day plans: dates in the fixed zone, no date-times
    && (Truthy(o.allDay) ==>
          && e.start == EventTime(Some(o.start), None, Some(Str(AllDayTimeZone)))
          && e.end == EventTime(Some(o.end), None, Some(Str(AllDayTimeZone))))
    // timed plans: date-times in the named zone when truthy, else the default
    && (!Truthy(o.allDay) ==>
          && e.start.date.None? && e.start.dateTime == Some(o.start)
          && e.end.date.None? && e.end.dateTime == Some(o.end)
          && e.start.timeZone == Some(if Truthy(o.startTimeZone) then o.startTimeZone else Str(DefaultTimeZone))
          && e.end.timeZone == Some(if Truthy(o.endTimeZone) then o.endTimeZone else Str(DefaultTimeZone)))
    // optional keys: present exactly when the plan's value is truthy
    && (e.recurrence.Some? <==> Truthy(o.recurrence))
    && (e.recurrence.Some? ==> e.recurrence.value == o.recurrence)
    && (e.reminders.Some? <==> Truthy(o.reminders))
    && (e.reminders.Some? ==> e.reminders.value == ReminderSettings(false, o.reminders))
  }

  /** `EventOf(o)` is the one and only event that `Describes` admits for `o`. */
  lemma EventOfIsDescribed(o: Options, e: Event)
    ensures Describes(e, o) <==> e == EventOf(o)
  {
  }

  /** The builder's callback on one element of the input array. */
  function BuildEvent(options: Value): (r: Result<Event, TypeError>)
    ensures r.Failure? <==> Nullish(options)
    ensures r.Failure? ==> r.error == TypeError(options, "summary")
    ensures r.Success? ==> Describes(r.value, ReadOptions(options).value)
  {
    match ReadOptions(options)
    case Failure(err) => Failure(err)
    case Success(o) =>
      EventOfIsDescribed(o, EventOf(o));
      Success(EventOf(o))
  }

  /**
   * The result of the whole call on the input array: every element's event
   * in order, or the exception of the first element that throws.
   */
  function EventObjects(optionsArray: seq<Value>): (r: Result<seq<Event>, TypeError>)
    ensures r.Success? <==> forall i :: 0 <= i < |optionsArray| ==> !Nullish(optionsArray[i])
    ensures r.Success? ==> |r.value| == |optionsArray|
    ensures r.Success? ==> forall i :: 0 <= i < |optionsArray| ==> BuildEvent(optionsArray[i]) == Success(r.value[i])
  {
    if optionsArray == [] then
      Success([])
    else
      var last := |optionsArray| - 1;
      match EventObjects(optionsArray[..last])
      case Failure(err) => Failure(err)
      case Success(events) =>
        match BuildEvent(optionsArray[last])
        case Failure(err) => Failure(err)
        case Success(event) => Success(events + [event])
  }

  /**
   * When the call throws, it throws the TypeError of reading `summary` from
   * the first undefined or null element, after every element before it was
   * built without error.
   */
  lemma {:induction false} FirstNullishThrows(optionsArray: seq<Value>)
    requires EventObjects(optionsArray).Failure?
    ensures exists i :: 0 <= i < |optionsArray| && Nullish(optionsArray[i])
                        && (forall j :: 0 <= j < i ==> !Nullish(optionsArray[j]))
                        && EventObjects(optionsArray).error == TypeError(optionsArray[i], "summary")
  {
    var last := |optionsArray| - 1;
    var prefix := optionsArray[..last];
    if EventObjects(prefix).Failure? {
      FirstNullishThrows(prefix);
      var i :| 0 <= i < |prefix| && Nullish(prefix[i])
               && (forall j :: 0 <= j < i ==> !Nullish(prefix[j]))
               && EventObjects(prefix).error == TypeError(prefix[i], "summary");
      assert optionsArray[i] == prefix[i];
      assert forall j :: 0 <= j < i ==> optionsArray[j] == prefix[j];
    } else {
      assert forall j :: 0 <= j < last ==> optionsArray[j] == prefix[j];
    }
  }

  /** Once a prefix of the input throws, the whole call throws the same error. */
  lemma {:induction false} FailureOfPrefix(optionsArray: seq<Value>, n: nat)
    requires n <= |optionsArray|
    requires EventObjects(optionsArray[..n]).Failure?
    ensures EventObjects(optionsArray) == EventObjects(optionsArray[..n])
    decreases |optionsArray| - n
  {
    if n < |optionsArray| {
      var last := |optionsArray| - 1;
      var prefix := optionsArray[..last];
      assert prefix[..n] == optionsArray[..n];
      FailureOfPrefix(prefix, n);
    } else {
      assert optionsArray[..n] == optionsArray;
    }
  }

  /**
   * The callback of the `forEach`: builds one event object by starting from
   * the copied keys and two empty time objects and then assigning one key at
   * a time.
   */
  method BuildEventObject(options: Value) returns (r: Result<Event, TypeError>)
    ensures r == BuildEvent(options)
  {
    if Nullish(options) {
      return Failure(TypeError(options, "summary"));
    }
    var event := Event(
      Property(options, "summary"),
      Property(options, "location"),
      Property(options, "description"),
      EmptyTime,
      EmptyTime,
      None,
      None);

    if Truthy(Property(options, "allDay")) {
      event := event.(start := event.start.(date := Some(Property(options, "start"))));
      event := event.(end := event.end.(date := Some(Property(options, "end"))));
      event := event.(start := event.start.(timeZone := Some(Str(AllDayTimeZone))));
      event := event.(end := event.end.(timeZone := Some(Str(AllDayTimeZone))));
    } else {
      event := event.(start := event.start.(dateTime := Some(Property(options, "start"))));
      event := event.(end := event.end.(dateTime := Some(Property(options, "end"))));
      event := event.(start := event.start.(timeZone := Some(Or(Property(options, "startTimeZone"), Str(DefaultTimeZone)))));
      event := event.(end := event.end.(timeZone := Some(Or(Property(options, "endTimeZone"), Str(DefaultTimeZone)))));
    }

    if Truthy(Property(options, "recurrence")) {
      event := event.(recurrence := Some(Property(options, "recurrence")));
    }

    if Truthy(Property(options, "reminders")) {
      event := event.(reminders := Some(ReminderSettings(false, Property(options, "reminders"))));
    }

    r := Success(event);
  }

  /**
   * `createEventObjects`: walks the input array in order, pushing each
   * built event onto an accumulator; an element that throws ends the call
   * with that exception. The input array is only read.
   */
  method CreateEventObjects(optionsArray: array<Value>) returns (r: Result<seq<Event>, TypeError>)
    ensures r == EventObjects(optionsArray[..])
  {
    var events: seq<Event> := [];
    var i := 0;
    while i < optionsArray.Length
      invariant 0 <= i <= optionsArray.Length
      invariant EventObjects(optionsArray[..i]) == Success(events)
    {
      var event := BuildEventObject(optionsArray[i]);
      assert optionsArray[..i + 1][..i] == optionsArray[..i];
      if event.Failure? {
        FailureOfPrefix(optionsArray[..], i + 1);
        assert optionsArray[..][..i + 1] == optionsArray[..i + 1];
        return Failure(event.error);
      }
      events := events + [event.value];
      i := i + 1;
    }
    assert optionsArray[..i] == optionsArray[..];
    r := Success(events);
  }

  /**
   * The plan as far as the event reveals it: `allDay` reduced to a boolean,
   * each zone replaced by the one the event gets (and dropped for all-day
   * plans, whose zone is fixed), and falsy recurrence and reminders dropped.
   */
  function Canonical(o: Options): Options {
    var allDay := Truthy(o.allDay);
    o.(allDay := Bool(allDay),
       startTimeZone := if allDay then Undefined else Or(o.startTimeZone, Str(DefaultTimeZone)),
       endTimeZone := if allDay then Undefined else Or(o.endTimeZone, Str(DefaultTimeZone)),
       recurrence := if Truthy(o.recurrence) then o.recurrence else Undefined,
       reminders := if Truthy(o.reminders) then o.reminders else Undefined)
  }

  /** The value an event's `start` or `end` object holds, whichever key it is under. */
  function TimeValue(t: EventTime): Value {
    match (t.date, t.dateTime)
    case (Some(v), _) => v
    case (None, Some(v)) => v
    case (None, None) => Undefined
  }

  /** Reads a plan back out of an event resource. */
  function OptionsOf(e: Event): Options {
    var allDay := e.start.date.Some?;
    Options(
      e.summary,
      e.location,
      e.description,
      TimeValue(e.start),
      TimeValue(e.end),
      Bool(allDay),
      if allDay || e.start.timeZone.None? then Undefined else e.start.timeZone.value,
      if allDay || e.end.timeZone.None? then Undefined else e.end.timeZone.value,
      match e.recurrence case Some(v) => v case None => Undefined,
      match e.reminders case Some(rs) => rs.overrides case None => Undefined)
  }

  /** Reading the plan back from its event gives the canonical plan. */
  lemma RecoverCanonical(o: Options)
    ensures OptionsOf(EventOf(o)) == Canonical(o)
  {
  }

  /** The builder depends on a plan only through its canonical form. */
  lemma EventOfCanonical(o: Options)
    ensures EventOf(Canonical(o)) == EventOf(o)
  {
  }

  /**
   * Two plans yield the same event exactly when their canonical forms
   * agree: no other difference between plans reaches the calendar.
   */
  lemma SameEventIff(o1: Options, o2: Options)
    ensures EventOf(o1) == EventOf(o2) <==> Canonical(o1) == Canonical(o2)
  {
  }

  /**
   * The plan the script at the end of calendar.js builds, with its two
   * dates already formatted.
   */
  const DemoPlan: Value := Object(map[
    "summary" := Str("Team Meeting - All Day"),
    "location" := Str("Online"),
    "description" := Str("Discuss project progress"),
    "start" := Str("2024-05-15"),
    "end" := Str("2024-05-16"),
    "allDay" := Bool(true)])

  /**
   * `DemoPlan` gives one all-day event dated 2024-05-15 to 2024-05-16 in the
   * fixed zone, without recurrence or reminders.
   */
  lemma DemoAllDayEvent()
    ensures EventObjects([DemoPlan]) == Success([Event(
              Str("Team Meeting - All Day"),
              Str("Online"),
              Str("Discuss project progress"),
              EventTime(Some(Str("2024-05-15")), None, Some(Str(AllDayTimeZone))),
              EventTime(Some(Str("2024-05-16")), None, Some(Str(AllDayTimeZone))),
              None,
              None)])
  {
    var plan := DemoPlan;
    assert "startTimeZone" !in plan.properties && "endTimeZone" !in plan.properties;
    assert "recurrence" !in plan.properties && "reminders" !in plan.properties;
    assert ReadOptions(plan).value == Options(
      Str("Team Meeting - All Day"), Str("Online"), Str("Discuss project progress"),
      Str("2024-05-15"), Str("2024-05-16"), Bool(true),
      Undefined, Undefined, Undefined, Undefined);
    var event := EventOf(ReadOptions(plan).value);
    assert [] + [event] == [event];
  }
}
