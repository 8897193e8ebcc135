# CalendarMe event-object builder in Dafny

This project models `createEventObjects` from `calendar.js` of CalendarMe-UI,
a chat assistant that turns plans into Google Calendar events. The function
receives an array of loosely typed plan objects and returns one Google
Calendar v3 event resource per plan, in input order:

- `summary`, `location` and `description` are copied as they are, undefined
  ones included.
- An all-day plan (truthy `allDay`) gets `start.date` and `end.date`, both in
  the fixed zone `GMT+2`.
- Any other plan gets `start.dateTime` and `end.dateTime`. Each end's zone is
  the plan's `startTimeZone` or `endTimeZone` when that value is truthy, else
  `Etc/GMT+2`.
- `recurrence` is copied, and `reminders` is wrapped as
  `{useDefault: false, overrides: ...}`, only when the plan's value is truthy.

`js_values.dfy` (module `JsValues`) holds the JavaScript values a plan can
contain and the ToBoolean rule behind `if (x)` and `||`. Its `Truthy` is
the test at calendar.js:55, 68 and 73 and inside the `||` at calendar.js:63-64.
In `calendar.dfy`, `Property` is each property read `options.<name>` at
calendar.js:46-48 and 55-76. `calendar.dfy`
(module `Calendar`) holds the event datatypes and the builder:

- `EventOf` is the pure per-plan definition.
- `Describes` is the same promise stated property by property.
- `BuildEventObject` is the callback of the `forEach`. It starts from
  `{start: {}, end: {}}` and assigns one key at a time.
- `CreateEventObjects` is the loop over the input array. It pushes onto an
  accumulator and is proved equal to the specification `EventObjects`.

A plan element that is `undefined` or `null` makes `options.summary` throw a
TypeError. The model keeps this error path: the whole call ends with the
error of the first such element.

The builder copies `start` and `end` unchanged: it neither truncates a value
at `T` nor appends an offset. It applies no colour and no completion marker,
and it always writes the `location` key, even when the plan has none.

## Model

| member | source | states |
|---|---|---|
| `JsValues.Or` | calendar.js:63-64 | The logical OR `a or b` of lines 63-64 yields one of its operands. The result is truthy exactly when one operand is, and the left operand wins when it is truthy. |
| `Calendar.ReadOptions` | calendar.js:44-48 | Reading a plan element fails exactly when the element is undefined or null. The error is then the TypeError of reading `summary` from it. |
| `Calendar.EventOf` | calendar.js:50-65 | Each of `start` and `end` carries exactly one of `date` and `dateTime`. Both ends pick `date` exactly when `allDay` is truthy. Both ends always carry a truthy time zone. |
| `Calendar.EventOfIsDescribed` | calendar.js:45-78 | An event meets the property-by-property promise for a plan iff it is `EventOf` of that plan. The promise covers: copied summary, location and description; all-day dates in `GMT+2` with no date-times; timed date-times with the named zone when truthy, else `Etc/GMT+2` (so an absent or `""` zone falls back), with no dates; recurrence present iff truthy and then identical; reminders present iff truthy and then `{useDefault: false, overrides}`. |
| `Calendar.BuildEvent` | calendar.js:44-78 | One element's callback fails iff the element is undefined or null, with that element's TypeError. Otherwise its event meets the property-by-property promise for the plan read from the element. |
| `Calendar.EventObjects` | calendar.js:39-85 | The call succeeds iff no element is undefined or null. On success it returns exactly one event per element, in input order, and event i is the one built from element i. |
| `Calendar.FirstNullishThrows` | calendar.js:44-46 | When the call fails, its error is the TypeError of the first undefined or null element, and every earlier element was not undefined or null. |
| `Calendar.FailureOfPrefix` | calendar.js:44-82 | Once the loop fails on a prefix of the input, the whole call fails with that same error. No later element changes the outcome. |
| `Calendar.BuildEventObject` | calendar.js:45-78 | Building one event field by field, from `{}` time objects through the branch assignments and the optional keys, gives exactly the per-element specification `BuildEvent`. |
| `Calendar.CreateEventObjects` | calendar.js:39-85 | The `forEach`/`push` loop over the input array returns exactly `EventObjects` of the array's contents: the in-order list of events, or the first element's TypeError. The method has no `modifies` clause, so the input array and its plans are only read. |
| `Calendar.RecoverCanonical` | calendar.js:45-78 | Reading a plan back from its event gives the plan's canonical form. That form has `allDay` as a boolean, the effective zone of a timed plan, no zone for an all-day plan, and falsy recurrence and reminders dropped. |
| `Calendar.EventOfCanonical` | calendar.js:45-78 | The builder gives the same event for a plan and for its canonical form. |
| `Calendar.SameEventIff` | calendar.js:45-78 | Two plans give the same event iff their canonical forms are equal. So truthiness of `allDay`, `recurrence` and `reminders`, and zone defaulting, are the only information the builder drops. |
| `Calendar.DemoAllDayEvent` | calendar.js:155-163 | The script's all-day plan gives one event: dates 2024-05-15 to 2024-05-16 in `GMT+2`, with summary, location and description copied, and no recurrence or reminders. |

## Left out

- `createEvents` (calendar.js:15-37) is not modelled: it makes concurrent asynchronous insert calls to the Google Calendar API through a client library that is not visible. In the source, a failed insert becomes `null` without stopping the others.
- `loadSavedCredentialsIfExist`, `saveCredentials` and `authorize` (calendar.js:92-147) are not modelled: they are file I/O, JSON parsing of credential files, and an external OAuth flow.
- The script at calendar.js:149-168 depends on `Date` parsing, `toISOString` and live API calls. Only the plan it builds is modelled, in `DemoAllDayEvent`, with its two dates given already formatted.
- interaction.js is not modelled: it is a DOM key handler that appends a paragraph to the chat history.
- The colour resolver, the JSON extraction and repair, the conversation state machine and the completion marker are not part of this model.
- Property reads are plain lookups of an object's own keys. Getters, proxies and inherited keys are not modelled. No built-in prototype of a value this model represents defines these names. `Symbol.prototype.description` exists, but symbols are not represented.
- The input is an array of values. A non-array argument is not modelled, and neither are holes in a sparse array, which `forEach` skips.
- Numbers are exact finite values plus `NaN`. Infinity, BigInt, symbols and functions are not represented. As property values of a plan, all of them would only be copied through or tested for truthiness. Such a value as an element of the input array, read from at calendar.js:46-76, is not modelled.
- `Calendar.BuildEventObject` and `Calendar.CreateEventObjects` build values, not shared objects. In the source, `event.recurrence` and `reminders.overrides` alias the plan's own arrays; the model keeps equal values but not object identity.
- How the calendar client serializes keys whose value is `undefined` is not modelled. The library is not visible.
