# Generic ftrace tracker and dataframe Span, in Dafny

This project models two parts of Perfetto's trace processor.

- **The generic ftrace tracker** (`GenericFtrace`, in `generic_ftrace_tracker.dfy`).
  - It keeps a registry of the proto descriptors that describe "generic" ftrace events. It checks each descriptor: a field numbered 32 or more, or a field type past `sint64`, drops the whole descriptor and counts one error. An accepted descriptor becomes a field table indexed by field number, and the first registration of an event id wins.
  - It recognises *kernel track events*. An event is a slice when it has integral `track_event_type` and string `slice_name` fields. Otherwise it is a counter when it has string `track_name` and integral `value` fields. A `context_*` field plays no part in that decision. It only chooses how the track is scoped: an integral `context_tgid` gives a process, an integral `context_cpu` gives a cpu, and any other `context_` field gives a custom scope.
  - When such an event arrives, it resolves the track name and the track's scope (thread, process or cpu). It then dispatches `'B'`, `'E'` and `'I'` slices and counter values. The parse stops at the first missing field or unknown slice type, and counts one format error however many fields are missing.

  The tracker is a class. Its methods update its maps and counters in place. Its calls into the process, track, slice and event trackers are appended to an action log.
- **`Span`** (`Dataframe`, in `span.dfy`). It is a view between two pointers, with `begin`, `end`, `size` and `empty`. Pointers are element addresses, and the `size_t` cast in `size()` is written out modulo 2^64.

`wrappers.dfy` holds the `Option` type used for map lookups.

Modelling choices:
- Field types use the numbering of `FieldDescriptorProto.Type` in protobuf's `descriptor.proto`: int64 = 3, uint64 = 4, string = 9, sint64 = 18.
- A field number is a signed 32-bit value cast to `uint32_t`, so a negative number wraps and is rejected. A negative field *type* passes the `> sint64` check, as in the code.
- The tracker's hash-map `Insert` keeps an existing entry.
- The slice type is cast to `char`, so only its low byte is compared with `'B'`, `'E'` and `'I'`.
- A payload field has two readings: the 64-bit integer and the string that the proto decoder gives for it. A cpu context is read as its low 32 bits.

## Model

| member | source | states |
|---|---|---|
| `GenericFtrace.GenericFtraceTracker.constructor` | src/trace_processor/importers/ftrace/generic_ftrace_tracker.cc:40-41 | A new tracker has no events, no templates, zero error counts and an empty action log, and satisfies the invariant. |
| `GenericFtrace.GenericFtraceTracker.AddDescriptor` | src/trace_processor/importers/ftrace/generic_ftrace_tracker.cc:45-82 | An already registered id changes nothing. A rejected descriptor raises the descriptor-error count by exactly one and adds no event and no template. An accepted one registers its field table and stores its template when it has one. The invariant (templates are exactly those of registered events, and tables have at most 32 slots) is kept. |
| `GenericFtrace.GenericFtraceTracker.GetEvent` | src/trace_processor/importers/ftrace/generic_ftrace_tracker.cc:84-87 | Finds an event exactly when its id is registered. The event found has at most 32 slots, and its template is stored when it has one. |
| `GenericFtrace.GenericFtraceTracker.MatchTrackEventTemplate` | src/trace_processor/importers/ftrace/generic_ftrace_tracker.cc:89-141 | The loop over field ids 1 to len-1 computes the scan of the table. The template is stored (insert-if-absent) exactly when the event classifies as a slice or a counter, and nothing is stored otherwise. |
| `GenericFtrace.GenericFtraceTracker.MaybeParseAsTrackEvent` | src/trace_processor/importers/ftrace/generic_ftrace_tracker.cc:216-372 | An id without a template changes nothing. Otherwise the calls of `ParseTrackEvent` are appended to the log, and the format-error count rises by one exactly when it reports an error. Registry and descriptor errors are untouched. |
| `GenericFtrace.FieldId` | src/trace_processor/importers/ftrace/generic_ftrace_tracker.cc:58 | The unsigned cast of a signed 32-bit field number is below 2^32. It equals the number when the number is not negative, and is the number plus 2^32 when it is. |
| `GenericFtrace.NegativeNumberRejected` | src/trace_processor/importers/ftrace/generic_ftrace_tracker.cc:58-64 | A negative 32-bit field number casts to at least 2^31, so its field is rejected. |
| `GenericFtrace.Grow` | src/trace_processor/importers/ftrace/generic_ftrace_tracker.cc:72-74 | Growing keeps the old slots and fills the new ones with the default field. |
| `GenericFtrace.PlaceShape` | src/trace_processor/importers/ftrace/generic_ftrace_tracker.cc:72-78 | One loop step grows the table to id+1 when needed, writes the field's name and type to that slot, and leaves every other slot as it was or default. |
| `GenericFtrace.FieldTableLength` | src/trace_processor/importers/ftrace/generic_ftrace_tracker.cc:72-74 | The table's length is the largest field id + 1, and 0 exactly when there are no fields. |
| `GenericFtrace.FieldTableSlots` | src/trace_processor/importers/ftrace/generic_ftrace_tracker.cc:72-78 | The slot of an id holds the name and type of the last field with that id. A slot that no field names holds the default. |
| `GenericFtrace.AcceptedTableBounded` | src/trace_processor/importers/ftrace/generic_ftrace_tracker.cc:36-38 | The table of an accepted descriptor has at most 32 slots. |
| `GenericFtrace.MatchFieldRole` | src/trace_processor/importers/ftrace/generic_ftrace_tracker.cc:98-112 | A scan step sets a role id exactly when the field has both the role's name and its type, and leaves other roles and the event name alone. |
| `GenericFtrace.ContextNamesPrefixed` | src/trace_processor/importers/ftrace/generic_ftrace_tracker.cc:114-128 | `context_tgid` and `context_cpu` both carry the `context_` prefix. So the three-way test records every prefixed field. An integral `context_tgid` gives Tgid, an integral `context_cpu` gives Cpu, and a non-integral one gives Custom. |
| `GenericFtrace.ScanRole` | src/trace_processor/importers/ftrace/generic_ftrace_tracker.cc:93-112 | Each role id is 0 when no field among ids 1..n-1 plays the role. Otherwise it is the largest such id, so a later match overwrites an earlier one. |
| `GenericFtrace.ScanContext` | src/trace_processor/importers/ftrace/generic_ftrace_tracker.cc:114-128 | The context is thread scoping with id 0 when no field among ids 1..n-1 is `context_`-prefixed. Otherwise it is the last such field, with the context that field gives. The scanned record carries the event's own name. |
| `GenericFtrace.ScanIgnoresSlotZero` | src/trace_processor/importers/ftrace/generic_ftrace_tracker.cc:93 | Replacing slot 0 of the table does not change the scan. |
| `GenericFtrace.TemplateClassification` | src/trace_processor/importers/ftrace/generic_ftrace_tracker.cc:131-140 | An event is a slice iff it declares both slice fields, and a slice wins over a counter. It is a counter iff it is not a slice and declares a track name and a value. Otherwise it has no template. The ids stored are slots of the table, and the name is the event's. |
| `GenericFtrace.SliceTypeIdDistinct` | src/trace_processor/importers/ftrace/generic_ftrace_tracker.cc:98-128 | In a slice template the slice-type field is neither the track-name field nor the context field. |
| `GenericFtrace.CharCode` | src/trace_processor/importers/ftrace/generic_ftrace_tracker.cc:339 | The `char` cast of the slice type is a byte, and equal to the value when the value is a byte. |
| `GenericFtrace.Low32` | src/trace_processor/importers/ftrace/generic_ftrace_tracker.cc:319 | The `uint32` reading of the cpu is below 2^32, and equal to the value when the value is in range. |
| `GenericFtrace.LookupTrack` | src/trace_processor/importers/ftrace/generic_ftrace_tracker.cc:272-327 | The track lookup fails exactly for a process or cpu context whose field is missing from the payload. It never makes a slice or counter call. |
| `GenericFtrace.DataAction` | src/trace_processor/importers/ftrace/generic_ftrace_tracker.cc:330-371 | When the data step succeeds, it gives one slice or counter call at the event's timestamp. |
| `GenericFtrace.ParseErrorXorData` | src/trace_processor/importers/ftrace/generic_ftrace_tracker.cc:260-371 | A parse either reports a format error and makes no slice or counter call, or makes exactly one, as its last call. |
| `GenericFtrace.MissingTrackNameIsFormatError` | src/trace_processor/importers/ftrace/generic_ftrace_tracker.cc:262-268 | A declared track-name field missing from the payload is a format error with no call at all. |
| `GenericFtrace.TrackNamedAfterEventOrField` | src/trace_processor/importers/ftrace/generic_ftrace_tracker.cc:260-270 | Every interned track is named after the event, or after the payload's track-name field when the template declares one. |
| `GenericFtrace.ThreadScopedTrack` | src/trace_processor/importers/ftrace/generic_ftrace_tracker.cc:276-286 | Thread scoping first interns the thread and then the track keyed by the thread and the track name, before the slice or counter fields are checked. |
| `GenericFtrace.ProcessScopedTrack` | src/trace_processor/importers/ftrace/generic_ftrace_tracker.cc:287-306 | A tgid context overrides the thread scoping. The process named by the context field's integer is interned first, then the track keyed by that process and the track name. |
| `GenericFtrace.CpuScopedTrack` | src/trace_processor/importers/ftrace/generic_ftrace_tracker.cc:307-321 | A cpu context overrides the thread scoping. The first call interns the track keyed by the low 32 bits of the context field's integer and the track name, and no thread or process is interned. |
| `GenericFtrace.MissingContextIsFormatError` | src/trace_processor/importers/ftrace/generic_ftrace_tracker.cc:287-313 | A process or cpu context field missing from the payload is a format error with no call at all. |
| `GenericFtrace.SliceDispatch` | src/trace_processor/importers/ftrace/generic_ftrace_tracker.cc:331-361 | 'B' begins a named slice, 'E' ends one, and 'I' is a named instant. Any other character, or a missing slice field, is a format error after the track lookup calls, with no slice call. |
| `GenericFtrace.SliceTypeTruncated` | src/trace_processor/importers/ftrace/generic_ftrace_tracker.cc:339 | Changing the slice type by a multiple of 256 does not change the parse, because only its low byte counts. |
| `GenericFtrace.CounterDispatch` | src/trace_processor/importers/ftrace/generic_ftrace_tracker.cc:362-371 | A counter pushes the value field's integer on its track. A missing value is a format error with no counter call. |
| `Dataframe.Span.Default` | src/trace_processor/dataframe/span.h:34 | The default span has both endpoints null, is empty and has size 0. |
| `Dataframe.Span.Size` | src/trace_processor/dataframe/span.h:39 | The size is a `size_t`. It is e - b when b <= e, and the wrapped-around difference when the span is reversed. |
| `Dataframe.ConstructorKeepsEndpoints` | src/trace_processor/dataframe/span.h:35-40 | The two-argument constructor keeps its endpoints, and `begin`/`end` return them. The span is empty iff they are equal. |
| `Dataframe.EmptyIffSizeZero` | src/trace_processor/dataframe/span.h:39-40 | Under b <= e, `empty()` holds iff `size() == 0`. |
| `Dataframe.ReversedSpanSize` | src/trace_processor/dataframe/span.h:39-40 | When e < b, the span is not empty and its size is 2^64 - (b - e), which is not 0. This is why the type needs b <= e. |
| `Dataframe.ElementsCount` | src/trace_processor/dataframe/span.h:24-39 | A well-formed span over a memory views exactly `size()` elements. Element i is at address b + i, and the view is empty iff the span is. |

## Left out

- Protozero decoding of `DescriptorProto`, `FieldDescriptorProto` and the event payload. A descriptor is a name plus (number, name, type) triples in wire order. A payload is a map from field id to the field's integer and string readings.
- String interning and `GetString`. Names are strings, because interning is injective.
- What the process, track, slice and event trackers do. Their calls are entries in an action log. A track id is the key the track is interned under: kind, scope and name. A thread or process scope is keyed by the raw tid or tgid, because the mapping to unique thread and process ids is not modelled.
- The `static_cast<double>` of a counter value, which is floating point. The log records the integer value.
- `MaybeParseAsTrackEvent` for a `context_*` field that is neither an integral tgid nor cpu. The code leaves the track id invalid and relies on a debug check. The model follows the release build: no track is interned and the slice or counter call carries the invalid track. The debug abort is not modelled.
- The default values of `GenericField` and `KernelTrackEvent` come from a header that is not part of this model. They are taken as value-initialised: an empty name with the unknown type, and zero ids with thread context.
- Integer widths: event ids, the tid and the timestamp are unbounded integers. Their 32-bit and 64-bit widths are not modelled, because no operation depends on them wrapping.
- Logging macros.
- `src/trace_processor/dataframe/index.h`: it declares two private fields and no operations.
