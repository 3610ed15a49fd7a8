/** The generic ftrace tracker: a registry of the proto descriptors that
    describe "generic" ftrace events, and the recogniser and dispatcher of
    kernel track events (slices and counters emitted from tracepoints whose
    field names follow a fixed template).

    Strings are compared by value (the string pool's interning is
    injective, so comparing interned ids is comparing strings). A decoded
    descriptor is a sequence of (number, name, type) triples; an event's
    payload is a partial map from field id to the field's readings. The
    calls the tracker makes into the process, track, slice and event
    trackers are recorded, in order, in an action log. */
module GenericFtrace {

  import opened Wrappers

  /** No accepted descriptor has a field numbered 32 or more. */
  const MaxAllowedFields: nat := 32

  /** Number of distinct `uint32_t` values. */
  const Uint32Limit: int := 0x1_0000_0000

  // Field types, numbered as `FieldDescriptorProto.Type` in protobuf's
  // descriptor.proto (0 is the unknown type).
  const TypeUnknown: int := 0
  const TypeInt64: int := 3
  const TypeUint64: int := 4
  const TypeString: int := 9
  const TypeSint64: int := 18

  // ---------------------------------------------------------------------
  // Descriptors and the per-event field table

  /** A signed 32-bit integer, as the proto decoder reads `int32` fields. */
  type Int32 = x: int | -0x8000_0000 <= x < 0x8000_0000

  /** One `FieldDescriptorProto`: its signed 32-bit `number`, its name and
      its raw `type`. */
  datatype FieldDescriptor = FieldDescriptor(number: Int32, name: string, fieldType: Int32)

  /** One `DescriptorProto`: the event's name and its fields in wire order. */
  datatype Descriptor = Descriptor(name: string, fields: seq<FieldDescriptor>)

  datatype GenericField = GenericField(name: string, fieldType: int)

  /** The value a slot of the field table holds until a field is put in it. */
  const DefaultField: GenericField := GenericField("", TypeUnknown)

  /** A registered event: its name and its field table, indexed by field
      number. */
  datatype GenericEvent = GenericEvent(name: string, fields: seq<GenericField>)

  /** `static_cast<uint32_t>` of a field number. */
  function FieldId(number: Int32): (id: nat)
    ensures id < Uint32Limit
    ensures 0 <= number ==> id == number
    ensures number < 0 ==> id == number + Uint32Limit
  {
    number % Uint32Limit
  }

  /** A field the descriptor check lets through. */
  predicate FieldAccepted(f: FieldDescriptor) {
    FieldId(f.number) < MaxAllowedFields && f.fieldType <= TypeSint64
  }

  /** A descriptor is accepted only if every one of its fields is. */
  predicate DescriptorAccepted(fs: seq<FieldDescriptor>) {
    forall j :: 0 <= j < |fs| ==> FieldAccepted(fs[j])
  }

  /** A negative 32-bit field number wraps to a huge unsigned id, so the
      field (and with it the descriptor) is rejected. */
  lemma NegativeNumberRejected(f: FieldDescriptor)
    requires f.number < 0
    ensures FieldId(f.number) >= 0x8000_0000 && !FieldAccepted(f)
  {
  }

  /** `vector::resize` growing `t` to `n` slots. */
  function Grow(t: seq<GenericField>, n: nat): (r: seq<GenericField>)
    requires |t| <= n
    ensures |r| == n
    ensures forall k :: 0 <= k < |t| ==> r[k] == t[k]
    ensures forall k :: |t| <= k < n ==> r[k] == DefaultField
  {
    t + seq(n - |t|, _ => DefaultField)
  }

  /** One iteration of the descriptor loop: grow the table to hold the
      field's id, then overwrite that slot with the field's name and type. */
  function Place(t: seq<GenericField>, f: FieldDescriptor): seq<GenericField> {
    var id := FieldId(f.number);
    var grown := if id >= |t| then Grow(t, id + 1) else t;
    grown[id := GenericField(f.name, f.fieldType)]
  }

  /** The field table the descriptor loop builds from `fs`. */
  function FieldTable(fs: seq<FieldDescriptor>): seq<GenericField>
    decreases |fs|
  {
    if fs == [] then [] else Place(FieldTable(fs[..|fs| - 1]), fs[|fs| - 1])
  }

  /** No field of `fs` is numbered `n`. */
  predicate Unmentioned(fs: seq<FieldDescriptor>, n: nat) {
    forall j :: 0 <= j < |fs| ==> FieldId(fs[j].number) != n
  }

  /** `fs[j]` is the last field of `fs` with its number. */
  predicate LastNumbered(fs: seq<FieldDescriptor>, j: nat)
    requires j < |fs|
  {
    forall k :: j < k < |fs| ==> FieldId(fs[k].number) != FieldId(fs[j].number)
  }

  /** One placement grows the table to cover the field's id and changes
      only that slot. */
  lemma PlaceShape(t: seq<GenericField>, f: FieldDescriptor)
    ensures var id := FieldId(f.number);
      |Place(t, f)| == (if id >= |t| then id + 1 else |t|) &&
      Place(t, f)[id] == GenericField(f.name, f.fieldType) &&
      forall k :: 0 <= k < |Place(t, f)| && k != id ==>
        Place(t, f)[k] == if k < |t| then t[k] else DefaultField
  {
  }

  /** The table is one slot longer than the largest field id, and empty
      when there are no fields. */
  lemma {:induction false} FieldTableLength(fs: seq<FieldDescriptor>)
    ensures forall j :: 0 <= j < |fs| ==> FieldId(fs[j].number) < |FieldTable(fs)|
    ensures |FieldTable(fs)| == 0 <==> fs == []
    ensures fs != [] ==> exists j :: 0 <= j < |fs| && FieldId(fs[j].number) == |FieldTable(fs)| - 1
    decreases |fs|
  {
    if fs != [] {
      var p, last := fs[..|fs| - 1], fs[|fs| - 1];
      FieldTableLength(p);
      PlaceShape(FieldTable(p), last);
      var t0, t := FieldTable(p), FieldTable(fs);
      assert t == Place(t0, last);
      assert forall j :: 0 <= j < |p| ==> p[j] == fs[j];
      if FieldId(last.number) + 1 < |t0| {
        var j :| 0 <= j < |p| && FieldId(p[j].number) == |t0| - 1;
        assert FieldId(fs[j].number) == |t| - 1;
      } else {
        assert FieldId(fs[|fs| - 1].number) == |t| - 1;
      }
    }
  }

  /** The slot of each id holds the last field with that id, and a slot no
      field names holds the default. */
  lemma {:induction false} FieldTableSlots(fs: seq<FieldDescriptor>)
    ensures forall n: nat :: n < |FieldTable(fs)| && Unmentioned(fs, n) ==> FieldTable(fs)[n] == DefaultField
    ensures forall j :: 0 <= j < |fs| && LastNumbered(fs, j) ==>
              FieldId(fs[j].number) < |FieldTable(fs)| &&
              FieldTable(fs)[FieldId(fs[j].number)] == GenericField(fs[j].name, fs[j].fieldType)
    decreases |fs|
  {
    FieldTableLength(fs);
    if fs != [] {
      var p, last := fs[..|fs| - 1], fs[|fs| - 1];
      FieldTableSlots(p);
      PlaceShape(FieldTable(p), last);
      var t0, t := FieldTable(p), FieldTable(fs);
      assert t == Place(t0, last);
      forall n: nat | n < |t| && Unmentioned(fs, n)
        ensures t[n] == DefaultField
      {
        assert FieldId(fs[|fs| - 1].number) != n;
        forall j | 0 <= j < |p| ensures FieldId(p[j].number) != n {
          assert p[j] == fs[j];
        }
      }
      forall j | 0 <= j < |fs| && LastNumbered(fs, j)
        ensures t[FieldId(fs[j].number)] == GenericField(fs[j].name, fs[j].fieldType)
      {
        if j < |p| {
          assert FieldId(fs[|fs| - 1].number) != FieldId(fs[j].number);
          forall k | j < k < |p| ensures FieldId(p[k].number) != FieldId(p[j].number) {
            assert p[k] == fs[k] && p[j] == fs[j];
          }
          assert LastNumbered(p, j);
        }
      }
    }
  }

  /** An accepted descriptor's table has at most `MaxAllowedFields` slots. */
  lemma AcceptedTableBounded(fs: seq<FieldDescriptor>)
    requires DescriptorAccepted(fs)
    ensures |FieldTable(fs)| <= MaxAllowedFields
  {
    FieldTableLength(fs);
    if fs != [] {
      var j :| 0 <= j < |fs| && FieldId(fs[j].number) == |FieldTable(fs)| - 1;
      assert FieldAccepted(fs[j]);
    }
  }

  // ---------------------------------------------------------------------
  // Kernel track event template

  /** How the track of a kernel track event is scoped: by the emitting
      thread (the default), by a process or cpu named in the payload, or by
      some other `context_` field. */
  datatype ContextType = Tid | Tgid | Cpu | Custom

  datatype EventKind = Slice | Counter

  /** The roles the template assigns to an event's field ids; 0 means "no
      such field". */
  datatype KernelTrackEvent = KernelTrackEvent(
    eventName: string,
    sliceTypeFieldId: nat,
    sliceNameFieldId: nat,
    trackNameFieldId: nat,
    valueFieldId: nat,
    contextFieldId: nat,
    contextType: ContextType,
    kind: EventKind)

  /** The zero-initialised record the template scan starts from. */
  function Blank(eventName: string): KernelTrackEvent {
    KernelTrackEvent(eventName, 0, 0, 0, 0, 0, Tid, Slice)
  }

  predicate IsIntegral(fieldType: int) {
    fieldType == TypeInt64 || fieldType == TypeUint64
  }

  predicate StartsWith(s: string, prefix: string) {
    |prefix| <= |s| && s[..|prefix|] == prefix
  }

  datatype Role = SliceTypeRole | SliceNameRole | TrackNameRole | ValueRole

  /** Field `f` has the name and the type of role `r`. */
  predicate PlaysRole(f: GenericField, r: Role) {
    match r
    case SliceTypeRole => f.name == "track_event_type" && IsIntegral(f.fieldType)
    case SliceNameRole => f.name == "slice_name" && f.fieldType == TypeString
    case TrackNameRole => f.name == "track_name" && f.fieldType == TypeString
    case ValueRole => f.name == "value" && IsIntegral(f.fieldType)
  }

  function RoleId(info: KernelTrackEvent, r: Role): nat {
    match r
    case SliceTypeRole => info.sliceTypeFieldId
    case SliceNameRole => info.sliceNameFieldId
    case TrackNameRole => info.trackNameFieldId
    case ValueRole => info.valueFieldId
  }

  /** A field whose name marks it as giving the track's context. */
  predicate IsContextField(f: GenericField) {
    StartsWith(f.name, "context_")
  }

  /** The context a context field gives. */
  function ContextOf(f: GenericField): ContextType {
    if f.name == "context_tgid" && IsIntegral(f.fieldType) then Tgid
    else if f.name == "context_cpu" && IsIntegral(f.fieldType) then Cpu
    else Custom
  }

  /** One iteration of the template scan, over field `f` with id `id`: the
      first role the field plays (at most one, since the role names differ)
      takes its id, and a context field takes the context. */
  function MatchField(info: KernelTrackEvent, id: nat, f: GenericField): KernelTrackEvent {
    var withRole :=
      if PlaysRole(f, SliceTypeRole) then info.(sliceTypeFieldId := id)
      else if PlaysRole(f, SliceNameRole) then info.(sliceNameFieldId := id)
      else if PlaysRole(f, TrackNameRole) then info.(trackNameFieldId := id)
      else if PlaysRole(f, ValueRole) then info.(valueFieldId := id)
      else info;
    if IsContextField(f) then withRole.(contextFieldId := id, contextType := ContextOf(f))
    else withRole
  }

  /** The template record after scanning field ids 1 to n - 1 of `e`. */
  function ScanFields(e: GenericEvent, n: nat): KernelTrackEvent
    requires n <= |e.fields|
  {
    if n <= 1 then Blank(e.name) else MatchField(ScanFields(e, n - 1), n - 1, e.fields[n - 1])
  }

  /** `MatchTrackEventTemplate`'s decision: a slice if it has both slice
      fields, else a counter if it has a track name and a value, else not a
      track event. */
  function Template(e: GenericEvent): Option<KernelTrackEvent> {
    var info := ScanFields(e, |e.fields|);
    if info.sliceTypeFieldId != 0 && info.sliceNameFieldId != 0 then Some(info.(kind := Slice))
    else if info.trackNameFieldId != 0 && info.valueFieldId != 0 then Some(info.(kind := Counter))
    else None
  }

  /** A scan step sets a role's id exactly when the field plays that role,
      and leaves every other role alone. */
  lemma MatchFieldRole(info: KernelTrackEvent, id: nat, f: GenericField, r: Role)
    ensures RoleId(MatchField(info, id, f), r) == if PlaysRole(f, r) then id else RoleId(info, r)
    ensures MatchField(info, id, f).eventName == info.eventName
  {
    assert "slice_name"[0] != "track_name"[0];
  }

  /** Both well-known context names carry the `context_` prefix, so the
      source's three-way test (integral tgid, integral cpu, any other
      prefixed name) records every prefixed field, and the last one wins. */
  lemma ContextNamesPrefixed(t: int)
    ensures IsContextField(GenericField("context_tgid", t))
    ensures IsContextField(GenericField("context_cpu", t))
    ensures ContextOf(GenericField("context_tgid", t)) == if IsIntegral(t) then Tgid else Custom
    ensures ContextOf(GenericField("context_cpu", t)) == if IsIntegral(t) then Cpu else Custom
  {
    assert "context_tgid"[..8] == "context_";
    assert "context_cpu"[..8] == "context_";
    assert "context_tgid" != "context_cpu";
  }

  /** Each role id is 0 when no scanned field plays the role, and otherwise
      the largest scanned id whose field plays it: a later match overwrites
      an earlier one. */
  lemma {:induction false} ScanRole(e: GenericEvent, n: nat, r: Role)
    requires n <= |e.fields|
    ensures var id := RoleId(ScanFields(e, n), r);
      (id == 0 && forall k :: 1 <= k < n ==> !PlaysRole(e.fields[k], r)) ||
      (1 <= id < n && PlaysRole(e.fields[id], r) && forall k :: id < k < n ==> !PlaysRole(e.fields[k], r))
  {
    if n > 1 {
      ScanRole(e, n - 1, r);
      MatchFieldRole(ScanFields(e, n - 1), n - 1, e.fields[n - 1], r);
    }
  }

  /** The context id is 0, with the default thread scoping, when no scanned
      field has the `context_` prefix; otherwise it is the largest scanned
      id that does, and the context type is the one that field gives. */
  lemma {:induction false} ScanContext(e: GenericEvent, n: nat)
    requires n <= |e.fields|
    ensures var info := ScanFields(e, n);
      (info.contextFieldId == 0 && info.contextType == Tid &&
        forall k :: 1 <= k < n ==> !IsContextField(e.fields[k])) ||
      (1 <= info.contextFieldId < n && IsContextField(e.fields[info.contextFieldId]) &&
        info.contextType == ContextOf(e.fields[info.contextFieldId]) &&
        forall k :: info.contextFieldId < k < n ==> !IsContextField(e.fields[k]))
    ensures ScanFields(e, n).eventName == e.name
  {
    if n > 1 {
      ScanContext(e, n - 1);
    }
  }

  /** The scan never looks at slot 0 of the table. */
  lemma {:induction false} ScanIgnoresSlotZero(e: GenericEvent, x: GenericField, n: nat)
    requires 0 < |e.fields| && n <= |e.fields|
    ensures ScanFields(e.(fields := e.fields[0 := x]), n) == ScanFields(e, n)
  {
    if n > 1 {
      ScanIgnoresSlotZero(e, x, n - 1);
    }
  }

  /** Some field among ids 1 to |fields| - 1 plays role `r`. */
  predicate HasRole(e: GenericEvent, r: Role) {
    exists k :: 1 <= k < |e.fields| && PlaysRole(e.fields[k], r)
  }

  /** The classification in terms of the fields the event declares: a slice
      needs both slice fields and wins over a counter; a counter needs a
      track name and a value; every stored id is a real slot of the table. */
  lemma TemplateClassification(e: GenericEvent)
    ensures (Template(e).Some? && Template(e).value.kind == Slice) <==>
              HasRole(e, SliceTypeRole) && HasRole(e, SliceNameRole)
    ensures (Template(e).Some? && Template(e).value.kind == Counter) <==>
              !(HasRole(e, SliceTypeRole) && HasRole(e, SliceNameRole)) &&
              HasRole(e, TrackNameRole) && HasRole(e, ValueRole)
    ensures Template(e).Some? ==>
              var info := Template(e).value;
              info.eventName == e.name &&
              info.sliceTypeFieldId < |e.fields| && info.sliceNameFieldId < |e.fields| &&
              info.trackNameFieldId < |e.fields| && info.valueFieldId < |e.fields| &&
              info.contextFieldId < |e.fields|
  {
    var n := |e.fields|;
    ScanRole(e, n, SliceTypeRole);
    ScanRole(e, n, SliceNameRole);
    ScanRole(e, n, TrackNameRole);
    ScanRole(e, n, ValueRole);
    ScanContext(e, n);
  }

  /** In a slice template the slice-type field is neither the track-name
      field nor the context field: one slot has one name. */
  lemma SliceTypeIdDistinct(e: GenericEvent)
    requires Template(e).Some? && Template(e).value.kind == Slice
    ensures Template(e).value.sliceTypeFieldId != Template(e).value.trackNameFieldId
    ensures Template(e).value.sliceTypeFieldId != Template(e).value.contextFieldId
  {
    var n := |e.fields|;
    ScanRole(e, n, SliceTypeRole);
    ScanRole(e, n, TrackNameRole);
    ScanContext(e, n);
    var k := Template(e).value.sliceTypeFieldId;
    assert PlaysRole(e.fields[k], SliceTypeRole);
    assert "track_event_type"[..8] != "context_" by {
      assert "track_event_type"[0] != "context_"[0];
    }
  }

  // ---------------------------------------------------------------------
  // Parsing an event as a kernel track event

  /** One payload field, as the proto decoder reads it as a 64-bit integer
      and as a string. */
  datatype PayloadField = PayloadField(asInt64: int, asString: string)

  /** An event's payload: the fields present, by field id. */
  type Payload = map<nat, PayloadField>

  /** The dimension a track is keyed on besides its name. */
  datatype Scope = ThreadScope(tid: nat) | ProcessScope(tgid: int) | CpuScope(cpu: nat)

  /** A track id: the track interned for a blueprint (its kind and scope)
      and a name, or the invalid id. */
  datatype TrackRef = InvalidTrack | TrackOf(kind: EventKind, scope: Scope, name: string)

  /** The calls the tracker makes into the other trackers. */
  datatype Action =
    | GetOrCreateThread(tid: nat)
    | GetOrCreateProcess(pid: int)
    | InternTrack(track: TrackRef)
    | BeginSlice(ts: int, track: TrackRef, name: string)
    | EndSlice(ts: int, track: TrackRef)
    | InstantSlice(ts: int, track: TrackRef, name: string)
    | PushCounter(ts: int, track: TrackRef, value: int)
  {
    /** A call that inserts slice or counter data. */
    predicate IsData() {
      BeginSlice? || EndSlice? || InstantSlice? || PushCounter?
    }
  }

  /** What parsing one event does: the calls it makes, in order, and
      whether it counts a format error. */
  datatype ParseOutcome = ParseOutcome(actions: seq<Action>, formatError: bool)

  /** `static_cast<char>` of an integer, as its low byte. */
  function CharCode(v: int): (c: int)
    ensures 0 <= c < 256
    ensures 0 <= v < 256 ==> c == v
  {
    v % 256
  }

  /** `static_cast<uint32_t>` of an integer. */
  function Low32(v: int): (r: nat)
    ensures r < Uint32Limit
    ensures 0 <= v < Uint32Limit ==> r == v
  {
    v % Uint32Limit
  }

  /** The track name: the event's own name, or the payload's track-name
      field when the template declares one (None when it is missing). */
  function TrackName(info: KernelTrackEvent, payload: Payload): Option<string> {
    if info.trackNameFieldId == 0 then Some(info.eventName)
    else if info.trackNameFieldId in payload then Some(payload[info.trackNameFieldId].asString)
    else None
  }

  /** The track lookup: the calls made and the track found, or None when a
      context field is missing. A custom context interns nothing and leaves
      the track invalid. */
  function LookupTrack(info: KernelTrackEvent, tid: nat, name: string, payload: Payload)
    : (r: Option<(seq<Action>, TrackRef)>)
    ensures r.Some? ==> forall i :: 0 <= i < |r.value.0| ==> !r.value.0[i].IsData()
    ensures r.None? <==> info.contextType in {Tgid, Cpu} && info.contextFieldId !in payload
  {
    match info.contextType
    case Tid =>
      var track := TrackOf(info.kind, ThreadScope(tid), name);
      Some(([GetOrCreateThread(tid), InternTrack(track)], track))
    case Tgid =>
      if info.contextFieldId !in payload then None
      else
        var tgid := payload[info.contextFieldId].asInt64;
        var track := TrackOf(info.kind, ProcessScope(tgid), name);
        Some(([GetOrCreateProcess(tgid), InternTrack(track)], track))
    case Cpu =>
      if info.contextFieldId !in payload then None
      else
        var track := TrackOf(info.kind, CpuScope(Low32(payload[info.contextFieldId].asInt64)), name);
        Some(([InternTrack(track)], track))
    case Custom => Some(([], InvalidTrack))
  }

  /** The slice or counter call, or None on a format error. */
  function DataAction(info: KernelTrackEvent, ts: int, track: TrackRef, payload: Payload): (r: Option<Action>)
    ensures r.Some? ==> r.value.IsData() && r.value.ts == ts
  {
    match info.kind
    case Slice =>
      if info.sliceTypeFieldId !in payload || info.sliceNameFieldId !in payload then None
      else
        var code := CharCode(payload[info.sliceTypeFieldId].asInt64);
        var name := payload[info.sliceNameFieldId].asString;
        if code == 'B' as int then Some(BeginSlice(ts, track, name))
        else if code == 'E' as int then Some(EndSlice(ts, track))
        else if code == 'I' as int then Some(InstantSlice(ts, track, name))
        else None
    case Counter =>
      if info.valueFieldId !in payload then None
      else Some(PushCounter(ts, track, payload[info.valueFieldId].asInt64))
  }

  /** Parsing an event whose template is `info`. */
  function ParseTrackEvent(info: KernelTrackEvent, ts: int, tid: nat, payload: Payload): ParseOutcome {
    match TrackName(info, payload)
    case None => ParseOutcome([], true)
    case Some(name) =>
      match LookupTrack(info, tid, name, payload)
      case None => ParseOutcome([], true)
      case Some((calls, track)) =>
        match DataAction(info, ts, track, payload)
        case None => ParseOutcome(calls, true)
        case Some(data) => ParseOutcome(calls + [data], false)
  }

  /** A format error and a data call exclude each other: a parse either
      counts one error and inserts nothing, or inserts exactly one slice or
      counter call, as its last call. */
  lemma ParseErrorXorData(info: KernelTrackEvent, ts: int, tid: nat, payload: Payload)
    ensures var r := ParseTrackEvent(info, ts, tid, payload);
      (r.formatError <==> forall i :: 0 <= i < |r.actions| ==> !r.actions[i].IsData()) &&
      (!r.formatError ==>
        r.actions[|r.actions| - 1].IsData() &&
        forall i :: 0 <= i < |r.actions| - 1 ==> !r.actions[i].IsData())
  {
    var r := ParseTrackEvent(info, ts, tid, payload);
    if TrackName(info, payload).Some? {
      var lookup := LookupTrack(info, tid, TrackName(info, payload).value, payload);
      if lookup.Some? {
        var (calls, track) := lookup.value;
        if DataAction(info, ts, track, payload).Some? {
          assert r.actions == calls + [DataAction(info, ts, track, payload).value];
          assert r.actions[|r.actions| - 1].IsData();
        }
      }
    }
  }

  /** A template that declares a track-name field needs it in the payload;
      without it the parse is a format error that calls nothing. */
  lemma MissingTrackNameIsFormatError(info: KernelTrackEvent, ts: int, tid: nat, payload: Payload)
    requires info.trackNameFieldId != 0 && info.trackNameFieldId !in payload
    ensures ParseTrackEvent(info, ts, tid, payload) == ParseOutcome([], true)
  {
  }

  /** The track of every call is named after the event unless the template
      declares a track-name field, and after that field's string if it does. */
  lemma TrackNamedAfterEventOrField(info: KernelTrackEvent, ts: int, tid: nat, payload: Payload)
    ensures var r := ParseTrackEvent(info, ts, tid, payload);
      forall i :: 0 <= i < |r.actions| && r.actions[i].InternTrack? && r.actions[i].track.TrackOf? ==>
        r.actions[i].track.name ==
          if info.trackNameFieldId == 0 then info.eventName else payload[info.trackNameFieldId].asString
  {
  }

  /** A thread-scoped event interns the thread and then the track named by
      the thread and the track name, before anything else is checked. */
  lemma ThreadScopedTrack(info: KernelTrackEvent, ts: int, tid: nat, payload: Payload)
    requires info.contextType == Tid && TrackName(info, payload).Some?
    ensures var r := ParseTrackEvent(info, ts, tid, payload);
      |r.actions| >= 2 &&
      r.actions[..2] == [GetOrCreateThread(tid),
                         InternTrack(TrackOf(info.kind, ThreadScope(tid), TrackName(info, payload).value))]
  {
  }

  /** A process context overrides the thread scoping: the process named by
      the context field's integer is interned, then the track keyed by that
      process and the track name, before anything else is checked. */
  lemma ProcessScopedTrack(info: KernelTrackEvent, ts: int, tid: nat, payload: Payload)
    requires info.contextType == Tgid && TrackName(info, payload).Some?
    requires info.contextFieldId in payload
    ensures var r := ParseTrackEvent(info, ts, tid, payload);
      var tgid := payload[info.contextFieldId].asInt64;
      |r.actions| >= 2 &&
      r.actions[..2] == [GetOrCreateProcess(tgid),
                         InternTrack(TrackOf(info.kind, ProcessScope(tgid), TrackName(info, payload).value))]
  {
  }

  /** A cpu context overrides the thread scoping: the track keyed by the low
      32 bits of the context field's integer and the track name is interned
      first, and no thread or process is. */
  lemma CpuScopedTrack(info: KernelTrackEvent, ts: int, tid: nat, payload: Payload)
    requires info.contextType == Cpu && TrackName(info, payload).Some?
    requires info.contextFieldId in payload
    ensures var r := ParseTrackEvent(info, ts, tid, payload);
      var cpu := Low32(payload[info.contextFieldId].asInt64);
      |r.actions| >= 1 &&
      r.actions[0] == InternTrack(TrackOf(info.kind, CpuScope(cpu), TrackName(info, payload).value)) &&
      forall i :: 0 <= i < |r.actions| ==> !r.actions[i].GetOrCreateThread? && !r.actions[i].GetOrCreateProcess?
  {
  }

  /** A process- or cpu-scoped event needs its context field; without it
      the parse is a format error that calls nothing. */
  lemma MissingContextIsFormatError(info: KernelTrackEvent, ts: int, tid: nat, payload: Payload)
    requires info.contextType == Tgid || info.contextType == Cpu
    requires info.contextFieldId !in payload
    ensures ParseTrackEvent(info, ts, tid, payload) == ParseOutcome([], true)
  {
  }

  /** The slice call follows the slice type's character: 'B' begins a
      slice, 'E' ends one, 'I' is an instant of duration zero; any other
      character, or a missing slice field, is a format error with no slice
      call. */
  lemma SliceDispatch(info: KernelTrackEvent, ts: int, tid: nat, payload: Payload)
    requires info.kind == Slice
    requires TrackName(info, payload).Some?
    requires LookupTrack(info, tid, TrackName(info, payload).value, payload).Some?
    ensures var (calls, track) := LookupTrack(info, tid, TrackName(info, payload).value, payload).value;
      var r := ParseTrackEvent(info, ts, tid, payload);
      if info.sliceTypeFieldId !in payload || info.sliceNameFieldId !in payload then
        r == ParseOutcome(calls, true)
      else
        var code := CharCode(payload[info.sliceTypeFieldId].asInt64);
        var name := payload[info.sliceNameFieldId].asString;
        (code == 'B' as int ==> r == ParseOutcome(calls + [BeginSlice(ts, track, name)], false)) &&
        (code == 'E' as int ==> r == ParseOutcome(calls + [EndSlice(ts, track)], false)) &&
        (code == 'I' as int ==> r == ParseOutcome(calls + [InstantSlice(ts, track, name)], false)) &&
        (code !in {'B' as int, 'E' as int, 'I' as int} ==> r == ParseOutcome(calls, true))
  {
  }

  /** Only the low byte of the slice type counts: an integer 256 * k away
      from 'B' begins a slice just as 'B' does. */
  lemma SliceTypeTruncated(info: KernelTrackEvent, ts: int, tid: nat, payload: Payload, k: int)
    requires info.kind == Slice && info.sliceTypeFieldId in payload
    requires info.sliceTypeFieldId != info.trackNameFieldId
    requires info.sliceTypeFieldId != info.contextFieldId
    ensures var shifted := payload[info.sliceTypeFieldId :=
                             payload[info.sliceTypeFieldId].(asInt64 := payload[info.sliceTypeFieldId].asInt64 + 256 * k)];
      ParseTrackEvent(info, ts, tid, shifted) == ParseTrackEvent(info, ts, tid, payload)
  {
    var shifted := payload[info.sliceTypeFieldId :=
                     payload[info.sliceTypeFieldId].(asInt64 := payload[info.sliceTypeFieldId].asInt64 + 256 * k)];
    assert CharCode(shifted[info.sliceTypeFieldId].asInt64) == CharCode(payload[info.sliceTypeFieldId].asInt64);
    assert TrackName(info, shifted) == TrackName(info, payload);
    if TrackName(info, payload).Some? {
      assert LookupTrack(info, tid, TrackName(info, payload).value, shifted)
          == LookupTrack(info, tid, TrackName(info, payload).value, payload);
    }
  }

  /** A counter pushes the value field's integer on its track, and is a
      format error with no counter call when the value is missing. */
  lemma CounterDispatch(info: KernelTrackEvent, ts: int, tid: nat, payload: Payload)
    requires info.kind == Counter
    requires TrackName(info, payload).Some?
    requires LookupTrack(info, tid, TrackName(info, payload).value, payload).Some?
    ensures var (calls, track) := LookupTrack(info, tid, TrackName(info, payload).value, payload).value;
      ParseTrackEvent(info, ts, tid, payload) ==
        if info.valueFieldId in payload then
          ParseOutcome(calls + [PushCounter(ts, track, payload[info.valueFieldId].asInt64)], false)
        else ParseOutcome(calls, true)
  {
  }

  // ---------------------------------------------------------------------
  // The tracker

  /** `Insert` of the tracker's hash maps: keeps an existing entry. */
  function InsertIfAbsent<K, V>(m: map<K, V>, k: K, v: V): map<K, V> {
    if k in m then m else m[k := v]
  }

  class GenericFtraceTracker {
    /** Registered events, by the proto field id of their descriptor. */
    var events: map<nat, GenericEvent>
    /** Template of every registered event that is a kernel track event. */
    var trackEventInfo: map<nat, KernelTrackEvent>
    /** The `ftrace_generic_descriptor_errors` stat. */
    var descriptorErrors: nat
    /** The `kernel_trackevent_format_error` stat. */
    var formatErrors: nat
    /** The calls made into the other trackers, oldest first. */
    var actions: seq<Action>

    /** Every event's table fits the field limit, and the template map holds
        exactly the templates of the registered events that have one. */
    ghost predicate Valid()
      reads this
    {
      (forall id :: id in events ==> |events[id].fields| <= MaxAllowedFields) &&
      (forall id :: id in trackEventInfo ==> id in events && Template(events[id]) == Some(trackEventInfo[id])) &&
      (forall id :: id in events && Template(events[id]).Some? ==> id in trackEventInfo)
    }

    constructor ()
      ensures Valid()
      ensures events == map[] && trackEventInfo == map[]
      ensures descriptorErrors == 0 && formatErrors == 0 && actions == []
    {
      events := map[];
      trackEventInfo := map[];
      descriptorErrors := 0;
      formatErrors := 0;
      actions := [];
    }

    /** Registers the descriptor of event `id`. The first registration of an
        id wins; a descriptor with a field numbered 32 or more, or of a type
        past sint64, is dropped whole and counted once as an error. */
    method AddDescriptor(id: nat, d: Descriptor)
      requires Valid()
      modifies this`events, this`trackEventInfo, this`descriptorErrors
      ensures Valid()
      ensures id in old(events) ==>
                events == old(events) && trackEventInfo == old(trackEventInfo) &&
                descriptorErrors == old(descriptorErrors)
      ensures id !in old(events) && !DescriptorAccepted(d.fields) ==>
                events == old(events) && trackEventInfo == old(trackEventInfo) &&
                descriptorErrors == old(descriptorErrors) + 1
      ensures id !in old(events) && DescriptorAccepted(d.fields) ==>
                var e := GenericEvent(d.name, FieldTable(d.fields));
                events == old(events)[id := e] && descriptorErrors == old(descriptorErrors) &&
                trackEventInfo == match Template(e)
                                  case Some(info) => old(trackEventInfo)[id := info]
                                  case None => old(trackEventInfo)
    {
      if id in events {
        return;
      }
      var fields: seq<GenericField> := [];
      var i := 0;
      while i < |d.fields|
        invariant 0 <= i <= |d.fields|
        invariant DescriptorAccepted(d.fields[..i])
        invariant fields == FieldTable(d.fields[..i])
      {
        var f := d.fields[i];
        var fieldId := FieldId(f.number);
        if fieldId >= MaxAllowedFields {
          descriptorErrors := descriptorErrors + 1;
          return;
        }
        if f.fieldType > TypeSint64 {
          descriptorErrors := descriptorErrors + 1;
          return;
        }
        if fieldId >= |fields| {
          fields := Grow(fields, fieldId + 1);
        }
        fields := fields[fieldId := GenericField(f.name, f.fieldType)];
        assert d.fields[..i + 1][..i] == d.fields[..i];
        i := i + 1;
      }
      assert d.fields[..i] == d.fields;
      AcceptedTableBounded(d.fields);
      var event := GenericEvent(d.name, fields);
      MatchTrackEventTemplate(id, event);
      events := events[id := event];
    }

    /** The registered event of `id`, if any. */
    function GetEvent(id: nat): (r: Option<GenericEvent>)
      reads this
      requires Valid()
      ensures r.Some? <==> id in events
      ensures r.Some? ==> r.value == events[id] && |r.value.fields| <= MaxAllowedFields
      ensures r.Some? && Template(r.value).Some? ==> id in trackEventInfo
    {
      if id in events then Some(events[id]) else None
    }

    /** Scans the table of `event` for the kernel track event template and
        stores the template under `id` when the event is a slice or a
        counter. */
    method MatchTrackEventTemplate(id: nat, event: GenericEvent)
      modifies this`trackEventInfo
      ensures trackEventInfo == match Template(event)
                                case Some(info) => InsertIfAbsent(old(trackEventInfo), id, info)
                                case None => old(trackEventInfo)
    {
      var info := Blank(event.name);
      var fieldId := 1;
      while fieldId < |event.fields|
        invariant 1 <= fieldId
        invariant |event.fields| >= 1 ==> fieldId <= |event.fields|
        invariant info == ScanFields(event, if |event.fields| >= 1 then fieldId else 0)
        invariant trackEventInfo == old(trackEventInfo)
      {
        var f := event.fields[fieldId];
        ContextNamesPrefixed(f.fieldType);
        if f.name == "track_event_type" && IsIntegral(f.fieldType) {
          info := info.(sliceTypeFieldId := fieldId);
        } else if f.name == "slice_name" && f.fieldType == TypeString {
          info := info.(sliceNameFieldId := fieldId);
        } else if f.name == "track_name" && f.fieldType == TypeString {
          info := info.(trackNameFieldId := fieldId);
        } else if f.name == "value" && IsIntegral(f.fieldType) {
          info := info.(valueFieldId := fieldId);
        }
        if f.name == "context_tgid" && IsIntegral(f.fieldType) {
          info := info.(contextFieldId := fieldId, contextType := Tgid);
        } else if f.name == "context_cpu" && IsIntegral(f.fieldType) {
          info := info.(contextFieldId := fieldId, contextType := Cpu);
        } else if StartsWith(f.name, "context_") {
          info := info.(contextFieldId := fieldId, contextType := Custom);
        }
        fieldId := fieldId + 1;
      }
      if info.sliceTypeFieldId != 0 && info.sliceNameFieldId != 0 {
        info := info.(kind := Slice);
      } else if info.trackNameFieldId != 0 && info.valueFieldId != 0 {
        info := info.(kind := Counter);
      } else {
        return;
      }
      trackEventInfo := InsertIfAbsent(trackEventInfo, id, info);
    }

    /** Parses the event `id` emitted at `ts` by thread `tid` as a kernel
        track event: nothing happens unless `id` has a template; otherwise
        the calls of `ParseTrackEvent` are logged and a format error is
        counted when it reports one. */
    method MaybeParseAsTrackEvent(id: nat, ts: int, tid: nat, payload: Payload)
      modifies this`actions, this`formatErrors
      ensures id !in trackEventInfo ==> actions == old(actions) && formatErrors == old(formatErrors)
      ensures id in trackEventInfo ==>
                var r := ParseTrackEvent(trackEventInfo[id], ts, tid, payload);
                actions == old(actions) + r.actions &&
                formatErrors == old(formatErrors) + (if r.formatError then 1 else 0)
    {
      if id !in trackEventInfo {
        return;
      }
      var info := trackEventInfo[id];

      var trackName := info.eventName;
      if info.trackNameFieldId != 0 {
        if info.trackNameFieldId !in payload {
          formatErrors := formatErrors + 1;
          return;
        }
        trackName := payload[info.trackNameFieldId].asString;
      }

      var track := InvalidTrack;
      match info.contextType {
        case Tid =>
          track := TrackOf(info.kind, ThreadScope(tid), trackName);
          actions := actions + [GetOrCreateThread(tid), InternTrack(track)];
        case Tgid =>
          if info.contextFieldId !in payload {
            formatErrors := formatErrors + 1;
            return;
          }
          var tgid := payload[info.contextFieldId].asInt64;
          track := TrackOf(info.kind, ProcessScope(tgid), trackName);
          actions := actions + [GetOrCreateProcess(tgid), InternTrack(track)];
        case Cpu =>
          if info.contextFieldId !in payload {
            formatErrors := formatErrors + 1;
            return;
          }
          track := TrackOf(info.kind, CpuScope(Low32(payload[info.contextFieldId].asInt64)), trackName);
          actions := actions + [InternTrack(track)];
        case Custom =>
      }

      if info.kind == Slice {
        if info.sliceTypeFieldId !in payload || info.sliceNameFieldId !in payload {
          formatErrors := formatErrors + 1;
          return;
        }
        var code := CharCode(payload[info.sliceTypeFieldId].asInt64);
        var sliceName := payload[info.sliceNameFieldId].asString;
        if code == 'B' as int {
          actions := actions + [BeginSlice(ts, track, sliceName)];
        } else if code == 'E' as int {
          actions := actions + [EndSlice(ts, track)];
        } else if code == 'I' as int {
          actions := actions + [InstantSlice(ts, track, sliceName)];
        } else {
          formatErrors := formatErrors + 1;
          return;
        }
      } else {
        if info.valueFieldId !in payload {
          formatErrors := formatErrors + 1;
          return;
        }
        actions := actions + [PushCounter(ts, track, payload[info.valueFieldId].asInt64)];
      }
    }
  }
}
