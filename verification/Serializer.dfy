/**
 * The JSON wire format. `JSON.stringify` and `JSON.parse` are taken as an inverse pair, so
 * a text is either the rendering of a JSON value or not JSON at all.
 */
module Serializer {
  import opened Common
  import opened Envelopes

  datatype Text = OfJson(value: Json) | NotJson

  /** The two headers the serializer reads; a missing header is `None`. */
  datatype EncodedEnvelope = EncodedEnvelope(body: Text, messageType: Option<string>, stamps: Option<Text>)

  datatype SerializationError =
    | MissingTypeHeader
    | NotParseable
    | BodyNotObject
    | StampsNotArray
    | StampNotObject
    | StampWithoutType
    | StampWithoutData
    | UnknownType(name: string)

  type Registry = map<string, Class>

  const BUILT_IN: seq<Class> := [
    BusNameStamp, SentStamp, ReceivedStamp, TransportMessageIdStamp, DelayStamp, RedeliveryStamp, HandledStamp,
    ErrorDetailsStamp, SentToFailureTransportStamp]

  const NON_SENDABLE: set<Class> := {ReceivedStamp, TransportMessageIdStamp}

  function ClassName(c: Class): string {
    match c
    case BusNameStamp => "BusNameStamp"
    case SentStamp => "SentStamp"
    case ReceivedStamp => "ReceivedStamp"
    case TransportMessageIdStamp => "TransportMessageIdStamp"
    case DelayStamp => "DelayStamp"
    case RedeliveryStamp => "RedeliveryStamp"
    case HandledStamp => "HandledStamp"
    case ErrorDetailsStamp => "ErrorDetailsStamp"
    case SentToFailureTransportStamp => "SentToFailureTransportStamp"
    case UserClass(name, _) => name
  }

  // ---- Grouping by class (`Envelope.all()`) ------------------------------------------

  /** The classes present, in order of first appearance. */
  function ClassesOf(stamps: seq<Stamp>): seq<Class> {
    if stamps == [] then []
    else
      var before, c := ClassesOf(stamps[..|stamps| - 1]), stamps[|stamps| - 1].cls;
      if c in before then before else before + [c]
  }

  /** The groups of the listed classes, one after the other. */
  function Flatten(classes: seq<Class>, stamps: seq<Stamp>): seq<Stamp> {
    if classes == [] then []
    else Flatten(classes[..|classes| - 1], stamps) + Only(stamps, {classes[|classes| - 1]})
  }

  function Regroup(stamps: seq<Stamp>): seq<Stamp> { Flatten(ClassesOf(stamps), stamps) }

  ghost predicate Distinct(classes: seq<Class>) {
    forall i, j :: 0 <= i < j < |classes| ==> classes[i] != classes[j]
  }

  /** `Envelope.all()`: a Map from class to its stamps; `order` is the Map's insertion order. */
  method GroupByClass(stamps: seq<Stamp>) returns (order: seq<Class>, grouped: map<Class, seq<Stamp>>)
    ensures order == ClassesOf(stamps)
    ensures Distinct(order)
    ensures forall c :: c in grouped <==> c in order
    ensures forall c :: c in order ==> grouped[c] == Only(stamps, {c}) != []
    ensures forall c :: c !in order ==> Only(stamps, {c}) == []
  {
    NoStamps();
    hide ClassesOf, Only;
    order, grouped := [], map[];
    for i := 0 to |stamps|
      invariant order == ClassesOf(stamps[..i])
      invariant Distinct(order)
      invariant forall c :: c in grouped <==> c in order
      invariant forall c :: c in order ==> grouped[c] == Only(stamps[..i], {c}) != []
      invariant forall c :: c !in order ==> Only(stamps[..i], {c}) == []
    {
      var stamp := stamps[i];
      OneMoreStamp(stamps[..i], stamp, stamps[..i + 1]);
      if stamp.cls !in grouped {
        order := order + [stamp.cls];
        grouped := grouped[stamp.cls := [stamp]];
      } else {
        grouped := grouped[stamp.cls := grouped[stamp.cls] + [stamp]];
      }
    }
    assert stamps[..|stamps|] == stamps;
  }

  lemma NoStamps()
    ensures ClassesOf([]) == [] && forall c :: Only([], {c}) == []
  {
  }

  lemma OneMoreStamp(before: seq<Stamp>, x: Stamp, stamps: seq<Stamp>)
    requires stamps == before + [x]
    ensures ClassesOf(stamps) == if x.cls in ClassesOf(before) then ClassesOf(before) else ClassesOf(before) + [x.cls]
    ensures forall c :: Only(stamps, {c}) == if c == x.cls then Only(before, {c}) + [x] else Only(before, {c})
  {
    assert stamps[..|before|] == before;
  }

  lemma {:induction false} ClassesOfFacts(stamps: seq<Stamp>)
    ensures Distinct(ClassesOf(stamps))
    ensures forall c :: c in ClassesOf(stamps) <==> Only(stamps, {c}) != []
  {
    if stamps != [] {
      ClassesOfFacts(stamps[..|stamps| - 1]);
    }
  }

  lemma {:induction false} OnlyOfOnly(stamps: seq<Stamp>, a: Class, b: Class)
    ensures Only(Only(stamps, {a}), {b}) == if a == b then Only(stamps, {a}) else []
  {
    hide Drop, Only, LastOf;
    if stamps == [] {
      Nothing();
    } else {
      var init, x := stamps[..|stamps| - 1], stamps[|stamps| - 1];
      OnlyOfOnly(init, a, b);
      Append(Only(init, {a}), x);
      Append(init, x);
      assert stamps == init + [x];
    }
  }

  /** Grouping never changes what `all(c)` answers for a listed class. */
  lemma {:induction false} OnlyOfFlatten(classes: seq<Class>, stamps: seq<Stamp>, c: Class)
    requires Distinct(classes)
    ensures Only(Flatten(classes, stamps), {c}) == if c in classes then Only(stamps, {c}) else []
  {
    if classes != [] {
      var init, d := classes[..|classes| - 1], classes[|classes| - 1];
      OnlyOfFlatten(init, stamps, c);
      OnlyConcat(Flatten(init, stamps), Only(stamps, {d}), {c});
      OnlyOfOnly(stamps, d, c);
    }
  }

  lemma {:induction false} ClassesOfGroup(before: seq<Stamp>, stamps: seq<Stamp>, c: Class)
    requires c !in ClassesOf(before)
    ensures ClassesOf(before + Only(stamps, {c}))
         == if Only(stamps, {c}) == [] then ClassesOf(before) else ClassesOf(before) + [c]
  {
    if stamps == [] {
      assert before + Only(stamps, {c}) == before;
    } else {
      var init, x := stamps[..|stamps| - 1], stamps[|stamps| - 1];
      ClassesOfGroup(before, init, c);
      if x.cls == c {
        var all := before + Only(stamps, {c});
        assert all[..|all| - 1] == before + Only(init, {c});
      } else {
        assert Only(stamps, {c}) == Only(init, {c});
      }
    }
  }

  lemma FlattenNext(init: seq<Class>, d: Class, stamps: seq<Stamp>)
    ensures Flatten(init + [d], stamps) == Flatten(init, stamps) + Only(stamps, {d})
  {
    assert (init + [d])[..|init|] == init;
  }

  lemma {:induction false} ClassesOfFlatten(classes: seq<Class>, stamps: seq<Stamp>)
    requires Distinct(classes)
    requires forall c :: c in classes ==> Only(stamps, {c}) != []
    ensures ClassesOf(Flatten(classes, stamps)) == classes
  {
    assert ClassesOf([]) == [] && Flatten([], stamps) == [];
    hide ClassesOf, Only, Flatten;
    if classes != [] {
      var init, d := classes[..|classes| - 1], classes[|classes| - 1];
      FlattenNext(init, d, stamps);
      assert classes == init + [d];
      ClassesOfFlatten(init, stamps);
      ClassesOfGroup(Flatten(init, stamps), stamps, d);
    }
  }

  lemma {:induction false} FlattenCongruence(classes: seq<Class>, s: seq<Stamp>, t: seq<Stamp>)
    requires forall c :: c in classes ==> Only(s, {c}) == Only(t, {c})
    ensures Flatten(classes, s) == Flatten(classes, t)
  {
    if classes != [] {
      assert forall c :: c in classes[..|classes| - 1] ==> c in classes;
      FlattenCongruence(classes[..|classes| - 1], s, t);
    }
  }

  /** What is already grouped stays as it is when grouped again. */
  lemma {:induction false} GroupedIsFixed(classes: seq<Class>, stamps: seq<Stamp>)
    requires Distinct(classes)
    requires forall c :: c in classes ==> Only(stamps, {c}) != []
    ensures Regroup(Flatten(classes, stamps)) == Flatten(classes, stamps)
  {
    ClassesOfFlatten(classes, stamps);
    forall c | c in classes ensures Only(stamps, {c}) == Only(Flatten(classes, stamps), {c}) {
      OnlyOfFlatten(classes, stamps, c);
    }
    FlattenCongruence(classes, stamps, Flatten(classes, stamps));
  }

  function Sendable(classes: seq<Class>): seq<Class> {
    if classes == [] then []
    else
      var rest, c := Sendable(classes[..|classes| - 1]), classes[|classes| - 1];
      if c in NON_SENDABLE then rest else rest + [c]
  }

  lemma {:induction false} SendableFacts(classes: seq<Class>)
    requires Distinct(classes)
    ensures Distinct(Sendable(classes))
    ensures forall c :: c in Sendable(classes) <==> c in classes && c !in NON_SENDABLE
  {
    if classes != [] {
      SendableFacts(classes[..|classes| - 1]);
      assert classes == classes[..|classes| - 1] + [classes[|classes| - 1]];
    }
  }

  lemma {:induction false} DropOfOnly(stamps: seq<Stamp>, c: Class, away: set<Class>)
    ensures Drop(Only(stamps, {c}), away) == if c in away then [] else Only(stamps, {c})
  {
    if stamps != [] {
      var init, x := stamps[..|stamps| - 1], stamps[|stamps| - 1];
      DropOfOnly(init, c, away);
      if x.cls == c {
        assert (Only(init, {c}) + [x])[..|Only(init, {c})|] == Only(init, {c});
      }
    }
  }

  lemma {:induction false} DropOfFlatten(classes: seq<Class>, stamps: seq<Stamp>)
    ensures Drop(Flatten(classes, stamps), NON_SENDABLE) == Flatten(Sendable(classes), stamps)
  {
    if classes != [] {
      var init, d := classes[..|classes| - 1], classes[|classes| - 1];
      DropOfFlatten(init, stamps);
      DropConcat(Flatten(init, stamps), Only(stamps, {d}), NON_SENDABLE);
      DropOfOnly(stamps, d, NON_SENDABLE);
    }
  }

  // ---- Encoding ----------------------------------------------------------------------

  /** What crosses the wire of an envelope's stamps. */
  function WireStamps(stamps: seq<Stamp>): seq<Stamp> { Drop(Regroup(stamps), NON_SENDABLE) }

  function EncodeStamp(s: Stamp): Json { Obj(map["type" := Str(ClassName(s.cls)), "data" := Obj(s.data)]) }

  function EncodeAll(stamps: seq<Stamp>): seq<Json> {
    if stamps == [] then [] else EncodeAll(stamps[..|stamps| - 1]) + [EncodeStamp(stamps[|stamps| - 1])]
  }

  function EncodedUpTo(stamps: seq<Stamp>): seq<Json> { EncodeAll(Drop(stamps, NON_SENDABLE)) }

  lemma EncodedUpToNext(before: seq<Stamp>, x: Stamp)
    ensures EncodedUpTo(before + [x])
         == if x.cls in NON_SENDABLE then EncodedUpTo(before) else EncodedUpTo(before) + [EncodeStamp(x)]
  {
    Append(before, x);
    var kept := Drop(before, NON_SENDABLE);
    assert (kept + [x])[..|kept|] == kept;
  }

  lemma EncodedUpToNothing()
    ensures EncodedUpTo([]) == []
  {
  }

  lemma EncodedUpToAll(e: Envelope)
    ensures EncodedUpTo(Flatten(ClassesOf(e.stamps), e.stamps)) == EncodeAll(WireStamps(e.stamps))
  {
  }

  function Encoded(e: Envelope): EncodedEnvelope {
    EncodedEnvelope(
      OfJson(Obj(e.message.data)), Some(ClassName(e.message.cls)), Some(OfJson(Arr(EncodeAll(WireStamps(e.stamps))))))
  }

  function Register(types: seq<Class>): Registry {
    if types == [] then map[] else Register(types[..|types| - 1])[ClassName(types[|types| - 1]) := types[|types| - 1]]
  }

  // ---- Decoding ----------------------------------------------------------------------

  function Parse(t: Text): Result<Json, SerializationError> {
    if t.OfJson? then Ok(t.value) else Err(NotParseable)
  }

  function ParseObject(t: Text): Result<Record, SerializationError> {
    match Parse(t)
    case Err(e) => Err(e)
    case Ok(v) => if v.Obj? then Ok(v.fields) else Err(BodyNotObject)
  }

  function Reconstruct(reg: Registry, name: string, data: Record): Result<Instance, SerializationError> {
    if name in reg then Ok(Instance(reg[name], data)) else Err(UnknownType(name))
  }

  /** `Object.assign` from an array copies its elements under their decimal indices. */
  function IndexedFields(items: seq<Json>): Record {
    if items == [] then map[]
    else IndexedFields(items[..|items| - 1])[Decimal(|items| - 1) := items[|items| - 1]]
  }

  function DecodeStamp(reg: Registry, entry: Json): Result<Stamp, SerializationError> {
    if !entry.Obj? && !entry.Arr? then Err(StampNotObject)
    else if entry.Arr? || "type" !in entry.fields || !entry.fields["type"].Str? then Err(StampWithoutType)
    else if "data" !in entry.fields then Err(StampWithoutData)
    else match entry.fields["data"]
      case Obj(data) => Reconstruct(reg, entry.fields["type"].s, data)
      case Arr(items) => Reconstruct(reg, entry.fields["type"].s, IndexedFields(items))
      case _ => Err(StampWithoutData)
  }

  function DecodeAll(reg: Registry, entries: seq<Json>): Result<seq<Stamp>, SerializationError> {
    if entries == [] then Ok([])
    else match DecodeAll(reg, entries[..|entries| - 1])
      case Err(e) => Err(e)
      case Ok(done) =>
        match DecodeStamp(reg, entries[|entries| - 1])
        case Err(e) => Err(e)
        case Ok(s) => Ok(done + [s])
  }

  function DecodeStamps(reg: Registry, raw: Option<Text>): Result<seq<Stamp>, SerializationError> {
    match raw
    case None => Ok([])
    case Some(text) =>
      match Parse(text)
      case Err(e) => Err(e)
      case Ok(v) => if v.Arr? then DecodeAll(reg, v.items) else Err(StampsNotArray)
  }

  function Decode(reg: Registry, w: EncodedEnvelope): Result<Envelope, SerializationError> {
    if w.messageType.None? then Err(MissingTypeHeader)
    else match ParseObject(w.body)
      case Err(e) => Err(e)
      case Ok(data) =>
        match Reconstruct(reg, w.messageType.value, data)
        case Err(e) => Err(e)
        case Ok(message) =>
          match DecodeStamps(reg, w.stamps)
          case Err(e) => Err(e)
          case Ok(stamps) => Ok(Envelope(message, stamps))
  }

  class JsonSerializer {
    const registry: Registry

    constructor (messageTypes: seq<Class> := [])
      ensures registry == Register(BUILT_IN + messageTypes)
    {
      var reg: Registry := map[];
      var types := BUILT_IN + messageTypes;
      for i := 0 to |types|
        invariant reg == Register(types[..i])
      {
        assert types[..i + 1][..i] == types[..i];
        reg := reg[ClassName(types[i]) := types[i]];
      }
      assert types[..|types|] == types;
      registry := reg;
    }

    method Encode(e: Envelope) returns (w: EncodedEnvelope)
      ensures w == Encoded(e)
    {
      var order, grouped := GroupByClass(e.stamps);
      var stamps: seq<Json> := [];
      hide Only, EncodeAll, EncodedUpTo, Drop, ClassesOf, WireStamps, EncodeStamp, ClassName, Distinct;
      assert stamps == EncodedUpTo([]) by { EncodedUpToNothing(); }
      for i := 0 to |order|
        invariant stamps == EncodedUpTo(Flatten(order[..i], e.stamps))
      {
        var list := grouped[order[i]];
        ghost var before := Flatten(order[..i], e.stamps);
        assert before + list[..0] == before;
        for j := 0 to |list|
          invariant stamps == EncodedUpTo(before + list[..j])
        {
          EncodedUpToNext(before + list[..j], list[j]);
          assert before + list[..j + 1] == before + list[..j] + [list[j]];
          if list[j].cls !in NON_SENDABLE {
            stamps := stamps + [EncodeStamp(list[j])];
          }
        }
        assert list[..|list|] == list && order[..i + 1][..i] == order[..i];
      }
      assert order[..|order|] == order;
      EncodedUpToAll(e);
      w := EncodedEnvelope(OfJson(Obj(e.message.data)), Some(ClassName(e.message.cls)), Some(OfJson(Arr(stamps))));
    }
  }

  // ---- Round trip --------------------------------------------------------------------

  /** `c` is the class the registry finds under `c`'s own name. */
  ghost predicate Knows(reg: Registry, c: Class) { ClassName(c) in reg && reg[ClassName(c)] == c }

  ghost predicate KnowsAll(reg: Registry, e: Envelope) {
    Knows(reg, e.message.cls) && forall s :: s in e.stamps && s.cls !in NON_SENDABLE ==> Knows(reg, s.cls)
  }

  /** A decoded envelope says what the encoded one said, local stamps apart. */
  ghost predicate SameContent(e: Envelope, d: Envelope) {
    && d.message == e.message
    && forall c :: d.AllOf(c) == (if c in NON_SENDABLE then [] else e.AllOf(c))
  }

  lemma {:induction false} RegistryNames(types: seq<Class>)
    ensures forall n :: n in Register(types) ==> ClassName(Register(types)[n]) == n
  {
    if types != [] {
      RegistryNames(types[..|types| - 1]);
    }
  }

  lemma {:induction false} OnlyMembers(stamps: seq<Stamp>, c: Class, x: Stamp)
    ensures x in Only(stamps, {c}) <==> x in stamps && x.cls == c
  {
    if stamps != [] {
      OnlyMembers(stamps[..|stamps| - 1], c, x);
      assert stamps == stamps[..|stamps| - 1] + [stamps[|stamps| - 1]];
    }
  }

  lemma WireStampsFacts(stamps: seq<Stamp>)
    ensures forall c :: Only(WireStamps(stamps), {c}) == if c in NON_SENDABLE then [] else Only(stamps, {c})
    ensures forall x :: x in WireStamps(stamps) <==> x in stamps && x.cls !in NON_SENDABLE
    ensures WireStamps(WireStamps(stamps)) == WireStamps(stamps)
  {
    var classes := ClassesOf(stamps);
    ClassesOfFacts(stamps);
    SendableFacts(classes);
    DropOfFlatten(classes, stamps);
    forall c ensures Only(WireStamps(stamps), {c}) == if c in NON_SENDABLE then [] else Only(stamps, {c}) {
      OnlyOfFlatten(Sendable(classes), stamps, c);
    }
    forall x: Stamp ensures x in WireStamps(stamps) <==> x in stamps && x.cls !in NON_SENDABLE {
      OnlyMembers(stamps, x.cls, x);
      OnlyMembers(WireStamps(stamps), x.cls, x);
    }
    GroupedIsFixed(Sendable(classes), stamps);
    DropNothing(WireStamps(stamps), NON_SENDABLE);
  }

  lemma {:induction false} DecodeEncodedStamps(reg: Registry, stamps: seq<Stamp>)
    requires forall s :: s in stamps ==> Knows(reg, s.cls)
    ensures DecodeAll(reg, EncodeAll(stamps)) == Ok(stamps)
  {
    if stamps != [] {
      var init := stamps[..|stamps| - 1];
      DecodeEncodedStamps(reg, init);
      var entries := EncodeAll(stamps);
      assert entries[..|entries| - 1] == EncodeAll(init);
      assert stamps == init + [stamps[|stamps| - 1]];
      DecodeEncodedStamp(reg, stamps[|stamps| - 1]);
    }
  }

  lemma DecodeEncodedStamp(reg: Registry, s: Stamp)
    ensures DecodeStamp(reg, EncodeStamp(s)) == Reconstruct(reg, ClassName(s.cls), s.data)
  {
    var fields := map["type" := Str(ClassName(s.cls)), "data" := Obj(s.data)];
    assert EncodeStamp(s) == Obj(fields);
    assert fields["type"] == Str(ClassName(s.cls)) && fields["data"] == Obj(s.data);
  }

  lemma DecodesToWireStamps(reg: Registry, e: Envelope)
    requires KnowsAll(reg, e)
    ensures Decode(reg, Encoded(e)) == Ok(Envelope(e.message, WireStamps(e.stamps)))
  {
    WireStampsFacts(e.stamps);
    DecodeEncodedStamps(reg, WireStamps(e.stamps));
  }

  lemma EncodingIsStable(e: Envelope)
    ensures Encoded(Envelope(e.message, WireStamps(e.stamps))) == Encoded(e)
  {
    WireStampsFacts(e.stamps);
  }

  lemma LastOnTheWire(stamps: seq<Stamp>, c: Class)
    ensures LastOf(WireStamps(stamps), c) == if c in NON_SENDABLE then None else LastOf(stamps, c)
  {
    hide WireStamps, Only, LastOf;
    WireStampsFacts(stamps);
    LastIsEndOfAll(WireStamps(stamps), c);
    LastIsEndOfAll(stamps, c);
  }

  /**
   * With every class registered under its own name, the message and, class by class, every
   * sendable stamp survive in order; and encoding the decoded envelope gives the same bytes.
   */
  lemma RoundTrip(reg: Registry, e: Envelope)
    requires KnowsAll(reg, e)
    ensures Decode(reg, Encoded(e)).Ok?
    ensures SameContent(e, Decode(reg, Encoded(e)).value)
    ensures forall c :: Decode(reg, Encoded(e)).value.Last(c) == if c in NON_SENDABLE then None else e.Last(c)
    ensures Encoded(Decode(reg, Encoded(e)).value) == Encoded(e)
  {
    hide Decode, Encoded, KnowsAll, WireStamps;
    DecodesToWireStamps(reg, e);
    WireStampsFacts(e.stamps);
    forall c ensures LastOf(WireStamps(e.stamps), c) == if c in NON_SENDABLE then None else e.Last(c) {
      LastOnTheWire(e.stamps, c);
    }
    EncodingIsStable(e);
  }

  lemma {:induction false} DecodedClasses(reg: Registry, stamps: seq<Stamp>)
    requires DecodeAll(reg, EncodeAll(stamps)).Ok?
    ensures forall s :: s in stamps ==> ClassName(s.cls) in reg
    ensures forall x :: x in DecodeAll(reg, EncodeAll(stamps)).value ==>
      exists s :: s in stamps && ClassName(s.cls) in reg && x.cls == reg[ClassName(s.cls)]
  {
    if stamps != [] {
      var init, last := stamps[..|stamps| - 1], stamps[|stamps| - 1];
      var entries := EncodeAll(stamps);
      assert entries[..|entries| - 1] == EncodeAll(init);
      DecodedClasses(reg, init);
      assert stamps == init + [last];
      var done := DecodeAll(reg, EncodeAll(init)).value;
      forall x | x in DecodeAll(reg, entries).value
        ensures exists s :: s in stamps && ClassName(s.cls) in reg && x.cls == reg[ClassName(s.cls)]
      {
        if x in done {
          var s :| s in init && ClassName(s.cls) in reg && x.cls == reg[ClassName(s.cls)];
          assert s in stamps;
        } else {
          assert last in stamps && x.cls == reg[ClassName(last.cls)];
        }
      }
    }
  }

  /** The round trip keeps the content exactly when the registry knows every class involved. */
  lemma RoundTripIff(types: seq<Class>, e: Envelope)
    ensures var reg := Register(types);
      (Decode(reg, Encoded(e)).Ok? && SameContent(e, Decode(reg, Encoded(e)).value)) <==> KnowsAll(reg, e)
  {
    var reg := Register(types);
    if KnowsAll(reg, e) {
      RoundTrip(reg, e);
    } else if Decode(reg, Encoded(e)).Ok? && SameContent(e, Decode(reg, Encoded(e)).value) {
      var d := Decode(reg, Encoded(e)).value;
      var wire := WireStamps(e.stamps);
      WireStampsFacts(e.stamps);
      RegistryNames(types);
      DecodedClasses(reg, wire);
      var s :| s in e.stamps && s.cls !in NON_SENDABLE && !Knows(reg, s.cls);
      assert s in wire;
      OnlyMembers(e.stamps, s.cls, s);
      assert s in d.AllOf(s.cls);
      OnlyMembers(d.stamps, s.cls, s);
    }
  }

  // ---- What does not come from `encode` ----------------------------------------------

  predicate Carries(entry: Json, field: string) { entry.Obj? && field in entry.fields }

  predicate HasType(entry: Json) { Carries(entry, "type") && entry.fields["type"].Str? }

  predicate HasData(entry: Json) {
    Carries(entry, "data") && (entry.fields["data"].Obj? || entry.fields["data"].Arr?)
  }

  /** An entry of the stamps header that can be restored. */
  predicate Fits(reg: Registry, entry: Json) {
    HasType(entry) && HasData(entry) && entry.fields["type"].s in reg
  }

  /** The properties `data` gives: the fields of an object, the elements of an array under their indices. */
  ghost predicate Gives(data: Json, fields: Record) {
    match data
    case Obj(own) => fields == own
    case Arr(items) =>
      && (forall i: nat :: i < |items| ==> Decimal(i) in fields && fields[Decimal(i)] == items[i])
      && (forall k :: k in fields ==> exists i: nat :: i < |items| && Decimal(i) == k)
    case _ => false
  }

  ghost predicate Restores(reg: Registry, entry: Json, s: Stamp) {
    Fits(reg, entry) && s.cls == reg[entry.fields["type"].s] && Gives(entry.fields["data"], s.data)
  }

  /** `e` is what is wrong with an entry that does not fit, the first of its checks that fails. */
  predicate Blames(reg: Registry, entry: Json, e: SerializationError) {
    match e
    case StampNotObject => !entry.Obj? && !entry.Arr?
    case StampWithoutType => (entry.Obj? || entry.Arr?) && !HasType(entry)
    case StampWithoutData => HasType(entry) && !HasData(entry)
    case UnknownType(name) => HasType(entry) && HasData(entry) && name == entry.fields["type"].s && name !in reg
    case _ => false
  }

  lemma {:induction false} IndexedGives(items: seq<Json>)
    ensures Gives(Arr(items), IndexedFields(items))
  {
    if items != [] {
      var init, n := items[..|items| - 1], |items| - 1;
      IndexedGives(init);
      var fields, before := IndexedFields(items), IndexedFields(init);
      forall i: nat | i < |items| ensures Decimal(i) in fields && fields[Decimal(i)] == items[i] {
        if i < n && Decimal(i) == Decimal(n) { DecimalIsInjective(i, n); }
        if i < n { assert init[i] == items[i]; }
      }
      forall k | k in fields ensures exists i: nat :: i < |items| && Decimal(i) == k {
        if k != Decimal(n) {
          var i: nat :| i < |init| && Decimal(i) == k;
          assert i < |items| && Decimal(i) == k;
        }
      }
    }
  }

  lemma StampDecodesIff(reg: Registry, entry: Json)
    ensures match DecodeStamp(reg, entry)
      case Ok(s) => Restores(reg, entry, s)
      case Err(e) => Blames(reg, entry, e) && !Fits(reg, entry)
  {
    if HasType(entry) && HasData(entry) && entry.fields["data"].Arr? {
      IndexedGives(entry.fields["data"].items);
      hide IndexedFields, Gives;
    }
  }

  /** Every entry is restored, in order; or the error is that of the first entry that does not fit. */
  lemma {:induction false} StampsDecodeIff(reg: Registry, entries: seq<Json>)
    ensures match DecodeAll(reg, entries)
      case Ok(stamps) =>
        |stamps| == |entries| && forall i :: 0 <= i < |entries| ==> Restores(reg, entries[i], stamps[i])
      case Err(e) =>
        exists k :: 0 <= k < |entries| && Blames(reg, entries[k], e) && !Fits(reg, entries[k])
                    && forall i :: 0 <= i < k ==> Fits(reg, entries[i])
  {
    if entries != [] {
      var init, n := entries[..|entries| - 1], |entries| - 1;
      StampsDecodeIff(reg, init);
      StampDecodesIff(reg, entries[n]);
      hide DecodeStamp, Gives, Blames;
      match DecodeAll(reg, init)
      case Err(e) =>
        var k :| 0 <= k < |init| && Blames(reg, init[k], e) && !Fits(reg, init[k])
                 && forall i :: 0 <= i < k ==> Fits(reg, init[i]);
        assert entries[k] == init[k] && forall i :: 0 <= i < k ==> entries[i] == init[i];
      case Ok(done) =>
        assert forall i :: 0 <= i < n ==> entries[i] == init[i] && Restores(reg, init[i], done[i]);
        hide Fits;
        FitsAll(reg, init, done);
    }
  }

  lemma FitsAll(reg: Registry, entries: seq<Json>, stamps: seq<Stamp>)
    requires |stamps| == |entries| && forall i :: 0 <= i < |entries| ==> Restores(reg, entries[i], stamps[i])
    ensures forall i :: 0 <= i < |entries| ==> Fits(reg, entries[i])
  {
    hide Fits, Gives;
  }

  /** The header is absent, or a JSON array all of whose entries can be restored. */
  ghost predicate StampsFit(reg: Registry, raw: Option<Text>) {
    match raw
    case None => true
    case Some(text) =>
      text.OfJson? && text.value.Arr? && forall i :: 0 <= i < |text.value.items| ==> Fits(reg, text.value.items[i])
  }

  /**
   * Whatever arrives: it decodes exactly when it names a registered type, its body is a JSON object,
   * and its stamps header is absent or an array of registered, well-formed stamps; then the message
   * has exactly the body's fields, and there is one stamp for each entry, in order.
   */
  lemma DecodesIff(reg: Registry, w: EncodedEnvelope)
    ensures Decode(reg, w).Ok? <==>
      && w.messageType.Some? && w.messageType.value in reg && w.body.OfJson? && w.body.value.Obj?
      && StampsFit(reg, w.stamps)
    ensures Decode(reg, w).Ok? ==> var e := Decode(reg, w).value;
      && e.message == Instance(reg[w.messageType.value], w.body.value.fields)
      && (w.stamps.None? ==> e.stamps == [])
      && (w.stamps.Some? ==>
            && |e.stamps| == |w.stamps.value.value.items|
            && forall i :: 0 <= i < |e.stamps| ==> Restores(reg, w.stamps.value.value.items[i], e.stamps[i]))
  {
    if w.stamps.Some? && w.stamps.value.OfJson? && w.stamps.value.value.Arr? {
      var items := w.stamps.value.value.items;
      StampsDecodeIff(reg, items);
      match DecodeAll(reg, items)
      case Ok(stamps) => FitsAll(reg, items, stamps); hide Fits, Gives, DecodeAll;
      case Err(e) => hide Fits, Gives, DecodeAll;
    }
  }

  /** And what does not is refused for the first thing wrong with it. */
  lemma RefusedFor(reg: Registry, w: EncodedEnvelope)
    requires Decode(reg, w).Err?
    ensures var e := Decode(reg, w).error;
      if w.messageType.None? then e == MissingTypeHeader
      else if w.body.NotJson? then e == NotParseable
      else if !w.body.value.Obj? then e == BodyNotObject
      else if w.messageType.value !in reg then e == UnknownType(w.messageType.value)
      else
        && w.stamps.Some?
        && if w.stamps.value.NotJson? then e == NotParseable
           else if !w.stamps.value.value.Arr? then e == StampsNotArray
           else
             var items := w.stamps.value.value.items;
             exists k :: 0 <= k < |items| && Blames(reg, items[k], e) && !Fits(reg, items[k])
                         && forall i :: 0 <= i < k ==> Fits(reg, items[i])
  {
    if w.stamps.Some? && w.stamps.value.OfJson? && w.stamps.value.value.Arr? {
      StampsDecodeIff(reg, w.stamps.value.value.items);
      hide Fits, Gives, DecodeAll, Blames;
    }
  }
}
