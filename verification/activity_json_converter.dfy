/** The polymorphic activity converter: reading one JSON node into an activity through
    the activity registry (falling back to a NotFoundActivity for an unknown type name),
    and writing an activity using its runtime type. The serializer options handed to
    activity constructors and to the serializer are always a copy of the caller's options
    extended with the Input and Output converter factories. */
module ActivityJsonConverter {
  import opened Wrappers
  import opened Json
  import opened Guids

  /** Name of the discriminator property. */
  const TypeNameProperty := "typeName"

  /** Name of the property a NotFoundActivity takes its id from. It is spelt with a capital
      I and matched case-sensitively, so a document's lower-case "id" is not seen. */
  const IdProperty := "Id"

  /** Opaque handle on the host's service provider, passed to the converter factories. */
  datatype ServiceProvider = ServiceProvider(handle: nat)

  /** One entry of a serializer options' converter list. */
  datatype JsonConverter =
    | InputConverterFactory(services: ServiceProvider)
    | OutputConverterFactory(services: ServiceProvider)
    | OtherConverter(name: string)

  /** Serializer options: the ordered converter list, and every other setting, which a copy
      carries over unchanged. */
  datatype SerializerOptions = SerializerOptions(converters: seq<JsonConverter>, settings: map<string, string>)

  /** An activity as the converter sees it. A NotFoundActivity keeps only the type name that
      could not be resolved and an id; a registered activity is whatever its descriptor's
      constructor built. */
  datatype Activity =
    | NotFoundActivity(missingTypeName: string, id: string)
    | RegisteredActivity(typeName: string, id: string, state: Json)

  /** What a descriptor's constructor receives: the root element of the document and the
      extended options. */
  datatype ConstructorContext = ConstructorContext(element: Json, options: SerializerOptions)

  /** A registered activity kind; its constructor may fail, with a reason. */
  datatype ActivityDescriptor =
    ActivityDescriptor(construct: ConstructorContext -> Result<Activity, string>)

  /** The activity registry: type name to descriptor. */
  type ActivityRegistry = map<string, ActivityDescriptor>

  /** The converter instance: the registry and service provider it was built with. */
  datatype Converter = Converter(registry: ActivityRegistry, services: ServiceProvider)

  /** Why a read fails. */
  datatype ReadError =
    | ParseFailed          // the reader's content is not a JSON document
    | RootNotObject        // property lookup on a root that is not an object throws
    | MissingTypeName      // no "typeName" property
    | TypeNameNull         // "typeName" is JSON null
    | TypeNameNotString    // "typeName" is neither a string nor null: GetString throws
    | IdNotString          // unknown type and "Id" is neither a string nor null: GetString throws
    | ConstructorFailed(reason: string)  // the descriptor's constructor threw

  /** The result of a read, and the id supply after it. */
  datatype ReadOutcome = ReadOutcome(result: Result<Activity, ReadError>, ids: IdSupply)

  /** The type a value is serialized as: the declared interface, or a concrete type. */
  datatype SerializedType = ActivityInterface | ConcreteType(name: string)

  /** The call the converter makes to the serializer: value, type and options. */
  datatype SerializeCall = SerializeCall(value: Activity, asType: SerializedType, options: SerializerOptions)

  const NotFoundActivityTypeName := "NotFoundActivity"

  /** Registry lookup: none for a name that is not registered. */
  function Find(registry: ActivityRegistry, typeName: string): (r: Option<ActivityDescriptor>)
    ensures r.Some? <==> typeName in registry
    ensures r.Some? ==> r.value == registry[typeName]
  {
    if typeName in registry then Some(registry[typeName]) else None
  }

  /** The per-call options: a copy of the caller's options with exactly two converters
      appended, the Input factory and then the Output factory; everything else copied. */
  function ExtendOptions(options: SerializerOptions, services: ServiceProvider): (r: SerializerOptions)
    ensures r.settings == options.settings
    ensures |r.converters| == |options.converters| + 2
    ensures r.converters[..|options.converters|] == options.converters
    ensures r.converters[|options.converters|] == InputConverterFactory(services)
    ensures r.converters[|options.converters| + 1] == OutputConverterFactory(services)
  {
    options.(converters := options.converters + [InputConverterFactory(services), OutputConverterFactory(services)])
  }

  /** The root is an object whose property `name` holds exactly `value`. */
  predicate PropertyIs(root: Json, name: string, value: Json) {
    root.JObject? && name in root.members && root.members[name] == value
  }

  /** The root's "Id" is a string. */
  predicate HasStringId(root: Json) {
    root.JObject? && IdProperty in root.members && root.members[IdProperty].JString?
  }

  /** The root's "Id" is present but neither a string nor null. */
  predicate HasMistypedId(root: Json) {
    root.JObject? && IdProperty in root.members
    && !root.members[IdProperty].JString? && !root.members[IdProperty].JNull?
  }

  /** The discriminator of a root element, or why there is none. */
  function Discriminator(root: Json): (r: Result<string, ReadError>)
    ensures !root.JObject? ==> r == Failure(RootNotObject)
    ensures root.JObject? && TypeNameProperty !in root.members ==> r == Failure(MissingTypeName)
    ensures r.Success? <==> root.JObject? && TypeNameProperty in root.members && root.members[TypeNameProperty].JString?
    ensures r.Success? ==> r.value == root.members[TypeNameProperty].text
    ensures PropertyIs(root, TypeNameProperty, JNull) ==> r == Failure(TypeNameNull)
    ensures (root.JObject? && TypeNameProperty in root.members
             && !root.members[TypeNameProperty].JString? && !root.members[TypeNameProperty].JNull?) ==>
              r == Failure(TypeNameNotString)
  {
    match TryGetProperty(root, TypeNameProperty)
    case NotAnObject => Failure(RootNotObject)
    case Absent => Failure(MissingTypeName)
    case Present(element) =>
      match GetString(element)
      case Text(name) => Success(name)
      case NullText => Failure(TypeNameNull)
      case NotText => Failure(TypeNameNotString)
  }

  /** True when the document's "Id" is absent or null, so a NotFoundActivity gets a GUID. */
  predicate NeedsGeneratedId(root: Json) {
    root.JObject? && (IdProperty !in root.members || root.members[IdProperty].JNull?)
  }

  /** The id of a NotFoundActivity: the "Id" string verbatim (the empty string included), or
      a fresh GUID when the property is absent or null. Only that case draws from the supply. */
  function FallbackId(root: Json, ids: IdSupply): (r: (Result<string, ReadError>, IdSupply))
    requires root.JObject?
    ensures HasStringId(root) ==> r == (Success(root.members[IdProperty].text), ids)
    ensures NeedsGeneratedId(root) ==>
              && r.0.Success?
              && |r.0.value| >= GuidWidth
              && r.0.value !in Issued(ids)
              && Issued(r.1) == Issued(ids) + {r.0.value}
    ensures HasMistypedId(root) ==> r == (Failure(IdNotString), ids)
  {
    var found := TryGetProperty(root, IdProperty);
    var text := if found.Present? then GetString(found.value) else NullText;
    match text
    case Text(id) => (Success(id), ids)
    case NotText => (Failure(IdNotString), ids)
    case NullText =>
      var (guid, after) := NewGuid(ids);
      (Success(guid), after)
  }

  /** The parsed document's type name is not in the registry. */
  predicate IsUnknownType(converter: Converter, parsed: Option<Json>) {
    parsed.Some? && Discriminator(parsed.value).Success? && Discriminator(parsed.value).value !in converter.registry
  }

  /** The parsed document's type name is in the registry. */
  predicate IsKnownType(converter: Converter, parsed: Option<Json>) {
    parsed.Some? && Discriminator(parsed.value).Success? && Discriminator(parsed.value).value in converter.registry
  }

  /** Reads one activity from an already-parsed document (None: the document did not parse). */
  function Read(converter: Converter, parsed: Option<Json>, options: SerializerOptions, ids: IdSupply): (r: ReadOutcome)
    // A document that does not parse, or has no usable type name, fails with no activity.
    ensures parsed.None? ==> r == ReadOutcome(Failure(ParseFailed), ids)
    ensures (parsed.Some? && Discriminator(parsed.value).Failure?) ==>
              r == ReadOutcome(Failure(Discriminator(parsed.value).error), ids)
    // Unknown type name: a NotFoundActivity recording that name, with the fallback id; the
    // read fails only when "Id" holds something other than a string or null.
    ensures IsUnknownType(converter, parsed) ==>
              && (r.result.Success? <==> !HasMistypedId(parsed.value))
              && (r.result.Success? ==> r.result.value.NotFoundActivity?)
              && (r.result.Success? ==> r.result.value.missingTypeName == Discriminator(parsed.value).value)
              && (r.result.Failure? ==> r.result.error == IdNotString && r.ids == ids)
    ensures (IsUnknownType(converter, parsed) && HasStringId(parsed.value)) ==>
              r.result.Success? && r.result.value.id == parsed.value.members[IdProperty].text && r.ids == ids
    ensures (IsUnknownType(converter, parsed) && NeedsGeneratedId(parsed.value)) ==>
              && r.result.Success?
              && |r.result.value.id| >= GuidWidth
              && r.result.value.id !in Issued(ids)
              && Issued(r.ids) == Issued(ids) + {r.result.value.id}
    // Registered type name: exactly the constructor's outcome on the same root and the
    // extended options; a constructor failure is passed on, never turned into a fallback.
    ensures IsKnownType(converter, parsed) ==>
              var descriptor := converter.registry[Discriminator(parsed.value).value];
              var built := descriptor.construct(ConstructorContext(parsed.value, ExtendOptions(options, converter.services)));
              && r.ids == ids
              && (built.Success? ==> r.result == Success(built.value))
              && (built.Failure? ==> r.result == Failure(ConstructorFailed(built.error)))
    // Only a generated id ever draws from the supply.
    ensures Issued(ids) <= Issued(r.ids)
  {
    match parsed
    case None => ReadOutcome(Failure(ParseFailed), ids)
    case Some(root) =>
      match Discriminator(root)
      case Failure(e) => ReadOutcome(Failure(e), ids)
      case Success(typeName) =>
        match Find(converter.registry, typeName)
        case None =>
          var (id, after) := FallbackId(root, ids);
          (match id
           case Success(v) => ReadOutcome(Success(NotFoundActivity(typeName, v)), after)
           case Failure(e) => ReadOutcome(Failure(e), after))
        case Some(descriptor) =>
          var context := ConstructorContext(root, ExtendOptions(options, converter.services));
          match descriptor.construct(context)
          case Success(activity) => ReadOutcome(Success(activity), ids)
          case Failure(reason) => ReadOutcome(Failure(ConstructorFailed(reason)), ids)
  }

  /** The concrete type of an activity value. */
  function RuntimeType(value: Activity): (r: SerializedType)
    ensures r != ActivityInterface
    ensures value.NotFoundActivity? ==> r == ConcreteType(NotFoundActivityTypeName)
    ensures value.RegisteredActivity? ==> r == ConcreteType(value.typeName)
  {
    match value
    case NotFoundActivity(_, _) => ConcreteType(NotFoundActivityTypeName)
    case RegisteredActivity(typeName, _, _) => ConcreteType(typeName)
  }

  /** Writes an activity: serializes it as its runtime type, never as the interface type,
      with the same extended options a read hands to constructors. */
  function Write(converter: Converter, value: Activity, options: SerializerOptions): (r: SerializeCall)
    ensures r.value == value
    ensures r.asType != ActivityInterface
    ensures r.asType == RuntimeType(value)
    ensures r.options.settings == options.settings
    ensures r.options.converters == options.converters
              + [InputConverterFactory(converter.services), OutputConverterFactory(converter.services)]
  {
    SerializeCall(value, RuntimeType(value), ExtendOptions(options, converter.services))
  }

  /** Write derives the same options that Read hands to a registered type's constructor:
      for a registered type name, reading is the constructor applied to the root element and
      exactly the options Write would serialize with. */
  lemma ReadAndWriteShareOptions(converter: Converter, root: Json, options: SerializerOptions, ids: IdSupply, value: Activity)
    requires Discriminator(root).Success? && Discriminator(root).value in converter.registry
    ensures var built := converter.registry[Discriminator(root).value].construct(
                           ConstructorContext(root, Write(converter, value, options).options));
            && (built.Success? ==> Read(converter, Some(root), options, ids).result == Success(built.value))
            && (built.Failure? ==> Read(converter, Some(root), options, ids).result == Failure(ConstructorFailed(built.error)))
  {
  }

  /** Two documents with no usable "Id" read one after the other, threading the id supply,
      get distinct generated ids, and neither id was handed out before the first read. */
  lemma SuccessiveFallbacksGetDistinctIds(
    converter: Converter, first: Json, second: Json, options: SerializerOptions, ids: IdSupply)
    requires Discriminator(first).Success? && Discriminator(first).value !in converter.registry
    requires Discriminator(second).Success? && Discriminator(second).value !in converter.registry
    requires NeedsGeneratedId(first) && NeedsGeneratedId(second)
    ensures var r1 := Read(converter, Some(first), options, ids);
            var r2 := Read(converter, Some(second), options, r1.ids);
            && r1.result.Success? && r2.result.Success?
            && r1.result.value.id != r2.result.value.id
            && r1.result.value.id !in Issued(ids)
            && r2.result.value.id !in Issued(ids)
  {
  }

  /** A type name that is unknown degrades, under the current registry, to a NotFoundActivity
      recording that name (unless "Id" is mistyped); re-reading the same document against a
      registry that gained the name yields that descriptor's activity instead, and draws no id. */
  lemma LaterRegistrationResolves(
    converter: Converter, descriptor: ActivityDescriptor, root: Json, options: SerializerOptions, ids: IdSupply)
    requires Discriminator(root).Success? && Discriminator(root).value !in converter.registry
    requires descriptor.construct(ConstructorContext(root, ExtendOptions(options, converter.services))).Success?
    ensures var earlier := Read(converter, Some(root), options, ids);
            !HasMistypedId(root) ==>
              && earlier.result.Success?
              && earlier.result.value == NotFoundActivity(Discriminator(root).value, earlier.result.value.id)
    ensures var name := Discriminator(root).value;
            var later := converter.(registry := converter.registry[name := descriptor]);
            var built := descriptor.construct(ConstructorContext(root, ExtendOptions(options, converter.services)));
            Read(later, Some(root), options, ids) == ReadOutcome(Success(built.value), ids)
  {
  }
}
