# Elsa activity converter and Elasticsearch provisioning, modelled in Dafny

This project models two small decision procedures of the Elsa workflow engine.

- The **activity JSON converter** (`ActivityJsonConverter`). `Read` turns one parsed JSON node
  into an activity. It requires a `typeName` discriminator and looks it up in the activity
  registry. A registered name is built by the descriptor's constructor, which receives the root
  element and a copy of the caller's serializer options extended with the Input and Output
  converter factories. An unregistered name degrades to a `NotFoundActivity` that records the
  name and an id: the document's `"Id"` string, or a freshly generated GUID. `Write` derives the
  same extended options and serializes the activity as its runtime type.
- The **Elasticsearch extensions** (`ElasticExtensions`). `ConfigureAuthentication` picks the
  connection's credentials: an API key first, then user name and password, else nothing.
  `ConfigureIndicesAndAliases` walks the document types. For each one it looks up the alias,
  derives the index name, skips the type if that index exists, and otherwise creates the index
  bound to the alias. The walk stops at the first document type that has no configured alias
  (the lookup throws) or whose create the store rejects.

Files:

- `wrappers.dfy`: `Option` (also a nullable .NET reference) and `Result` (a value or the error a
  call throws).
- `json.dfy`: the parsed JSON value, property lookup by exact name, and reading an element as a
  string (text, null, or an exception for other kinds).
- `guids.dfy`: the id supply. Real GUIDs are random. The model draws them from a counter: id `n`
  is `n` in lower-case hexadecimal, padded to at least the 32 digits of the "N" format. A
  hexadecimal round trip proves that different counter values give different ids.
- `activity_json_converter.dfy`: the registry, the serializer options, `Read` and `Write`.
- `elastic_extensions.dfy`: credential choice, the per-type provisioning step, the recursive
  reference definition of the pass, and the loop that is proved equal to it.

The code differs from what a reader of the wire format might expect, and the model follows the code:

- The fallback id is read from `"Id"` with a capital I, matched case-sensitively. A lower-case
  `"id"` is ignored.
- Only an absent or null `"Id"` gets a generated GUID. An empty string `""` is kept as the id.
- An unknown type name does not always read successfully. When `"Id"` is present but is neither a
  string nor null (a number, say), reading it as a string throws, and `Read` fails with
  `IdNotString`.
- A `typeName` that is JSON null reaches the registry lookup as a null name. The registry's own
  code is not part of this model, so this case is modelled as the failure `TypeNameNull`.

## Model

| member | source | states |
|---|---|---|
| ActivityJsonConverter.Read | src/modules/Elsa.Workflows.Management/Serialization/Converters/ActivityJsonConverter.cs:25-54 | A document that fails to parse, or has no string `typeName`, fails and yields no activity. An unknown type name yields a NotFoundActivity carrying exactly that name; it fails only for a mistyped `"Id"`. A string `"Id"` becomes the id verbatim. An absent or null `"Id"` gets an id never issued before, and it is the only one added. A registered name yields exactly the constructor's outcome on the same root and the extended options. A constructor failure is passed on, never turned into a NotFoundActivity. |
| Json.TryGetProperty | src/modules/Elsa.Workflows.Management/Serialization/Converters/ActivityJsonConverter.cs:30-38 | Looking a property up on an element that is not an object throws. On an object, the lookup finds a value exactly when a property with that exact, case-sensitive name exists, and the value is that property's. |
| Json.GetString | src/modules/Elsa.Workflows.Management/Serialization/Converters/ActivityJsonConverter.cs:30-38 | Reading an element as a string gives its text exactly when it is a JSON string. A JSON null reads as a null reference. Every other kind of element throws. |
| ActivityJsonConverter.Discriminator | src/modules/Elsa.Workflows.Management/Serialization/Converters/ActivityJsonConverter.cs:30-33 | A type name exists exactly when the root is an object whose `typeName` is a string, and it is that string. A non-object root, a missing property, a null value and a value of any other kind are four distinct errors. |
| ActivityJsonConverter.FallbackId | src/modules/Elsa.Workflows.Management/Serialization/Converters/ActivityJsonConverter.cs:38-42 | A string `"Id"` is kept unchanged, the empty string included, and draws nothing from the supply. An absent or null `"Id"` yields a fresh id of at least 32 digits, outside every earlier id. Any other kind of `"Id"` is an error. |
| ActivityJsonConverter.Find | src/modules/Elsa.Workflows.Management/Serialization/Converters/ActivityJsonConverter.cs:34 | The lookup returns a descriptor exactly when the name is registered, and then it is that name's descriptor. |
| ActivityJsonConverter.ExtendOptions | src/modules/Elsa.Workflows.Management/Serialization/Converters/ActivityJsonConverter.cs:46-48 | The new options keep the caller's converters as a prefix and every other setting. Exactly two converters follow: the Input factory, then the Output factory. |
| ActivityJsonConverter.RuntimeType | src/modules/Elsa.Workflows.Management/Serialization/Converters/ActivityJsonConverter.cs:61 | An activity's runtime type is always a concrete type, never the activity interface. |
| ActivityJsonConverter.Write | src/modules/Elsa.Workflows.Management/Serialization/Converters/ActivityJsonConverter.cs:56-62 | The value is handed to the serializer unchanged, typed as its runtime type and not as the interface. The options are the caller's settings with the two factories appended in the same order Read uses. |
| ActivityJsonConverter.ReadAndWriteShareOptions | src/modules/Elsa.Workflows.Management/Serialization/Converters/ActivityJsonConverter.cs:46-60 | For a registered type, Read builds the activity with exactly the options Write would serialize it with. |
| ActivityJsonConverter.SuccessiveFallbacksGetDistinctIds | src/modules/Elsa.Workflows.Management/Serialization/Converters/ActivityJsonConverter.cs:36-43 | Two unknown-type documents without a usable `"Id"`, read one after the other, get two distinct ids, and neither was issued before. |
| ActivityJsonConverter.LaterRegistrationResolves | src/modules/Elsa.Workflows.Management/Serialization/Converters/ActivityJsonConverter.cs:34-53 | While a type name is unknown, a document whose `"Id"` is not mistyped reads as a NotFoundActivity recording that name. Once the registry gains a descriptor for the name, re-reading the same document gives exactly that constructor's activity and draws no id. |
| Guids.NewGuid | src/modules/Elsa.Workflows.Management/Serialization/Converters/ActivityJsonConverter.cs:42 | A generated id has at least 32 characters and differs from every id generated before. After the call it is the only id added to the issued set. |
| Guids.GuidText | src/modules/Elsa.Workflows.Management/Serialization/Converters/ActivityJsonConverter.cs:42 | The "N" text of a GUID is at least 32 lower-case hexadecimal digits, and parsing it back gives the counter value it was made from. |
| ElasticExtensions.ConfigureAuthentication | src/modules/Elsa.Elasticsearch/Extensions/ElasticExtensions.cs:11-23 | A non-empty API key selects API-key authentication and leaves basic authentication as it was. Basic credentials change only without a key and with both a user name and a password, and then they are exactly those two. Otherwise the settings are returned unchanged. |
| ElasticExtensions.ConfigureAuthenticationIdempotent | src/modules/Elsa.Elasticsearch/Extensions/ElasticExtensions.cs:11-23 | Configuring authentication twice with the same options gives the same settings as configuring it once. |
| ElasticExtensions.AddIndex | src/modules/Elsa.Elasticsearch/Extensions/ElasticExtensions.cs:47-48 | A successful create adds exactly the new index and binds the alias to it. A store whose bindings all name existing indices stays that way. |
| ElasticExtensions.ProvisionType | src/modules/Elsa.Elasticsearch/Extensions/ElasticExtensions.cs:40-51 | A type without an alias fails before any create. An existing index means no create and no change. A missing index gets exactly one create: on success it exists and is bound to the alias, and on rejection the store's exception is raised and the store is unchanged. No other index or binding changes. |
| ElasticExtensions.Provision | src/modules/Elsa.Elasticsearch/Extensions/ElasticExtensions.cs:36-54 | Indices are only added, and bindings of existing indices are kept. Every new index was requested and is bound to an alias it was generated from. Creates target only indices that were missing, each at most once, and there are no more creates than document types. A pass that completes leaves every document type with its index. |
| ElasticExtensions.ProvisionFrame | src/modules/Elsa.Elasticsearch/Extensions/ElasticExtensions.cs:38-53 | Over a whole pass, for any store, an index the pass did not request keeps its binding, or its lack of one. Every new index is bound to the configured alias of one of the document types. |
| ElasticExtensions.ProvisionCreatesAreGenerated | src/modules/Elsa.Elasticsearch/Extensions/ElasticExtensions.cs:40-48 | Every create a pass issues targets the index generated from the configured alias of one of the listed document types. |
| ElasticExtensions.ProvisionCompletedCreatesExist | src/modules/Elsa.Elasticsearch/Extensions/ElasticExtensions.cs:47-50 | After a pass that ends without error, every index it asked to create exists. |
| ElasticExtensions.ProvisionMissingAliasIsListed | src/modules/Elsa.Elasticsearch/Extensions/ElasticExtensions.cs:38-40 | A pass stopped by a missing alias names a listed document type that really has no configured alias. |
| ElasticExtensions.ProvisionRejectedIsLastCreate | src/modules/Elsa.Elasticsearch/Extensions/ElasticExtensions.cs:47-51 | A pass stopped by a rejected create reports the last create it issued, and that index does not exist afterwards. |
| ElasticExtensions.ConfigureIndicesAndAliases | src/modules/Elsa.Elasticsearch/Extensions/ElasticExtensions.cs:36-54 | The loop issues the same creates, reaches the same store and stops with the same error as the reference definition. A completed loop leaves every type's index in place. |
| ElasticExtensions.ProvisionedPassIsNoop | src/modules/Elsa.Elasticsearch/Extensions/ElasticExtensions.cs:43-45 | When every type's index already exists, a pass issues no create and changes nothing, whatever the store would answer. |
| ElasticExtensions.ProvisionIdempotent | src/modules/Elsa.Elasticsearch/Extensions/ElasticExtensions.cs:38-53 | After a pass completes without error, a second pass with the same alias configuration issues zero creates and leaves the store as it was. |
| ElasticExtensions.FailureStopsThePass | src/modules/Elsa.Elasticsearch/Extensions/ElasticExtensions.cs:50-51 | Once a pass has failed, document types after the failing one are never processed. Appending more types changes neither the store, the creates nor the error. |
| ElasticExtensions.MissingAliasFails | src/modules/Elsa.Elasticsearch/Extensions/ElasticExtensions.cs:40 | A document type with no configured alias makes the pass fail. |
| ElasticExtensions.TwoPassesCreateOnce | src/modules/Elsa.Elasticsearch/Extensions/ElasticExtensions.cs:36-54 | Take one type `DocTypeA` with alias `alias-a` and no index yet. The first pass creates exactly that alias's index, and the second pass creates nothing. |

## Left out

- `ConfigureMapping` (ElasticExtensions.cs:25-34): it discovers configuration types by reflection, instantiates them and calls their `Apply`, none of which is visible.
- Parsing with the UTF-8 reader: `Read` receives the parse result as an `Option` (None means the content is not a JSON document).
- Writing with the UTF-8 writer, and the serializer itself: `Write` returns the serializer call it makes (value, type, options), not the bytes. So no read/write round trip is stated.
- The Input/Output converter factories, the constructor context's own logic, and descriptor constructors: factories are opaque converter entries and constructors are arbitrary functions supplied with the registry.
- Guids.NewGuid: real GUIDs are random; ids come from a counter, so distinctness is proved rather than probable. The exact 32-digit width is not modelled beyond "at least 32 digits".
- JSON objects are maps, so a document that repeats a property name is not modelled.
- The activity registry's handling of a null name: its code is not part of this model, so a null `typeName` is the failure `TypeNameNull`.
- `Utils.GetElasticDocumentTypes` (reflection) is a sequence-of-type-names parameter. `Utils.GenerateIndexName` is a function parameter, so it is deterministic by construction. If the real one depends on the clock, idempotence does not follow.
- The index existence check is assumed to report the store's true state. A failed existence request, which the client reports as "does not exist", is not modelled.
- A rejected create is assumed to leave the store unchanged.
- The client's credential setters are modelled as two independent slots, one for the API key and one for basic credentials. Which slot the client prefers when both are set is not modelled.
- Mutation of the caller's options object: options are values here, so the caller's options are unchanged by construction.
- Concurrency: nothing in the modelled code is concurrent.
