/** Connection and provisioning rules for the Elasticsearch document store: choosing the
    credentials a connection authenticates with, and creating, for every document type, a
    versioned index bound to the type's alias unless that index already exists. */
module ElasticExtensions {
  import opened Wrappers

  // ---------------------------------------------------------------------------
  // Authentication
  // ---------------------------------------------------------------------------

  /** A .NET string that is null or empty. */
  predicate IsNullOrEmpty(s: Option<string>) {
    s.None? || s.value == ""
  }

  /** The store options: each credential may be null. */
  datatype ElasticsearchOptions = ElasticsearchOptions(apiKey: Option<string>, username: Option<string>, password: Option<string>)

  datatype BasicCredentials = BasicCredentials(username: string, password: string)

  /** Connection settings: the API-key credentials slot, the basic-authentication slot, and
      every other setting. Each authentication call sets its own slot only. */
  datatype ConnectionSettings = ConnectionSettings(
    apiKeyCredentials: Option<string>,
    basicCredentials: Option<BasicCredentials>,
    other: map<string, string>)

  /** API-key authentication wins whenever a key is given; basic authentication is configured
      only without a key and with both a user name and a password; otherwise nothing changes. */
  function ConfigureAuthentication(settings: ConnectionSettings, options: ElasticsearchOptions): (r: ConnectionSettings)
    ensures r.other == settings.other
    ensures !IsNullOrEmpty(options.apiKey) ==>
              r.apiKeyCredentials == options.apiKey && r.basicCredentials == settings.basicCredentials
    ensures r.basicCredentials != settings.basicCredentials ==>
              IsNullOrEmpty(options.apiKey) && !IsNullOrEmpty(options.username) && !IsNullOrEmpty(options.password)
    ensures (IsNullOrEmpty(options.apiKey) && !IsNullOrEmpty(options.username) && !IsNullOrEmpty(options.password)) ==>
              r.apiKeyCredentials == settings.apiKeyCredentials
              && r.basicCredentials == Some(BasicCredentials(options.username.value, options.password.value))
    ensures (IsNullOrEmpty(options.apiKey) && (IsNullOrEmpty(options.username) || IsNullOrEmpty(options.password))) ==>
              r == settings
  {
    if !IsNullOrEmpty(options.apiKey) then
      settings.(apiKeyCredentials := options.apiKey)
    else if !IsNullOrEmpty(options.username) && !IsNullOrEmpty(options.password) then
      settings.(basicCredentials := Some(BasicCredentials(options.username.value, options.password.value)))
    else
      settings
  }

  /** Configuring authentication a second time with the same options changes nothing more. */
  lemma ConfigureAuthenticationIdempotent(settings: ConnectionSettings, options: ElasticsearchOptions)
    ensures ConfigureAuthentication(ConfigureAuthentication(settings, options), options)
            == ConfigureAuthentication(settings, options)
  {
  }

  // ---------------------------------------------------------------------------
  // Index and alias provisioning
  // ---------------------------------------------------------------------------

  /** The store: the indices that exist, and the alias each index is bound to. */
  datatype Store = Store(indices: set<string>, aliasOf: map<string, string>)

  /** Every alias binding names an existing index. */
  predicate WellFormed(store: Store) {
    store.aliasOf.Keys <= store.indices
  }

  /** The store's answer to a create request. */
  datatype CreateResponse = Acknowledged | Rejected(originalException: string)

  /** Why provisioning stops. */
  datatype ProvisionError =
    | KeyNotFound(typeName: string)                    // the type has no alias configured
    | CreateFailed(index: string, exception: string)   // the store rejected a create

  /** The store after provisioning, every create request issued (in order), and the error
      that stopped the loop, if any. */
  datatype Provisioning = Provisioning(store: Store, creates: seq<string>, error: Option<ProvisionError>)

  /** Creating `index` bound to `alias` in a store where the index does not exist. */
  function AddIndex(store: Store, index: string, alias: string): (r: Store)
    ensures r.indices == store.indices + {index}
    ensures r.aliasOf == store.aliasOf[index := alias]
    ensures WellFormed(store) ==> WellFormed(r)
  {
    Store(store.indices + {index}, store.aliasOf[index := alias])
  }

  /** Provisioning one document type. `generateIndexName` derives the index name from the
      alias; `create` is the store's answer to a create request for (index, alias). */
  function ProvisionType(
    store: Store, typeName: string, aliasConfig: map<string, string>,
    generateIndexName: string -> string, create: (string, string) -> CreateResponse): (r: Provisioning)
    ensures typeName !in aliasConfig ==> r == Provisioning(store, [], Some(KeyNotFound(typeName)))
    ensures (typeName in aliasConfig && generateIndexName(aliasConfig[typeName]) in store.indices) ==>
              r == Provisioning(store, [], None)
    ensures (typeName in aliasConfig && generateIndexName(aliasConfig[typeName]) !in store.indices) ==>
              var alias := aliasConfig[typeName];
              var index := generateIndexName(alias);
              && r.creates == [index]
              && (create(index, alias).Acknowledged? ==>
                    r.error.None? && index in r.store.indices
                    && index in r.store.aliasOf && r.store.aliasOf[index] == alias)
              && (create(index, alias).Rejected? ==>
                    r.store == store && r.error == Some(CreateFailed(index, create(index, alias).originalException)))
    // Nothing but the created index and its alias binding changes.
    ensures forall i :: i !in r.creates ==> (i in r.store.indices <==> i in store.indices)
    ensures forall i :: i !in r.creates && i in store.aliasOf ==> i in r.store.aliasOf && r.store.aliasOf[i] == store.aliasOf[i]
    ensures forall i :: i !in r.creates && i in r.store.aliasOf ==> i in store.aliasOf
  {
    if typeName !in aliasConfig then
      Provisioning(store, [], Some(KeyNotFound(typeName)))
    else
      var alias := aliasConfig[typeName];
      var index := generateIndexName(alias);
      if index in store.indices then
        Provisioning(store, [], None)
      else
        match create(index, alias)
        case Acknowledged => Provisioning(AddIndex(store, index, alias), [index], None)
        case Rejected(exception) => Provisioning(store, [index], Some(CreateFailed(index, exception)))
  }

  /** Every document type has an alias, and the index generated from it exists. */
  ghost predicate AllProvisioned(store: Store, types: seq<string>, aliasConfig: map<string, string>, generateIndexName: string -> string) {
    forall t :: t in types ==> t in aliasConfig && generateIndexName(aliasConfig[t]) in store.indices
  }

  /** `alias` is the configured alias of one of the document types. */
  ghost predicate ConfiguredAlias(alias: string, types: seq<string>, aliasConfig: map<string, string>) {
    exists t :: t in types && t in aliasConfig && aliasConfig[t] == alias
  }

  /** The reference definition of the provisioning pass: the document types in order, stopping
      at the first error. */
  function Provision(
    store: Store, types: seq<string>, aliasConfig: map<string, string>,
    generateIndexName: string -> string, create: (string, string) -> CreateResponse): (r: Provisioning)
    // Indices are only ever added, and bindings of existing indices are kept.
    ensures store.indices <= r.store.indices
    ensures WellFormed(store) ==> WellFormed(r.store)
    ensures forall i :: i in store.indices && i in store.aliasOf ==> i in r.store.aliasOf && r.store.aliasOf[i] == store.aliasOf[i]
    // Every new index was requested, and is bound to an alias it was generated from.
    ensures forall i :: i in r.store.indices && i !in store.indices ==> i in r.creates
    ensures forall i :: i in r.store.indices && i !in store.indices ==>
              i in r.store.aliasOf && generateIndexName(r.store.aliasOf[i]) == i
    // Creates are issued only for missing indices, at most once per index, at most once per type.
    ensures forall k :: 0 <= k < |r.creates| ==> r.creates[k] !in store.indices
    ensures forall k, l :: 0 <= k < l < |r.creates| ==> r.creates[k] != r.creates[l]
    ensures |r.creates| <= |types|
    // A completed pass leaves every document type with its index.
    ensures r.error.None? ==> AllProvisioned(r.store, types, aliasConfig, generateIndexName)
    decreases |types|
  {
    if |types| == 0 then
      Provisioning(store, [], None)
    else
      var step := ProvisionType(store, types[0], aliasConfig, generateIndexName, create);
      if step.error.Some? then
        step
      else
        var rest := Provision(step.store, types[1..], aliasConfig, generateIndexName, create);
        Provisioning(rest.store, step.creates + rest.creates, rest.error)
  }

  /** The frame of a whole pass: an index the pass did not request keeps its binding, or its
      lack of one, whatever the store; and every new index is bound to the configured alias of
      one of the document types. */
  lemma {:induction false} ProvisionFrame(
    store: Store, types: seq<string>, aliasConfig: map<string, string>,
    generateIndexName: string -> string, create: (string, string) -> CreateResponse)
    ensures var r := Provision(store, types, aliasConfig, generateIndexName, create);
            forall i :: i !in r.creates ==> (i in r.store.aliasOf <==> i in store.aliasOf)
    ensures var r := Provision(store, types, aliasConfig, generateIndexName, create);
            forall i :: i !in r.creates && i in store.aliasOf ==> r.store.aliasOf[i] == store.aliasOf[i]
    ensures var r := Provision(store, types, aliasConfig, generateIndexName, create);
            forall i :: i in r.store.indices && i !in store.indices ==>
              i in r.store.aliasOf && ConfiguredAlias(r.store.aliasOf[i], types, aliasConfig)
    decreases |types|
  {
    if |types| > 0 {
      var step := ProvisionType(store, types[0], aliasConfig, generateIndexName, create);
      if step.error.None? {
        ProvisionFrame(step.store, types[1..], aliasConfig, generateIndexName, create);
        var rest := Provision(step.store, types[1..], aliasConfig, generateIndexName, create);
        forall i | i in rest.store.indices && i !in store.indices
          ensures i in rest.store.aliasOf && ConfiguredAlias(rest.store.aliasOf[i], types, aliasConfig)
        {
          if i in step.store.indices {
            assert i in step.creates;
            assert rest.store.aliasOf[i] == aliasConfig[types[0]];
          } else {
            var t :| t in types[1..] && t in aliasConfig && aliasConfig[t] == rest.store.aliasOf[i];
            assert t in types;
          }
        }
      }
    }
  }

  /** `index` is the index name generated from the configured alias of one of the document types. */
  ghost predicate GeneratedIndexOf(
    index: string, types: seq<string>, aliasConfig: map<string, string>, generateIndexName: string -> string) {
    exists t :: t in types && t in aliasConfig && index == generateIndexName(aliasConfig[t])
  }

  /** Every create a pass issues targets the index generated from the configured alias of a
      listed document type. */
  lemma {:induction false} ProvisionCreatesAreGenerated(
    store: Store, types: seq<string>, aliasConfig: map<string, string>,
    generateIndexName: string -> string, create: (string, string) -> CreateResponse)
    ensures var r := Provision(store, types, aliasConfig, generateIndexName, create);
            forall k :: 0 <= k < |r.creates| ==> GeneratedIndexOf(r.creates[k], types, aliasConfig, generateIndexName)
    decreases |types|
  {
    if |types| > 0 {
      ProvisionHead(store, types, aliasConfig, generateIndexName, create);
      var step := ProvisionType(store, types[0], aliasConfig, generateIndexName, create);
      if step.error.None? {
        ProvisionCreatesAreGenerated(step.store, types[1..], aliasConfig, generateIndexName, create);
        var rest := Provision(step.store, types[1..], aliasConfig, generateIndexName, create);
        GeneratedAcrossConcat(step.creates, rest.creates, types, aliasConfig, generateIndexName);
      } else {
        GeneratedAcrossConcat(step.creates, [], types, aliasConfig, generateIndexName);
        assert step.creates + [] == step.creates;
      }
    }
  }

  /** The creates of the first type followed by those of the remaining types all target generated
      indices of listed types. */
  lemma GeneratedAcrossConcat(
    first: seq<string>, rest: seq<string>, types: seq<string>, aliasConfig: map<string, string>,
    generateIndexName: string -> string)
    requires |types| > 0
    requires forall k :: 0 <= k < |first| ==> types[0] in aliasConfig && first[k] == generateIndexName(aliasConfig[types[0]])
    requires forall k :: 0 <= k < |rest| ==> GeneratedIndexOf(rest[k], types[1..], aliasConfig, generateIndexName)
    ensures forall k :: 0 <= k < |first + rest| ==> GeneratedIndexOf((first + rest)[k], types, aliasConfig, generateIndexName)
  {
    assert types[0] in types;
    forall k | 0 <= k < |first + rest|
      ensures GeneratedIndexOf((first + rest)[k], types, aliasConfig, generateIndexName)
    {
      if k >= |first| {
        assert (first + rest)[k] == rest[k - |first|];
        assert GeneratedIndexOf(rest[k - |first|], types[1..], aliasConfig, generateIndexName);
        var t :| t in types[1..] && t in aliasConfig && rest[k - |first|] == generateIndexName(aliasConfig[t]);
        assert t in types;
      }
    }
  }

  /** A pass that ends without error saw every create it issued take effect. */
  lemma {:induction false} ProvisionCompletedCreatesExist(
    store: Store, types: seq<string>, aliasConfig: map<string, string>,
    generateIndexName: string -> string, create: (string, string) -> CreateResponse)
    ensures var r := Provision(store, types, aliasConfig, generateIndexName, create);
            r.error.None? ==> forall k :: 0 <= k < |r.creates| ==> r.creates[k] in r.store.indices
    decreases |types|
  {
    if |types| > 0 {
      ProvisionHead(store, types, aliasConfig, generateIndexName, create);
      var step := ProvisionType(store, types[0], aliasConfig, generateIndexName, create);
      if step.error.None? {
        ProvisionCompletedCreatesExist(step.store, types[1..], aliasConfig, generateIndexName, create);
        var rest := Provision(step.store, types[1..], aliasConfig, generateIndexName, create);
        if rest.error.None? {
          ElementsInAcrossConcat(step.creates, rest.creates, step.store.indices, rest.store.indices);
        }
      }
    }
  }

  /** If every element of `first` is in `inner`, `inner` is contained in `outer`, and every
      element of `rest` is in `outer`, then every element of `first + rest` is in `outer`. */
  lemma ElementsInAcrossConcat(first: seq<string>, rest: seq<string>, inner: set<string>, outer: set<string>)
    requires forall k :: 0 <= k < |first| ==> first[k] in inner
    requires inner <= outer
    requires forall k :: 0 <= k < |rest| ==> rest[k] in outer
    ensures forall k :: 0 <= k < |first + rest| ==> (first + rest)[k] in outer
  {
    forall k | 0 <= k < |first + rest|
      ensures (first + rest)[k] in outer
    {
      if k < |first| {
        assert first[k] in inner;
      } else {
        assert (first + rest)[k] == rest[k - |first|];
      }
    }
  }

  /** A pass stopped by a missing alias reports a listed document type that has no alias. */
  lemma {:induction false} ProvisionMissingAliasIsListed(
    store: Store, types: seq<string>, aliasConfig: map<string, string>,
    generateIndexName: string -> string, create: (string, string) -> CreateResponse)
    ensures var r := Provision(store, types, aliasConfig, generateIndexName, create);
            r.error.Some? && r.error.value.KeyNotFound? ==>
              r.error.value.typeName in types && r.error.value.typeName !in aliasConfig
    decreases |types|
  {
    if |types| > 0 {
      ProvisionHead(store, types, aliasConfig, generateIndexName, create);
      var step := ProvisionType(store, types[0], aliasConfig, generateIndexName, create);
      assert types[0] in types;
      if step.error.None? {
        ProvisionMissingAliasIsListed(step.store, types[1..], aliasConfig, generateIndexName, create);
      }
    }
  }

  /** A pass stopped by a rejected create reports the last create it issued, and that index does
      not exist afterwards. */
  lemma {:induction false} ProvisionRejectedIsLastCreate(
    store: Store, types: seq<string>, aliasConfig: map<string, string>,
    generateIndexName: string -> string, create: (string, string) -> CreateResponse)
    ensures var r := Provision(store, types, aliasConfig, generateIndexName, create);
            r.error.Some? && r.error.value.CreateFailed? ==>
              && |r.creates| > 0
              && r.creates[|r.creates| - 1] == r.error.value.index
              && r.error.value.index !in r.store.indices
    decreases |types|
  {
    if |types| > 0 {
      ProvisionHead(store, types, aliasConfig, generateIndexName, create);
      var step := ProvisionType(store, types[0], aliasConfig, generateIndexName, create);
      if step.error.None? {
        ProvisionRejectedIsLastCreate(step.store, types[1..], aliasConfig, generateIndexName, create);
      }
    }
  }

  /** A provisioning outcome preceded by the creates issued before it. */
  function AfterCreates(earlier: seq<string>, p: Provisioning): Provisioning {
    p.(creates := earlier + p.creates)
  }

  /** The first step of the reference definition: the first type's outcome if it failed,
      otherwise its creates followed by the pass over the remaining types. */
  lemma ProvisionHead(
    store: Store, types: seq<string>, aliasConfig: map<string, string>,
    generateIndexName: string -> string, create: (string, string) -> CreateResponse)
    requires |types| > 0
    ensures var step := ProvisionType(store, types[0], aliasConfig, generateIndexName, create);
            Provision(store, types, aliasConfig, generateIndexName, create)
            == if step.error.Some? then step
               else AfterCreates(step.creates, Provision(step.store, types[1..], aliasConfig, generateIndexName, create))
  {
  }

  /** One step of the reference definition taken from the middle of the type list: after the
      creates issued so far, the pass over `types[i..]` either ends with type `i`'s failure or
      continues, with type `i`'s creates added, over `types[i + 1..]`. */
  lemma {:induction false} ProvisionStep(
    types: seq<string>, aliasConfig: map<string, string>,
    generateIndexName: string -> string, create: (string, string) -> CreateResponse,
    i: nat, current: Store, creates: seq<string>)
    requires i < |types|
    ensures var step := ProvisionType(current, types[i], aliasConfig, generateIndexName, create);
            AfterCreates(creates, Provision(current, types[i..], aliasConfig, generateIndexName, create))
            == if step.error.Some? then AfterCreates(creates, step)
               else AfterCreates(creates + step.creates, Provision(step.store, types[i + 1..], aliasConfig, generateIndexName, create))
  {
    assert types[i..][0] == types[i];
    assert types[i..][1..] == types[i + 1..];
  }

  /** The provisioning loop: for each document type, look the alias up, derive the index name,
      skip the type if the index exists, otherwise create the index bound to the alias, and stop
      at the first failure. */
  method ConfigureIndicesAndAliases(
    store: Store, types: seq<string>, aliasConfig: map<string, string>,
    generateIndexName: string -> string, create: (string, string) -> CreateResponse) returns (r: Provisioning)
    ensures r == Provision(store, types, aliasConfig, generateIndexName, create)
    ensures r.error.None? ==> AllProvisioned(r.store, types, aliasConfig, generateIndexName)
  {
    var current := store;
    var creates: seq<string> := [];
    var i := 0;
    while i < |types|
      invariant 0 <= i <= |types|
      invariant Provision(store, types, aliasConfig, generateIndexName, create)
                == AfterCreates(creates, Provision(current, types[i..], aliasConfig, generateIndexName, create))
    {
      ProvisionStep(types, aliasConfig, generateIndexName, create, i, current, creates);
      var step := ProvisionType(current, types[i], aliasConfig, generateIndexName, create);
      if step.error.Some? {
        return AfterCreates(creates, step);
      }
      current := step.store;
      creates := creates + step.creates;
      i := i + 1;
    }
    assert types[i..] == [];
    assert creates + [] == creates;
    r := Provisioning(current, creates, None);
  }

  /** When every document type already has its index, a pass issues no create and changes
      nothing, whatever the store would answer. */
  lemma {:induction false} ProvisionedPassIsNoop(
    store: Store, types: seq<string>, aliasConfig: map<string, string>,
    generateIndexName: string -> string, create: (string, string) -> CreateResponse)
    requires AllProvisioned(store, types, aliasConfig, generateIndexName)
    ensures Provision(store, types, aliasConfig, generateIndexName, create) == Provisioning(store, [], None)
    decreases |types|
  {
    if |types| > 0 {
      assert types[0] in types;
      ProvisionedPassIsNoop(store, types[1..], aliasConfig, generateIndexName, create);
    }
  }

  /** Idempotence: after a pass that completed without error, a second pass with the same alias
      configuration (and the same index-name derivation) issues zero creates and leaves the store
      as it is, whatever the store would answer the second time. */
  lemma {:induction false} ProvisionIdempotent(
    store: Store, types: seq<string>, aliasConfig: map<string, string>,
    generateIndexName: string -> string, create: (string, string) -> CreateResponse,
    createAgain: (string, string) -> CreateResponse)
    requires Provision(store, types, aliasConfig, generateIndexName, create).error.None?
    ensures var first := Provision(store, types, aliasConfig, generateIndexName, create);
            Provision(first.store, types, aliasConfig, generateIndexName, createAgain) == Provisioning(first.store, [], None)
  {
    var first := Provision(store, types, aliasConfig, generateIndexName, create);
    ProvisionedPassIsNoop(first.store, types, aliasConfig, generateIndexName, createAgain);
  }

  /** Once the loop has stopped on an error, later document types are never processed: appending
      more types changes neither the store, nor the creates issued, nor the error. */
  lemma {:induction false} FailureStopsThePass(
    store: Store, types: seq<string>, later: seq<string>, aliasConfig: map<string, string>,
    generateIndexName: string -> string, create: (string, string) -> CreateResponse)
    requires Provision(store, types, aliasConfig, generateIndexName, create).error.Some?
    ensures Provision(store, types + later, aliasConfig, generateIndexName, create)
            == Provision(store, types, aliasConfig, generateIndexName, create)
    decreases |types|
  {
    assert (types + later)[0] == types[0];
    assert (types + later)[1..] == types[1..] + later;
    ProvisionHead(store, types, aliasConfig, generateIndexName, create);
    ProvisionHead(store, types + later, aliasConfig, generateIndexName, create);
    var step := ProvisionType(store, types[0], aliasConfig, generateIndexName, create);
    if step.error.None? {
      FailureStopsThePass(step.store, types[1..], later, aliasConfig, generateIndexName, create);
    }
  }

  /** A document type without a configured alias makes the pass fail: either on that type, or
      earlier on a rejected create. */
  lemma MissingAliasFails(
    store: Store, types: seq<string>, aliasConfig: map<string, string>,
    generateIndexName: string -> string, create: (string, string) -> CreateResponse, t: string)
    requires t in types && t !in aliasConfig
    ensures Provision(store, types, aliasConfig, generateIndexName, create).error.Some?
  {
  }

  /** The two-pass scenario: one document type "DocTypeA" with alias "alias-a" and no index yet.
      The first pass issues exactly one create, for the index generated from "alias-a", and the
      second pass issues none. */
  lemma TwoPassesCreateOnce(
    store: Store, generateIndexName: string -> string, create: (string, string) -> CreateResponse)
    requires generateIndexName("alias-a") !in store.indices
    requires create(generateIndexName("alias-a"), "alias-a").Acknowledged?
    ensures var config := map["DocTypeA" := "alias-a"];
            var first := Provision(store, ["DocTypeA"], config, generateIndexName, create);
            var second := Provision(first.store, ["DocTypeA"], config, generateIndexName, create);
            && first.creates == [generateIndexName("alias-a")]
            && first.error.None?
            && second.creates == []
            && second.store == first.store
  {
    var config := map["DocTypeA" := "alias-a"];
    ProvisionIdempotent(store, ["DocTypeA"], config, generateIndexName, create, create);
  }
}
