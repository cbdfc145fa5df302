/**
  The client registry of the gateway: one lazily built, cached slot per
  external client (the Kafka client, the admin client, the producer, five
  REST clients and the Schema Registry client) and five mutable REST base
  URLs.

  The lazy cells of the source are modelled by the way the registry uses
  them: a slot is an `Option` field; `get` fills an empty slot by running
  the factory and otherwise returns what the slot holds; `close` empties the
  slot (for an asynchronous cell, after running the releaser on the value it
  held). The external clients are small immutable objects that record what
  they were built from, so that `fresh` tells a newly built client from a
  cached one. A ghost log of slot transitions records the order in which
  factories and releasers run.
 */
module ClientManager {
  import opened Optional

  /** API key and secret handed to the authentication middleware of one destination. */
  datatype ConfluentAuth = ConfluentAuth(apiKey: string, apiSecret: string)

  /** The configured base address of every destination. */
  datatype ConfluentEndpoints = ConfluentEndpoints(
    cloud: string,
    flink: string,
    schemaRegistry: string,
    kafka: string,
    telemetry: string)

  /** Credentials per destination; the Telemetry API uses the Cloud pair. */
  datatype AuthConfig = AuthConfig(
    cloud: ConfluentAuth,
    flink: ConfluentAuth,
    schemaRegistry: ConfluentAuth,
    kafka: ConfluentAuth)

  /** The Kafka client's own configuration, passed through untouched. */
  datatype KafkaConfig = KafkaConfig(properties: map<string, string>)

  datatype ClientManagerConfig = ClientManagerConfig(
    kafka: KafkaConfig,
    endpoints: ConfluentEndpoints,
    auth: AuthConfig)

  /** The five REST destinations, each with its own slot and base URL. */
  datatype RestKind = Cloud | Flink | SchemaRegistryRest | KafkaRest | Telemetry

  /** Every cached slot of the registry. */
  datatype Resource = KafkaRes | AdminRes | ProducerRes | Rest(kind: RestKind) | SchemaRegistryRes

  /**
    A slot transition: a factory ran and filled the slot (Build), a releaser
    ran on the value of an asynchronous slot that was closed (Release), or a
    synchronous slot that held a value was closed (Drop).
   */
  datatype Event = Build(res: Resource) | Release(res: Resource) | Drop(res: Resource)

  /** The failure a rejected connect or disconnect propagates to the caller. */
  datatype ClientError = ConnectFailed(res: Resource) | DisconnectFailed(res: Resource)

  /** Producer tuning fixed at construction. */
  datatype ProducerConfig = ProducerConfig(compressionType: string, lingerMs: int)

  const PRODUCER_CONFIG := ProducerConfig(compressionType := "gzip", lingerMs := 5)

  /** The `kafkaJS` block handed to `consumer(...)`. */
  datatype ConsumerConfig = ConsumerConfig(
    fromBeginning: bool,
    groupId: string,
    allowAutoTopicCreation: bool,
    autoCommit: bool)

  /** `credentialsSource` and `userInfo` of the Schema Registry client. */
  datatype BasicAuthCredentials = BasicAuthCredentials(credentialsSource: string, userInfo: string)

  const BASE_GROUP_ID := "mcp-confluent"

  /** The consumer group prefix used when a session id is given. */
  const SESSION_GROUP_PREFIX := BASE_GROUP_ID + "-"

  /** The Kafka client built from the Kafka configuration. */
  class KafkaClient {
    const config: KafkaConfig
    constructor (config: KafkaConfig)
      ensures this.config == config
    {
      this.config := config;
    }
  }

  /** An admin client obtained from a Kafka client and connected. */
  class AdminClient {
    const kafka: KafkaClient
    constructor (kafka: KafkaClient)
      ensures this.kafka == kafka
    {
      this.kafka := kafka;
    }
  }

  /** A producer obtained from a Kafka client and connected. */
  class Producer {
    const kafka: KafkaClient
    const config: ProducerConfig
    constructor (kafka: KafkaClient, config: ProducerConfig)
      ensures this.kafka == kafka && this.config == config
    {
      this.kafka := kafka;
      this.config := config;
    }
  }

  /** A consumer obtained from a Kafka client (not connected by the registry). */
  class Consumer {
    const kafka: KafkaClient
    const config: ConsumerConfig
    constructor (kafka: KafkaClient, config: ConsumerConfig)
      ensures this.kafka == kafka && this.config == config
    {
      this.kafka := kafka;
      this.config := config;
    }
  }

  /** An HTTP client with a base URL and an authentication middleware. */
  class RestClient {
    const baseUrl: string
    const auth: ConfluentAuth
    constructor (baseUrl: string, auth: ConfluentAuth)
      ensures this.baseUrl == baseUrl && this.auth == auth
    {
      this.baseUrl := baseUrl;
      this.auth := auth;
    }
  }

  /** The Schema Registry client. */
  class SchemaRegistryClient {
    const baseURLs: seq<string>
    const basicAuthCredentials: BasicAuthCredentials
    constructor (baseURLs: seq<string>, basicAuthCredentials: BasicAuthCredentials)
      ensures this.baseURLs == baseURLs && this.basicAuthCredentials == basicAuthCredentials
    {
      this.baseURLs := baseURLs;
      this.basicAuthCredentials := basicAuthCredentials;
    }
  }

  /** The configured endpoint that a REST kind's base URL starts from. */
  function EndpointFor(endpoints: ConfluentEndpoints, kind: RestKind): string
  {
    match kind
    case Cloud => endpoints.cloud
    case Flink => endpoints.flink
    case SchemaRegistryRest => endpoints.schemaRegistry
    case KafkaRest => endpoints.kafka
    case Telemetry => endpoints.telemetry
  }

  /** The credentials of the Schema Registry client: `USER_INFO` with `key:secret`. */
  function UserInfoCredentials(auth: ConfluentAuth): BasicAuthCredentials
  {
    BasicAuthCredentials("USER_INFO", auth.apiKey + ":" + auth.apiSecret)
  }

  /**
    The consumer group id: the base id alone when the session id is absent
    or empty, otherwise the base id, a dash and the session id.
   */
  function ConsumerGroupId(sessionId: Option<string>): string
  {
    if Truthy(sessionId) then SESSION_GROUP_PREFIX + sessionId.value else BASE_GROUP_ID
  }

  /** Recovers the session id from a consumer group id, as a check of ConsumerGroupId. */
  function SessionOfGroupId(groupId: string): (sessionId: Option<string>)
    ensures sessionId.Some? ==> sessionId.value != ""
    ensures groupId == BASE_GROUP_ID ==> sessionId.None?
  {
    var n := |SESSION_GROUP_PREFIX|;
    if n < |groupId| && groupId[..n] == SESSION_GROUP_PREFIX then Some(groupId[n..]) else None
  }

  /** The group id determines the session: each session gets its own consumer group. */
  lemma ConsumerGroupIdRoundTrip(sessionId: Option<string>)
    ensures SessionOfGroupId(ConsumerGroupId(sessionId)) == (if Truthy(sessionId) then sessionId else None)
  {
    if Truthy(sessionId) {
      var g := ConsumerGroupId(sessionId);
      assert g[..|SESSION_GROUP_PREFIX|] == SESSION_GROUP_PREFIX;
      assert g[|SESSION_GROUP_PREFIX|..] == sessionId.value;
    }
  }

  /** Distinct sessions get distinct consumer groups, and none shares the base group. */
  lemma ConsumerGroupIdsDistinct(a: Option<string>, b: Option<string>)
    requires Truthy(a)
    ensures Truthy(b) && a != b ==> ConsumerGroupId(a) != ConsumerGroupId(b)
    ensures !Truthy(b) ==> ConsumerGroupId(a) != ConsumerGroupId(b)
  {
    ConsumerGroupIdRoundTrip(a);
    ConsumerGroupIdRoundTrip(b);
  }

  function BuiltIfEmpty<T>(slot: Option<T>, res: Resource): seq<Event>
  {
    if slot.None? then [Build(res)] else []
  }

  function ReleasedIfFull<T>(slot: Option<T>, res: Resource): seq<Event>
  {
    if slot.Some? then [Release(res)] else []
  }

  function DroppedIfFull<T>(slot: Option<T>, res: Resource): seq<Event>
  {
    if slot.Some? then [Drop(res)] else []
  }

  class DefaultClientManager {
    var confluentCloudBaseUrl: string
    var confluentCloudFlinkBaseUrl: string
    var confluentCloudSchemaRegistryBaseUrl: string
    var confluentCloudKafkaRestBaseUrl: string
    var confluentCloudTelemetryBaseUrl: string
    var kafkaClient: Option<KafkaClient>
    var adminClient: Option<AdminClient>
    var producer: Option<Producer>
    const config: ClientManagerConfig
    var confluentCloudFlinkRestClient: Option<RestClient>
    var confluentCloudRestClient: Option<RestClient>
    var confluentCloudSchemaRegistryRestClient: Option<RestClient>
    var confluentCloudKafkaRestClient: Option<RestClient>
    var schemaRegistryClient: Option<SchemaRegistryClient>
    var confluentCloudTelemetryRestClient: Option<RestClient>
    /** Every slot transition so far, oldest first. */
    ghost var events: seq<Event>

    /** The current base URL of a REST kind. */
    function BaseUrl(kind: RestKind): string
      reads this
    {
      match kind
      case Cloud => confluentCloudBaseUrl
      case Flink => confluentCloudFlinkBaseUrl
      case SchemaRegistryRest => confluentCloudSchemaRegistryBaseUrl
      case KafkaRest => confluentCloudKafkaRestBaseUrl
      case Telemetry => confluentCloudTelemetryBaseUrl
    }

    /** The cached client slot of a REST kind. */
    function RestSlot(kind: RestKind): Option<RestClient>
      reads this
    {
      match kind
      case Cloud => confluentCloudRestClient
      case Flink => confluentCloudFlinkRestClient
      case SchemaRegistryRest => confluentCloudSchemaRegistryRestClient
      case KafkaRest => confluentCloudKafkaRestClient
      case Telemetry => confluentCloudTelemetryRestClient
    }

    /** The credentials a REST kind's middleware is built with (Telemetry uses Cloud's). */
    function RestAuth(kind: RestKind): ConfluentAuth
    {
      match kind
      case Cloud => config.auth.cloud
      case Flink => config.auth.flink
      case SchemaRegistryRest => config.auth.schemaRegistry
      case KafkaRest => config.auth.kafka
      case Telemetry => config.auth.cloud
    }

    /** A cached REST client of this kind is bound to the kind's base URL as it is now. */
    ghost predicate RestClientCurrent(kind: RestKind)
      reads this
    {
      RestSlot(kind).Some? ==>
        RestSlot(kind).value.baseUrl == BaseUrl(kind) && RestSlot(kind).value.auth == RestAuth(kind)
    }

    /** Every cached REST client is bound to its kind's base URL as it is now. */
    ghost predicate RestClientsCurrent()
      reads this
    {
      && RestClientCurrent(Cloud)
      && RestClientCurrent(Flink)
      && RestClientCurrent(SchemaRegistryRest)
      && RestClientCurrent(KafkaRest)
      && RestClientCurrent(Telemetry)
    }

    /** The cached Schema Registry client is bound to the configured endpoint. */
    ghost predicate SchemaRegistryClientConfigured()
      reads this
    {
      schemaRegistryClient.Some? ==>
        && schemaRegistryClient.value.baseURLs == [config.endpoints.schemaRegistry]
        && schemaRegistryClient.value.basicAuthCredentials == UserInfoCredentials(config.auth.schemaRegistry)
    }

    /**
      The cached admin client and producer come from the cached Kafka client,
      so the Kafka client is never dropped while either of them is held.
     */
    ghost predicate KafkaFamilyConsistent()
      reads this
    {
      && (kafkaClient.Some? ==> kafkaClient.value.config == config.kafka)
      && (adminClient.Some? ==> kafkaClient.Some? && adminClient.value.kafka == kafkaClient.value)
      && (producer.Some? ==>
            kafkaClient.Some? && producer.value.kafka == kafkaClient.value && producer.value.config == PRODUCER_CONFIG)
    }

    ghost predicate Valid()
      reads this
    {
      RestClientsCurrent() && SchemaRegistryClientConfigured() && KafkaFamilyConsistent()
    }

    /** Every REST slot and URL other than `kind`'s is as it was. */
    twostate predicate OtherRestKindsUnchanged(kind: RestKind)
      reads this
    {
      forall other :: other != kind ==> RestSlot(other) == old(RestSlot(other)) && BaseUrl(other) == old(BaseUrl(other))
    }

    /** The effect of a `set…Endpoint` call: one slot emptied, one URL replaced. */
    twostate predicate Rebound(kind: RestKind, endpoint: string)
      reads this
    {
      && RestSlot(kind).None?
      && BaseUrl(kind) == endpoint
      && OtherRestKindsUnchanged(kind)
      && events == old(events) + DroppedIfFull(old(RestSlot(kind)), Rest(kind))
    }

    /** The effect of a REST accessor: the cached client, or a new one bound to the current URL. */
    twostate predicate ServedRest(kind: RestKind, new client: RestClient)
      reads this
    {
      && RestSlot(kind) == Some(client)
      && client.baseUrl == BaseUrl(kind)
      && client.auth == RestAuth(kind)
      && OtherRestKindsUnchanged(kind)
      && (old(RestSlot(kind)).Some? ==> client == old(RestSlot(kind)).value && events == old(events))
      && (old(RestSlot(kind)).None? ==> fresh(client) && events == old(events) + [Build(Rest(kind))])
    }

    /** After `kafkaClient.get()`: the slot holds the old client, or a newly built one. */
    twostate predicate KafkaObtained()
      reads this
    {
      && kafkaClient.Some?
      && kafkaClient.value.config == config.kafka
      && (old(kafkaClient).Some? ==> kafkaClient == old(kafkaClient))
      && (old(kafkaClient).None? ==> fresh(kafkaClient.value))
    }

    /** Copies every endpoint into its base URL; no slot is filled. */
    constructor (config: ClientManagerConfig)
      ensures Valid()
      ensures this.config == config
      ensures forall kind :: BaseUrl(kind) == EndpointFor(config.endpoints, kind)
      ensures forall kind :: RestSlot(kind).None?
      ensures kafkaClient.None? && adminClient.None? && producer.None? && schemaRegistryClient.None?
      ensures events == []
    {
      this.config := config;
      confluentCloudBaseUrl := config.endpoints.cloud;
      confluentCloudTelemetryBaseUrl := config.endpoints.telemetry;
      confluentCloudFlinkBaseUrl := config.endpoints.flink;
      confluentCloudSchemaRegistryBaseUrl := config.endpoints.schemaRegistry;
      confluentCloudKafkaRestBaseUrl := config.endpoints.kafka;
      kafkaClient := None;
      adminClient := None;
      producer := None;
      confluentCloudRestClient := None;
      confluentCloudFlinkRestClient := None;
      confluentCloudSchemaRegistryRestClient := None;
      confluentCloudKafkaRestClient := None;
      schemaRegistryClient := None;
      confluentCloudTelemetryRestClient := None;
      events := [];
    }

    /** A new consumer on every call; only the Kafka slot may be filled on the way. */
    method GetConsumer(sessionId: Option<string>) returns (consumer: Consumer)
      requires Valid()
      modifies this`kafkaClient, this`events
      ensures Valid()
      ensures KafkaObtained()
      ensures events == old(events) + BuiltIfEmpty(old(kafkaClient), KafkaRes)
      ensures fresh(consumer) && consumer.kafka == kafkaClient.value
      ensures consumer.config == ConsumerConfig(
        fromBeginning := true,
        groupId := ConsumerGroupId(sessionId),
        allowAutoTopicCreation := false,
        autoCommit := false)
    {
      var groupId := if Truthy(sessionId) then BASE_GROUP_ID + "-" + sessionId.value else BASE_GROUP_ID;
      var kafka := GetKafkaClient();
      consumer := new Consumer(kafka, ConsumerConfig(true, groupId, false, false));
    }

    method SetConfluentCloudRestEndpoint(endpoint: string)
      requires Valid()
      modifies this`confluentCloudRestClient, this`confluentCloudBaseUrl, this`events
      ensures Valid()
      ensures Rebound(Cloud, endpoint)
    {
      if confluentCloudRestClient.Some? { events := events + [Drop(Rest(Cloud))]; }
      confluentCloudRestClient := None;
      confluentCloudBaseUrl := endpoint;
    }

    method SetConfluentCloudFlinkEndpoint(endpoint: string)
      requires Valid()
      modifies this`confluentCloudFlinkRestClient, this`confluentCloudFlinkBaseUrl, this`events
      ensures Valid()
      ensures Rebound(Flink, endpoint)
    {
      if confluentCloudFlinkRestClient.Some? { events := events + [Drop(Rest(Flink))]; }
      confluentCloudFlinkRestClient := None;
      confluentCloudFlinkBaseUrl := endpoint;
    }

    /** Repoints the Schema Registry REST client only; the Schema Registry client is untouched. */
    method SetConfluentCloudSchemaRegistryEndpoint(endpoint: string)
      requires Valid()
      modifies this`confluentCloudSchemaRegistryRestClient, this`confluentCloudSchemaRegistryBaseUrl, this`events
      ensures Valid()
      ensures Rebound(SchemaRegistryRest, endpoint)
    {
      if confluentCloudSchemaRegistryRestClient.Some? { events := events + [Drop(Rest(SchemaRegistryRest))]; }
      confluentCloudSchemaRegistryRestClient := None;
      confluentCloudSchemaRegistryBaseUrl := endpoint;
    }

    method SetConfluentCloudKafkaRestEndpoint(endpoint: string)
      requires Valid()
      modifies this`confluentCloudKafkaRestClient, this`confluentCloudKafkaRestBaseUrl, this`events
      ensures Valid()
      ensures Rebound(KafkaRest, endpoint)
    {
      if confluentCloudKafkaRestClient.Some? { events := events + [Drop(Rest(KafkaRest))]; }
      confluentCloudKafkaRestClient := None;
      confluentCloudKafkaRestBaseUrl := endpoint;
    }

    method SetConfluentCloudTelemetryEndpoint(endpoint: string)
      requires Valid()
      modifies this`confluentCloudTelemetryRestClient, this`confluentCloudTelemetryBaseUrl, this`events
      ensures Valid()
      ensures Rebound(Telemetry, endpoint)
    {
      if confluentCloudTelemetryRestClient.Some? { events := events + [Drop(Rest(Telemetry))]; }
      confluentCloudTelemetryRestClient := None;
      confluentCloudTelemetryBaseUrl := endpoint;
    }

    method GetKafkaClient() returns (client: KafkaClient)
      requires Valid()
      modifies this`kafkaClient, this`events
      ensures Valid()
      ensures KafkaObtained() && kafkaClient == Some(client)
      ensures events == old(events) + BuiltIfEmpty(old(kafkaClient), KafkaRes)
    {
      if kafkaClient.None? {
        var built := new KafkaClient(config.kafka);
        kafkaClient := Some(built);
        events := events + [Build(KafkaRes)];
      }
      client := kafkaClient.value;
    }

    method GetConfluentCloudFlinkRestClient() returns (client: RestClient)
      requires Valid()
      modifies this`confluentCloudFlinkRestClient, this`events
      ensures Valid()
      ensures ServedRest(Flink, client)
    {
      if confluentCloudFlinkRestClient.None? {
        var built := new RestClient(confluentCloudFlinkBaseUrl, config.auth.flink);
        confluentCloudFlinkRestClient := Some(built);
        events := events + [Build(Rest(Flink))];
      }
      client := confluentCloudFlinkRestClient.value;
    }

    method GetConfluentCloudRestClient() returns (client: RestClient)
      requires Valid()
      modifies this`confluentCloudRestClient, this`events
      ensures Valid()
      ensures ServedRest(Cloud, client)
    {
      if confluentCloudRestClient.None? {
        var built := new RestClient(confluentCloudBaseUrl, config.auth.cloud);
        confluentCloudRestClient := Some(built);
        events := events + [Build(Rest(Cloud))];
      }
      client := confluentCloudRestClient.value;
    }

    method GetConfluentCloudSchemaRegistryRestClient() returns (client: RestClient)
      requires Valid()
      modifies this`confluentCloudSchemaRegistryRestClient, this`events
      ensures Valid()
      ensures ServedRest(SchemaRegistryRest, client)
    {
      if confluentCloudSchemaRegistryRestClient.None? {
        var built := new RestClient(confluentCloudSchemaRegistryBaseUrl, config.auth.schemaRegistry);
        confluentCloudSchemaRegistryRestClient := Some(built);
        events := events + [Build(Rest(SchemaRegistryRest))];
      }
      client := confluentCloudSchemaRegistryRestClient.value;
    }

    method GetConfluentCloudKafkaRestClient() returns (client: RestClient)
      requires Valid()
      modifies this`confluentCloudKafkaRestClient, this`events
      ensures Valid()
      ensures ServedRest(KafkaRest, client)
    {
      if confluentCloudKafkaRestClient.None? {
        var built := new RestClient(confluentCloudKafkaRestBaseUrl, config.auth.kafka);
        confluentCloudKafkaRestClient := Some(built);
        events := events + [Build(Rest(KafkaRest))];
      }
      client := confluentCloudKafkaRestClient.value;
    }

    /**
      The cached admin client, or: obtain the Kafka client through its slot,
      build an admin client from it and connect it. `connectFails` is the
      outcome of that connect; a failed connect leaves the admin slot empty.
     */
    method GetAdminClient(connectFails: bool) returns (r: Result<AdminClient, ClientError>)
      requires Valid()
      modifies this`kafkaClient, this`adminClient, this`events
      ensures Valid()
      ensures old(adminClient).Some? ==> r == Success(old(adminClient).value) && unchanged(this)
      ensures old(adminClient).None? ==> KafkaObtained()
      ensures old(adminClient).None? && connectFails ==>
        && r == Failure(ConnectFailed(AdminRes))
        && adminClient.None?
        && events == old(events) + BuiltIfEmpty(old(kafkaClient), KafkaRes)
      ensures old(adminClient).None? && !connectFails ==>
        && r.Success? && fresh(r.value)
        && adminClient == Some(r.value)
        && r.value.kafka == kafkaClient.value
        && events == old(events) + BuiltIfEmpty(old(kafkaClient), KafkaRes) + [Build(AdminRes)]
    {
      if adminClient.Some? {
        r := Success(adminClient.value);
        return;
      }
      var kafka := GetKafkaClient();
      if connectFails {
        r := Failure(ConnectFailed(AdminRes));
      } else {
        var admin := new AdminClient(kafka);
        adminClient := Some(admin);
        events := events + [Build(AdminRes)];
        r := Success(admin);
      }
    }

    /**
      The cached producer, or: obtain the Kafka client through its slot,
      build a gzip producer with a 5 ms linger from it and connect it.
      `connectFails` is the outcome of that connect.
     */
    method GetProducer(connectFails: bool) returns (r: Result<Producer, ClientError>)
      requires Valid()
      modifies this`kafkaClient, this`producer, this`events
      ensures Valid()
      ensures old(producer).Some? ==> r == Success(old(producer).value) && unchanged(this)
      ensures old(producer).None? ==> KafkaObtained()
      ensures old(producer).None? && connectFails ==>
        && r == Failure(ConnectFailed(ProducerRes))
        && producer.None?
        && events == old(events) + BuiltIfEmpty(old(kafkaClient), KafkaRes)
      ensures old(producer).None? && !connectFails ==>
        && r.Success? && fresh(r.value)
        && producer == Some(r.value)
        && r.value.kafka == kafkaClient.value
        && r.value.config == ProducerConfig(compressionType := "gzip", lingerMs := 5)
        && events == old(events) + BuiltIfEmpty(old(kafkaClient), KafkaRes) + [Build(ProducerRes)]
    {
      if producer.Some? {
        r := Success(producer.value);
        return;
      }
      var kafka := GetKafkaClient();
      if connectFails {
        r := Failure(ConnectFailed(ProducerRes));
      } else {
        var built := new Producer(kafka, PRODUCER_CONFIG);
        producer := Some(built);
        events := events + [Build(ProducerRes)];
        r := Success(built);
      }
    }

    /**
      Closes the admin slot, then the producer slot, then the Kafka slot.
      A close whose releaser fails still empties its slot, but the failure
      propagates at once and the later closes do not happen.
     */
    method Disconnect(adminReleaseFails: bool, producerReleaseFails: bool) returns (outcome: Outcome<ClientError>)
      requires Valid()
      modifies this`adminClient, this`producer, this`kafkaClient, this`events
      ensures Valid()
      ensures adminClient.None?
      ensures old(adminClient).Some? && adminReleaseFails ==>
        && outcome == Fail(DisconnectFailed(AdminRes))
        && producer == old(producer) && kafkaClient == old(kafkaClient)
        && events == old(events) + [Release(AdminRes)]
      ensures !(old(adminClient).Some? && adminReleaseFails) && old(producer).Some? && producerReleaseFails ==>
        && outcome == Fail(DisconnectFailed(ProducerRes))
        && producer.None? && kafkaClient == old(kafkaClient)
        && events == old(events) + ReleasedIfFull(old(adminClient), AdminRes) + [Release(ProducerRes)]
      ensures !(old(adminClient).Some? && adminReleaseFails) && !(old(producer).Some? && producerReleaseFails) ==>
        && outcome == Pass
        && producer.None? && kafkaClient.None?
        && events == old(events) + ReleasedIfFull(old(adminClient), AdminRes)
                                 + ReleasedIfFull(old(producer), ProducerRes)
                                 + DroppedIfFull(old(kafkaClient), KafkaRes)
    {
      if adminClient.Some? {
        events := events + [Release(AdminRes)];
        adminClient := None;
        if adminReleaseFails {
          outcome := Fail(DisconnectFailed(AdminRes));
          return;
        }
      }
      if producer.Some? {
        events := events + [Release(ProducerRes)];
        producer := None;
        if producerReleaseFails {
          outcome := Fail(DisconnectFailed(ProducerRes));
          return;
        }
      }
      if kafkaClient.Some? { events := events + [Drop(KafkaRes)]; }
      kafkaClient := None;
      outcome := Pass;
    }

    /** Built from the configured Schema Registry endpoint, never from the mutable base URL. */
    method GetSchemaRegistryClient() returns (client: SchemaRegistryClient)
      requires Valid()
      modifies this`schemaRegistryClient, this`events
      ensures Valid()
      ensures schemaRegistryClient == Some(client)
      ensures client.baseURLs == [config.endpoints.schemaRegistry]
      ensures client.basicAuthCredentials == BasicAuthCredentials(
        "USER_INFO", config.auth.schemaRegistry.apiKey + ":" + config.auth.schemaRegistry.apiSecret)
      ensures old(schemaRegistryClient).Some? ==> client == old(schemaRegistryClient).value && events == old(events)
      ensures old(schemaRegistryClient).None? ==> fresh(client) && events == old(events) + [Build(SchemaRegistryRes)]
    {
      if schemaRegistryClient.None? {
        var auth := config.auth.schemaRegistry;
        var built := new SchemaRegistryClient([config.endpoints.schemaRegistry], UserInfoCredentials(auth));
        schemaRegistryClient := Some(built);
        events := events + [Build(SchemaRegistryRes)];
      }
      client := schemaRegistryClient.value;
    }

    method GetConfluentCloudTelemetryRestClient() returns (client: RestClient)
      requires Valid()
      modifies this`confluentCloudTelemetryRestClient, this`events
      ensures Valid()
      ensures ServedRest(Telemetry, client)
    {
      if confluentCloudTelemetryRestClient.None? {
        var built := new RestClient(confluentCloudTelemetryBaseUrl, config.auth.cloud);
        confluentCloudTelemetryRestClient := Some(built);
        events := events + [Build(Rest(Telemetry))];
      }
      client := confluentCloudTelemetryRestClient.value;
    }
  }

  /**
    Rebinding the Cloud endpoint: the next Cloud client is a new one bound to
    the new address, while the Flink client and URL stay as they were.
   */
  method RebindCloudKeepsFlink(m: DefaultClientManager, endpoint: string)
    returns (before: RestClient, after: RestClient, flink: RestClient)
    requires m.Valid()
    modifies m
    ensures m.Valid()
    ensures before.baseUrl == old(m.confluentCloudBaseUrl)
    ensures after.baseUrl == endpoint && after != before
    ensures m.confluentCloudFlinkBaseUrl == old(m.confluentCloudFlinkBaseUrl)
    ensures flink.baseUrl == old(m.confluentCloudFlinkBaseUrl)
    ensures old(m.confluentCloudFlinkRestClient).Some? ==> flink == old(m.confluentCloudFlinkRestClient).value
  {
    before := m.GetConfluentCloudRestClient();
    m.SetConfluentCloudRestEndpoint(endpoint);
    after := m.GetConfluentCloudRestClient();
    flink := m.GetConfluentCloudFlinkRestClient();
  }

  /**
    Rebinding the Schema Registry REST endpoint repoints the REST client but
    neither clears nor repoints the Schema Registry client.
   */
  method SchemaRegistryClientIgnoresRebind(m: DefaultClientManager, endpoint: string)
    returns (rest: RestClient, registry: SchemaRegistryClient)
    requires m.Valid()
    modifies m
    ensures m.Valid()
    ensures rest.baseUrl == endpoint
    ensures registry.baseURLs == [m.config.endpoints.schemaRegistry]
    ensures old(m.schemaRegistryClient).Some? ==> registry == old(m.schemaRegistryClient).value
  {
    m.SetConfluentCloudSchemaRegistryEndpoint(endpoint);
    rest := m.GetConfluentCloudSchemaRegistryRestClient();
    registry := m.GetSchemaRegistryClient();
  }

  /**
    Connecting the admin client and then the producer builds the Kafka
    client at most once, whichever connects fail, and every client that
    connects comes from that one Kafka client.
   */
  method AdminAndProducerShareKafka(m: DefaultClientManager, adminConnectFails: bool, producerConnectFails: bool)
    returns (admin: Result<AdminClient, ClientError>, producer: Result<Producer, ClientError>)
    requires m.Valid() && m.adminClient.None? && m.producer.None?
    modifies m
    ensures m.Valid()
    ensures m.kafkaClient.Some?
    ensures old(m.kafkaClient).Some? ==> m.kafkaClient == old(m.kafkaClient)
    ensures admin.Success? <==> !adminConnectFails
    ensures producer.Success? <==> !producerConnectFails
    ensures admin.Success? ==> admin.value.kafka == m.kafkaClient.value
    ensures producer.Success? ==> producer.value.kafka == m.kafkaClient.value
    ensures m.events == old(m.events) + BuiltIfEmpty(old(m.kafkaClient), KafkaRes)
                        + (if adminConnectFails then [] else [Build(AdminRes)])
                        + (if producerConnectFails then [] else [Build(ProducerRes)])
  {
    admin := m.GetAdminClient(adminConnectFails);
    producer := m.GetProducer(producerConnectFails);
  }

  /**
    Two disconnects in a row. After a first disconnect whose releasers
    succeed, the second finds every slot empty: it runs no releaser and
    cannot fail. After a first disconnect that stops at the admin close, the
    producer is still cached, so the second one runs its releaser.
   */
  method DisconnectTwice(m: DefaultClientManager,
                         firstAdminFails: bool, firstProducerFails: bool,
                         adminReleaseFails: bool, producerReleaseFails: bool)
    returns (first: Outcome<ClientError>, second: Outcome<ClientError>)
    requires m.Valid()
    modifies m
    ensures m.Valid()
    ensures first == Pass ==>
      && second == Pass
      && m.adminClient.None? && m.producer.None? && m.kafkaClient.None?
      && m.events == old(m.events) + ReleasedIfFull(old(m.adminClient), AdminRes)
                                   + ReleasedIfFull(old(m.producer), ProducerRes)
                                   + DroppedIfFull(old(m.kafkaClient), KafkaRes)
    ensures first == Fail(DisconnectFailed(ProducerRes)) ==>
      && second == Pass
      && m.events == old(m.events) + ReleasedIfFull(old(m.adminClient), AdminRes)
                                   + [Release(ProducerRes)]
                                   + DroppedIfFull(old(m.kafkaClient), KafkaRes)
    ensures first == Fail(DisconnectFailed(AdminRes)) && old(m.producer).Some? ==>
      && (producerReleaseFails ==>
            && second == Fail(DisconnectFailed(ProducerRes))
            && m.events == old(m.events) + [Release(AdminRes), Release(ProducerRes)])
      && (!producerReleaseFails ==>
            && second == Pass
            && m.events == old(m.events) + [Release(AdminRes), Release(ProducerRes)]
                                         + DroppedIfFull(old(m.kafkaClient), KafkaRes))
  {
    first := m.Disconnect(firstAdminFails, firstProducerFails);
    second := m.Disconnect(adminReleaseFails, producerReleaseFails);
  }
}
