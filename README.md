# mcp-confluent client registry, principal-metrics arguments and prompt arguments in Dafny

This project models three parts of the mcp-confluent gateway and proves properties of them.

- **`DefaultClientManager`** (`client_manager.dfy`) is the registry of lazily built, cached clients. It holds the Kafka client, the admin client, the producer, five REST clients and the Schema Registry client. It also holds five mutable REST base URLs.
  - It is a class. Each lazy cell is an `Option` field. Each REST base URL is a `string` field. Methods carry field-level `modifies` clauses.
  - `Valid()` is the invariant that every method keeps:
    - a cached REST client is bound to its kind's base URL as it is now;
    - the Schema Registry client is bound to the configured endpoint;
    - a cached admin client or producer was built from the cached Kafka client.
  - Each built client is a small immutable object. It records the URL, credentials and options it was built from. `fresh` tells a newly built client apart from a cached one.
  - A ghost log of slot transitions (`Build`, `Release`, `Drop`) records the order in which factories and releasers run.
  - Connect and disconnect outcomes of the foreign objects are boolean parameters.
- **Principal-metrics handler** (`principal_metrics.dfy`) models how `handle` resolves its arguments before the metrics query:
  - the metric-list override;
  - the defaulting of each interval bound;
  - the optional post filter that keeps only one principal's rows.

  JSON results are a `Json` datatype.
- **Prompt factory** (`prompt_factory.dfy`) models two things:
  - the loop that turns an input schema into prompt arguments, proved against a specification function;
  - the static prompt-handler table and its lookups.

`optional.dfy` holds `Option`/`Result`/`Outcome`. It also holds the JavaScript truthiness of a `string | undefined`, which every part uses.

Three behaviours of the code are easy to misread. The model follows the code each time:

- `disconnect` (`src/confluent/client-manager.ts:307-311`) awaits the admin close and then the producer close, one after the other. It stops at the first failing close, and the later closes do not happen. It does not collect failures.
- The Schema Registry client is built from `config.endpoints.schemaRegistry`. It is not built from the mutable Schema Registry base URL, so rebinding that URL neither clears nor repoints it.
- The interface comment on `getConsumer` (`src/confluent/client-manager.ts:29`) says it gives a connected consumer. The body (lines 232-239) only builds the consumer and never connects it, and the model follows the body.

## Model

| member | source | states |
|---|---|---|
| `ClientManager.DefaultClientManager.constructor` | src/confluent/client-manager.ts:129-137 | Every base URL is the configured endpoint of its kind. Every slot is empty, the log is empty, and `Valid()` holds. |
| `ClientManager.DefaultClientManager.SetConfluentCloudRestEndpoint` | src/confluent/client-manager.ts:246-249 | Only the Cloud slot and the Cloud URL may change (frame). The slot is empty afterwards and the URL equals `endpoint`. The other four REST slots and URLs are unchanged, and `Valid()` is kept. |
| `ClientManager.DefaultClientManager.SetConfluentCloudFlinkEndpoint` | src/confluent/client-manager.ts:250-253 | The same as the Cloud setter, for the Flink slot and URL only. |
| `ClientManager.DefaultClientManager.SetConfluentCloudSchemaRegistryEndpoint` | src/confluent/client-manager.ts:254-257 | The same, for the Schema Registry REST slot and URL only. The Schema Registry client slot is outside the frame. |
| `ClientManager.DefaultClientManager.SetConfluentCloudKafkaRestEndpoint` | src/confluent/client-manager.ts:258-261 | The same, for the Kafka REST slot and URL only. |
| `ClientManager.DefaultClientManager.SetConfluentCloudTelemetryEndpoint` | src/confluent/client-manager.ts:263-266 | The same, for the Telemetry slot and URL only. |
| `ClientManager.DefaultClientManager.GetKafkaClient` | src/confluent/client-manager.ts:269-271 | Returns the cached Kafka client. If the slot is empty, it runs the factory of line 137: it builds one client from `config.kafka`, caches it and logs one `Build`. |
| `ClientManager.DefaultClientManager.GetConfluentCloudRestClient` | src/confluent/client-manager.ts:279-281 | Returns the cached client while the slot is full. Otherwise it runs the factory of lines 160-169: it builds a fresh client bound to the current Cloud URL with the Cloud credentials, and caches it. No other slot or URL changes. |
| `ClientManager.DefaultClientManager.GetConfluentCloudFlinkRestClient` | src/confluent/client-manager.ts:274-276 | The same, with the factory of lines 171-180, for the Flink URL with the Flink credentials. |
| `ClientManager.DefaultClientManager.GetConfluentCloudSchemaRegistryRestClient` | src/confluent/client-manager.ts:284-289 | The same, with the factory of lines 182-191, for the Schema Registry URL with the Schema Registry credentials. |
| `ClientManager.DefaultClientManager.GetConfluentCloudKafkaRestClient` | src/confluent/client-manager.ts:292-294 | The same, with the factory of lines 193-202, for the Kafka REST URL with the Kafka credentials. |
| `ClientManager.DefaultClientManager.GetConfluentCloudTelemetryRestClient` | src/confluent/client-manager.ts:319-324 | The same, with the factory of lines 215-224, for the Telemetry URL with the Cloud credentials. |
| `ClientManager.DefaultClientManager.GetSchemaRegistryClient` | src/confluent/client-manager.ts:204-213 | Returns the cached client (accessor at lines 314-316), or builds a fresh one. The client's base URLs are `[config.endpoints.schemaRegistry]` and its credentials are `USER_INFO` with `apiKey:apiSecret`. |
| `ClientManager.DefaultClientManager.GetAdminClient` | src/confluent/client-manager.ts:138-146 | Through the accessor at lines 297-299: a full slot returns its client and changes nothing. An empty slot obtains the Kafka client through its slot, building it at most once. A failed connect returns the failure and leaves the admin slot empty. Otherwise it caches a fresh admin client built from that Kafka client. |
| `ClientManager.DefaultClientManager.GetProducer` | src/confluent/client-manager.ts:147-158 | The same as `GetAdminClient`, for the producer, through the accessor at lines 302-304. The producer is always built with gzip compression and `linger.ms` 5. |
| `ClientManager.DefaultClientManager.GetConsumer` | src/confluent/client-manager.ts:228-240 | Every call returns a fresh consumer and stores none. The consumer comes from the cached Kafka client. Its options are `fromBeginning` true, `autoCommit` false, `allowAutoTopicCreation` false and group `ConsumerGroupId(sessionId)`. |
| `ClientManager.DefaultClientManager.Disconnect` | src/confluent/client-manager.ts:307-311 | Closes the admin slot, then the producer slot, then the Kafka slot, and the log shows them in that order. A failing releaser still empties its own slot, but stops the closes after it and is returned. On success all three slots are empty. |
| `ClientManager.ConsumerGroupIdRoundTrip` | src/confluent/client-manager.ts:229-230 | The group id gives back its session: the session when it is present and non-empty, and none when the session is absent or empty. |
| `ClientManager.ConsumerGroupIdsDistinct` | src/confluent/client-manager.ts:229-230 | Two different non-empty sessions get different group ids. No non-empty session gets the base group id `mcp-confluent`. |
| `ClientManager.RebindCloudKeepsFlink` | src/confluent/client-manager.ts:246-249 | After the Cloud endpoint is rebound, the next Cloud client is a new object bound to the new endpoint. The Flink URL and a cached Flink client are untouched. |
| `ClientManager.SchemaRegistryClientIgnoresRebind` | src/confluent/client-manager.ts:254-257 | After the Schema Registry endpoint is rebound, the REST client is bound to the new endpoint. The Schema Registry client is still the configured one, and it is the same object if it was cached. |
| `ClientManager.AdminAndProducerShareKafka` | src/confluent/client-manager.ts:141-150 | Connecting the admin client and then the producer builds the Kafka client at most once, whether each connect fails or succeeds. A client is returned exactly when its connect succeeds, and every returned client comes from that one Kafka client. |
| `ClientManager.DisconnectTwice` | src/confluent/client-manager.ts:307-311 | After a first `disconnect` whose releasers succeed, a second one runs no releaser and succeeds, even with failing releasers. After a first one that fails at the producer close, the second one only drops the Kafka client. After a first one that fails at the admin close, the producer is still cached, and the second one runs its releaser and returns that releaser's failure. |
| `PrincipalMetrics.PrincipalQuery` | src/confluent/tools/handlers/metrics/get-principal-metrics-handler.ts:46-54 | Group-by is `metric.principal`, the filter field is `resource.kafka.id`, and the filter value is `clusterId`. The post filter matches rows on the group-by field. |
| `PrincipalMetrics.ResolveIntervals` | src/confluent/tools/handlers/metrics/get-principal-metrics-handler.ts:88-94 | Each bound keeps its value when non-empty and otherwise takes its own default. The two bounds are resolved independently, although the code checks them together. |
| `PrincipalMetrics.MakePostFilter` | src/confluent/tools/handlers/metrics/get-principal-metrics-handler.ts:96-113 | A post filter exists exactly when `principalName` is present and non-empty, and it filters by that name. |
| `PrincipalMetrics.FilterRows` | src/confluent/tools/handlers/metrics/get-principal-metrics-handler.ts:102-109 | Every kept row is a non-null object whose `metric.principal` is the string `principalName`. There are never more kept rows than input rows. |
| `PrincipalMetrics.FilterRowsIsSubsequence` | src/confluent/tools/handlers/metrics/get-principal-metrics-handler.ts:102-109 | The kept rows are a subsequence of the input rows, so their order is preserved. |
| `PrincipalMetrics.FilterRowsKeepsExactlyMatches` | src/confluent/tools/handlers/metrics/get-principal-metrics-handler.ts:103-108 | Each matching row is kept as many times as it occurs, and a non-matching row is never kept. |
| `PrincipalMetrics.FilterRowsIdempotent` | src/confluent/tools/handlers/metrics/get-principal-metrics-handler.ts:102-109 | Filtering already-filtered rows changes nothing. |
| `PrincipalMetrics.SpreadArray` | src/confluent/tools/handlers/metrics/get-principal-metrics-handler.ts:98-100 | Spreading an array gives one key per index, its decimal spelling, mapped to that element. No index key is `data`. |
| `PrincipalMetrics.ApplyPostFilter` | src/confluent/tools/handlers/metrics/get-principal-metrics-handler.ts:97-112 | Null and primitive input is returned unchanged. For an object, every field other than `data` is kept and `data` becomes the filtered rows, or `[]` when `data` is not an array. An array becomes an object of its index keys with `data` `[]`. |
| `PrincipalMetrics.PostFilterIdempotent` | src/confluent/tools/handlers/metrics/get-principal-metrics-handler.ts:97-112 | Applying the post filter to its own output changes nothing. |
| `PrincipalMetrics.Handle` | src/confluent/tools/handlers/metrics/get-principal-metrics-handler.ts:80-123 | A non-empty `specificMetric` makes the metric list exactly `[specificMetric]`; otherwise the list is `args.metrics`. All other arguments are passed on unchanged. The intervals are defaulted bound by bound. A post filter is present exactly when `principalName` is non-empty. |
| `PromptFactory.PromptArguments` | src/confluent/prompts/prompt-factory.ts:22-44 | Gives exactly one argument per schema entry. |
| `PromptFactory.PromptArgumentsAt` | src/confluent/prompts/prompt-factory.ts:24-41 | The i-th argument is derived from the i-th entry alone. |
| `PromptFactory.ZodSchemaToPromptArguments` | src/confluent/prompts/prompt-factory.ts:19-45 | There is one argument per entry, in entry order. Each `name` is the key. `required` is false exactly for optional fields. `description` is the field's non-empty description, or `""`. The loop's result equals `PromptArguments`. |
| `PromptFactory.Lookup` | src/confluent/prompts/prompt-factory.ts:52-54 | `Map.get`: returns none exactly when no entry has the name. Otherwise it returns a value registered under that name. |
| `PromptFactory.LookupFindsEntry` | src/confluent/prompts/prompt-factory.ts:52-54 | In a table with unique keys, looking up an entry's key returns that entry's handler. |
| `PromptFactory.PromptHandlers` | src/confluent/prompts/prompt-factory.ts:48-50 | The static table has unique keys. |
| `PromptFactory.GetPromptHandler` | src/confluent/prompts/prompt-factory.ts:52-54 | `REPORT_CLUSTER_USAGE` finds its handler. Every other prompt name finds none (`undefined`). |
| `PromptFactory.Names` | src/confluent/prompts/prompt-factory.ts:78-80 | Gives one name per table entry, in table order. |
| `PromptFactory.Configs` | src/confluent/prompts/prompt-factory.ts:60-64 | Gives one config per table entry, in table order. |
| `PromptFactory.ConfigsWithArguments` | src/confluent/prompts/prompt-factory.ts:66-76 | Keeps each handler's config unchanged, with `arguments` equal to `PromptArguments` of its input schema, in table order. |
| `PromptFactory.GetPromptNames` | src/confluent/prompts/prompt-factory.ts:78-80 | Returns exactly `[REPORT_CLUSTER_USAGE]`. |
| `PromptFactory.GetPromptConfigs` | src/confluent/prompts/prompt-factory.ts:60-64 | Returns exactly the one registered handler's config. |
| `PromptFactory.GetPromptConfigsWithArguments` | src/confluent/prompts/prompt-factory.ts:66-76 | Returns one entry: the registered handler's config and the arguments of its input schema. |

## Left out

- The foreign clients are not modelled: KafkaJS, openapi-fetch, the authentication middleware and the Schema Registry client. Each is a record of what it was built from. Their network effects are left out, and so are the `logger` calls.
- The concurrency of the asynchronous lazy cell is not modelled. The model does not cover single-flight construction under overlapping calls, or a close that waits for a build in flight. The model is sequential.
- `src/lazy.js` is not part of this model. Its `get`/`close` are modelled by how the registry uses them, with two assumptions about the asynchronous cell: a failed connect leaves the slot empty, and a close whose releaser fails still empties the slot.
- `getConsumer`, `getAdminClient` and `getProducer` return promises; the model returns their settled result.
- The prompt handler's own config (`ReportClusterUsagePromptHandler`) is not part of this model and is a parameter. `src/confluent/prompts/prompt-name.ts` is not part of this model: every member of the enumeration other than `REPORT_CLUSTER_USAGE` is `Unregistered(name)`.
- `getPromptHandlers` is not modelled. It returns the static table, which is `PromptFactory.PromptHandlers`.
- The order of `Object.entries` is not modelled: entries are taken in the order given. JavaScript puts integer-like keys first.
- Zod schema parsing and validation are not modelled. This includes the `clusterId` default read from the environment and the default metric list. Arguments arrive already parsed.
- `getDefaultIntervals` and `handleMetricsWithFilter` are not part of this model; the default intervals are a parameter. The handler's other members are also left out: `getSchema`, `getRequiredEnvVars`, `isConfluentCloudOnly` and `getToolConfig`. They return constants and are not used by the logic above.
- `PrincipalMetrics.ApplyPostFilter` models JSON objects as maps, so key order is not modelled. Numbers are reals.
- `src/confluent/tools/handlers/kafka/create-topics-handler.ts` is not modelled. It is a thin wrapper over the admin client's topic creation.
