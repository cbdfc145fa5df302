/**
  Prompt arguments derived from a prompt's input schema, and the static
  table of prompt handlers with its lookups.

  A field schema is abstracted to the two things the conversion reads: its
  description, if any, and whether it is an optional wrapper. A schema is
  the ordered list of its entries, in the order the runtime enumerates them.
 */
module PromptFactory {
  import opened Optional

  datatype FieldSchema = FieldSchema(description: Option<string>, isOptional: bool)

  type InputSchema = seq<(string, FieldSchema)>

  datatype PromptArgument = PromptArgument(name: string, description: string, required: bool)

  /** The argument one schema entry yields. */
  function ArgumentFor(key: string, field: FieldSchema): PromptArgument
  {
    PromptArgument(key, if Truthy(field.description) then field.description.value else "", !field.isOptional)
  }

  /** The arguments of a schema, entry by entry (the specification of the conversion). */
  function PromptArguments(schema: InputSchema): (args: seq<PromptArgument>)
    ensures |args| == |schema|
  {
    if schema == [] then [] else [ArgumentFor(schema[0].0, schema[0].1)] + PromptArguments(schema[1..])
  }

  lemma {:induction false} PromptArgumentsAt(schema: InputSchema, i: nat)
    requires i < |schema|
    ensures PromptArguments(schema)[i] == ArgumentFor(schema[i].0, schema[i].1)
  {
    if i > 0 {
      PromptArgumentsAt(schema[1..], i - 1);
    }
  }

  /**
    One argument per schema entry, in entry order: named by the key,
    described by the field's non-empty description or "", and required
    exactly when the field is not optional.
   */
  method ZodSchemaToPromptArguments(inputSchema: InputSchema) returns (args: seq<PromptArgument>)
    ensures |args| == |inputSchema|
    ensures forall i :: 0 <= i < |inputSchema| ==>
      && args[i].name == inputSchema[i].0
      && (args[i].required <==> !inputSchema[i].1.isOptional)
      && (Truthy(inputSchema[i].1.description) ==> args[i].description == inputSchema[i].1.description.value)
      && (!Truthy(inputSchema[i].1.description) ==> args[i].description == "")
    ensures args == PromptArguments(inputSchema)
  {
    args := [];
    var i := 0;
    while i < |inputSchema|
      invariant 0 <= i <= |inputSchema|
      invariant |args| == i
      invariant forall j :: 0 <= j < i ==> args[j] == ArgumentFor(inputSchema[j].0, inputSchema[j].1)
    {
      var (key, fieldSchema) := inputSchema[i];
      var description := "";
      var required := true;
      if Truthy(fieldSchema.description) {
        description := fieldSchema.description.value;
      }
      if fieldSchema.isOptional {
        required := false;
      }
      args := args + [PromptArgument(key, description, required)];
      i := i + 1;
    }
    forall j | 0 <= j < |inputSchema|
      ensures args[j] == PromptArguments(inputSchema)[j]
    {
      PromptArgumentsAt(inputSchema, j);
    }
  }

  /**
    A prompt name: `REPORT_CLUSTER_USAGE`, which has a registered handler,
    or any other member of the enumeration, which has none.
   */
  datatype PromptName = ReportClusterUsage | Unregistered(name: string)

  datatype PromptConfig = PromptConfig(name: string, description: string, inputSchema: InputSchema)

  /** A prompt handler, seen through `getPromptConfig()`. */
  datatype PromptHandler = PromptHandler(config: PromptConfig)

  /** A config spread together with its derived `arguments` field. */
  datatype PromptConfigWithArguments = PromptConfigWithArguments(config: PromptConfig, arguments: seq<PromptArgument>)

  /** An insertion-ordered map, as a list of entries. */
  type Table<K, V> = seq<(K, V)>

  type HandlerTable = Table<PromptName, PromptHandler>

  /** Each name occurs at most once, as in a map. */
  ghost predicate KeysUnique<K, V>(table: Table<K, V>)
  {
    forall i, j :: 0 <= i < j < |table| ==> table[i].0 != table[j].0
  }

  /** `Map.get`: the value registered under `name`, if any (keys are unique). */
  function Lookup<K(==), V>(table: Table<K, V>, name: K): (r: Option<V>)
    ensures r.None? <==> forall i :: 0 <= i < |table| ==> table[i].0 != name
    ensures r.Some? ==> exists i :: 0 <= i < |table| && table[i] == (name, r.value)
  {
    if table == [] then None
    else if table[0].0 == name then Some(table[0].1)
    else Lookup(table[1..], name)
  }

  /** In a map, the value found under a key is the one registered under it. */
  lemma {:induction false} LookupFindsEntry<K, V>(table: Table<K, V>, i: nat)
    requires KeysUnique(table) && i < |table|
    ensures Lookup(table, table[i].0) == Some(table[i].1)
  {
    if i > 0 {
      assert table[0].0 != table[i].0;
      assert table[1..][i - 1] == table[i];
      LookupFindsEntry(table[1..], i - 1);
    }
  }

  /** The static table: REPORT_CLUSTER_USAGE mapped to its handler. */
  function PromptHandlers(reportClusterUsage: PromptHandler): (table: HandlerTable)
    ensures KeysUnique(table)
  {
    [(ReportClusterUsage, reportClusterUsage)]
  }

  /** The registered handler for `name`, or none (`undefined`) for a name without one. */
  function GetPromptHandler(reportClusterUsage: PromptHandler, name: PromptName): (r: Option<PromptHandler>)
    ensures name == ReportClusterUsage ==> r == Some(reportClusterUsage)
    ensures name != ReportClusterUsage ==> r.None?
  {
    Lookup(PromptHandlers(reportClusterUsage), name)
  }

  /** `Array.from(map.keys())` */
  function Names<K, V>(table: Table<K, V>): (names: seq<K>)
    ensures |names| == |table|
    ensures forall i :: 0 <= i < |table| ==> names[i] == table[i].0
  {
    seq(|table|, i requires 0 <= i < |table| => table[i].0)
  }

  /** `Array.from(map.values()).map(h => h.getPromptConfig())` */
  function Configs<K>(table: Table<K, PromptHandler>): (configs: seq<PromptConfig>)
    ensures |configs| == |table|
    ensures forall i :: 0 <= i < |table| ==> configs[i] == table[i].1.config
  {
    seq(|table|, i requires 0 <= i < |table| => table[i].1.config)
  }

  /** Each handler's config unchanged, with the arguments derived from its input schema. */
  function ConfigsWithArguments<K>(table: Table<K, PromptHandler>): (configs: seq<PromptConfigWithArguments>)
    ensures |configs| == |table|
    ensures forall i :: 0 <= i < |table| ==>
      && configs[i].config == Configs(table)[i]
      && configs[i].arguments == PromptArguments(table[i].1.config.inputSchema)
  {
    seq(|table|, i requires 0 <= i < |table| =>
      PromptConfigWithArguments(table[i].1.config, PromptArguments(table[i].1.config.inputSchema)))
  }

  function GetPromptNames(reportClusterUsage: PromptHandler): (names: seq<PromptName>)
    ensures names == [ReportClusterUsage]
  {
    Names(PromptHandlers(reportClusterUsage))
  }

  function GetPromptConfigs(reportClusterUsage: PromptHandler): (configs: seq<PromptConfig>)
    ensures configs == [reportClusterUsage.config]
  {
    Configs(PromptHandlers(reportClusterUsage))
  }

  function GetPromptConfigsWithArguments(reportClusterUsage: PromptHandler): (configs: seq<PromptConfigWithArguments>)
    ensures |configs| == 1
    ensures configs[0].config == reportClusterUsage.config
    ensures configs[0].arguments == PromptArguments(reportClusterUsage.config.inputSchema)
  {
    ConfigsWithArguments(PromptHandlers(reportClusterUsage))
  }
}
