/**
 * The fixed table of which actions the generic database endpoint may run
 * on which table, and for which roles.
 */
module SchemaConfig {

  /** The four generic actions (`TableActions`). */
  const TableActions: set<string> := {"select", "insert", "update", "delete"}

  datatype TableConfig = TableConfig(actions: seq<string>, roles: seq<string>)

  const All: seq<string> := ["select", "insert", "update", "delete"]

  const Authenticated: seq<string> := ["authenticated"]

  /** `schemaConfig`, one entry per table. */
  const Config: map<string, TableConfig> := map[
    "profiles" := TableConfig(["select", "update"], Authenticated),
    "competitors" := TableConfig(All, Authenticated),
    "chat_messages" := TableConfig(All, Authenticated),
    "llm_models" := TableConfig(["select"], Authenticated),
    "conditions" := TableConfig(All, Authenticated),
    "competitor_condition_lookup" := TableConfig(["select", "insert", "delete"], Authenticated),
    "competitor_product_match" := TableConfig(All, Authenticated)
  ]

  /** The tables of the typed database schema. */
  const DatabaseTables: set<string> := {
    "llm_models", "chat_messages", "profiles", "competitors", "conditions",
    "competitor_condition_lookup", "competitor_product_match"
  }

  /** `tableConfig.actions.includes(action)` */
  predicate Allows(config: TableConfig, action: string) {
    action in config.actions
  }

  /** The configuration has exactly one entry per table of the schema, seven in all. */
  lemma ConfigCoversSchema()
    ensures Config.Keys == DatabaseTables && |Config| == 7
  {
    assert Config.Keys == DatabaseTables;
  }

  /** Every entry lists only the four generic actions. */
  lemma ConfigListsOnlyTableActions()
    ensures forall t, a :: t in Config && a in Config[t].actions ==> a in TableActions
  {
  }

  /** Every entry names the single role `authenticated`. */
  lemma RolesAreAuthenticated()
    ensures forall t :: t in Config ==> Config[t].roles == ["authenticated"]
  {
  }

  /** `llm_models` is read-only. */
  lemma LlmModelsSelectOnly()
    ensures forall a :: Allows(Config["llm_models"], a) <==> a == "select"
  {
  }

  /** `profiles` can be read and updated, but rows are never inserted or deleted. */
  lemma ProfilesSelectAndUpdate()
    ensures forall a :: Allows(Config["profiles"], a) <==> a == "select" || a == "update"
  {
  }

  /** `competitor_condition_lookup` allows everything except `update`. */
  lemma LookupTableNoUpdate()
    ensures forall a :: Allows(Config["competitor_condition_lookup"], a) <==> a in TableActions && a != "update"
  {
  }

  /** The four remaining tables allow every action. */
  lemma FullAccessTables()
    ensures forall t, a :: t in {"competitors", "chat_messages", "conditions", "competitor_product_match"} ==>
      (Allows(Config[t], a) <==> a in TableActions)
  {
  }
}
