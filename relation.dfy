/**
 * A Spark relation: a database/schema/identifier triple with a quote policy,
 * an include policy and a quote character, checked once when it is built
 * and once when it is rendered.
 */
module Relation {
  import opened Wrappers

  // ---------------------------------------------------------------------------
  // Relation kinds
  // ---------------------------------------------------------------------------

  /** The closed set of relation kinds. */
  datatype RelationType = Table | View | CTE

  /** The string a kind stands for; an enum member compares equal to it. */
  function TypeName(t: RelationType): (name: string)
    ensures ParseType(name) == Some(t)
  {
    match t
    case Table => "table"
    case View => "view"
    case CTE => "cte"
  }

  /** The kind a string names, as the enum's own lookup by value; `None` for any other string. */
  function ParseType(s: string): Option<RelationType> {
    if s == "table" then Some(Table)
    else if s == "view" then Some(View)
    else if s == "cte" then Some(CTE)
    else None
  }

  /** A string decodes to a kind only if it is that kind's value. */
  lemma ParseTypeSound(s: string)
    ensures ParseType(s).Some? ==> TypeName(ParseType(s).value) == s
  {
  }

  /** A string names a kind exactly when it is one of the three enum values. */
  lemma ParseTypeAccepts(s: string)
    ensures ParseType(s).Some? <==> s in {"table", "view", "cte"}
  {
  }

  /** The enum the relation reports as its type class: all three kinds. */
  function GetRelationType(): (kinds: set<RelationType>)
    ensures |kinds| == 3
  {
    {Table, View, CTE}
  }

  /** No kind lies outside the reported enum. */
  lemma GetRelationTypeComplete(t: RelationType)
    ensures t in GetRelationType()
  {
  }

  /** The values of the reported enum are exactly "table", "view" and "cte". */
  lemma RelationTypeNames()
    ensures (set t | t in GetRelationType() :: TypeName(t)) == {"table", "view", "cte"}
  {
    var names := set t | t in GetRelationType() :: TypeName(t);
    assert TypeName(Table) in names && TypeName(View) in names && TypeName(CTE) in names;
  }

  // ---------------------------------------------------------------------------
  // Policies
  // ---------------------------------------------------------------------------

  /** The three parts of a qualified name. */
  datatype ComponentName = Database | Schema | Identifier

  /** One flag per part of a qualified name: whether it is quoted, or whether it is included. */
  datatype Policy = Policy(database: bool, schema: bool, identifier: bool) {

    /** The flag for one part. */
    function Get(c: ComponentName): bool {
      match c
      case Database => database
      case Schema => schema
      case Identifier => identifier
    }
  }

  /** The default quote policy: no part is quoted. */
  function FabricSparkQuotePolicy(): (p: Policy)
    ensures forall c: ComponentName :: !p.Get(c)
  {
    Policy(false, false, false)
  }

  /** The default include policy: schema and identifier are rendered, the database is not. */
  function FabricSparkIncludePolicy(): (p: Policy)
    ensures forall c: ComponentName :: p.Get(c) <==> c != Database
  {
    Policy(false, true, true)
  }

  /** The default quote character: a single backtick. */
  function DefaultQuoteCharacter(): (c: string)
    ensures |c| == 1 && c[0] == '`'
  {
    "`"
  }

  // ---------------------------------------------------------------------------
  // The relation record
  // ---------------------------------------------------------------------------

  /** The two configuration errors of the relation, and a field the decoder cannot read. */
  datatype Error =
    | DatabaseSet        // a database distinct from the schema
    | BothIncluded       // database and schema both marked for rendering
    | BadField(key: string)

  /** An immutable relation; `kind` is optional as in the base relation. */
  datatype FabricSparkRelation = FabricSparkRelation(
    database: Option<string>,
    schema: Option<string>,
    identifier: Option<string>,
    kind: Option<RelationType>,
    quotePolicy: Policy,
    includePolicy: Policy,
    quoteCharacter: string,
    isDelta: Option<bool>,
    information: Option<string>)

  /** Python truthiness of an optional string: present and not empty. */
  predicate Truthy(s: Option<string>) {
    s.Some? && s.value != ""
  }

  /** The construction check: a truthy database must equal the schema. */
  predicate Constructible(r: FabricSparkRelation): (ok: bool)
    ensures ok <==> r.database == None || r.database == Some("") || r.database == r.schema
  {
    !(r.database != r.schema && Truthy(r.database))
  }

  /** Finishing construction: the relation itself, or the database error. */
  function PostInit(r: FabricSparkRelation): (res: Result<FabricSparkRelation, Error>)
    ensures res.Ok? <==> r.database == None || r.database == Some("") || r.database == r.schema
    ensures res.Ok? ==> res.value == r
    ensures res.Err? ==> res.error == DatabaseSet
  {
    if Constructible(r) then Ok(r) else Err(DatabaseSet)
  }

  /** Fixed cases of the construction rule. */
  lemma PostInitExamples(r: FabricSparkRelation)
    ensures r.database == Some("db1") && r.schema == Some("db2") ==> PostInit(r) == Err(DatabaseSet)
    ensures r.database == Some("db1") && r.schema == Some("db1") ==> PostInit(r) == Ok(r)
    ensures r.database == Some("db") && r.schema == None ==> PostInit(r) == Err(DatabaseSet)
    ensures r.database == Some("") ==> PostInit(r) == Ok(r)
    ensures r.database == None ==> PostInit(r) == Ok(r)
  {
  }

  /** Rendering: refused when database and schema are both included, else the base renderer's text as is. */
  function Render(baseRender: FabricSparkRelation -> string, r: FabricSparkRelation): (res: Result<string, Error>)
    ensures res.Err? <==> r.includePolicy.Get(Database) && r.includePolicy.Get(Schema)
    ensures res.Err? ==> res.error == BothIncluded
    ensures res.Ok? ==> res.value == baseRender(r)
  {
    if r.includePolicy.database && r.includePolicy.schema then Err(BothIncluded)
    else Ok(baseRender(r))
  }

  /** Turning off either outer qualifier lets a refused relation render. */
  lemma RenderAfterExclusion(baseRender: FabricSparkRelation -> string, r: FabricSparkRelation)
    requires Render(baseRender, r).Err?
    ensures Render(baseRender, r.(includePolicy := r.includePolicy.(database := false))) == Ok(baseRender(r.(includePolicy := r.includePolicy.(database := false))))
    ensures Render(baseRender, r.(includePolicy := r.includePolicy.(schema := false))) == Ok(baseRender(r.(includePolicy := r.includePolicy.(schema := false))))
  {
  }

  /** A relation with the default include policy always reaches the base renderer. */
  lemma DefaultIncludeRenders(baseRender: FabricSparkRelation -> string, r: FabricSparkRelation)
    requires r.includePolicy == FabricSparkIncludePolicy()
    ensures Render(baseRender, r) == Ok(baseRender(r))
  {
  }
}
