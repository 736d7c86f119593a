/**
 * The relation's raw field mapping: the type default applied before
 * decoding, the decoding of each field with its default, and the mapping a
 * relation is written out to.
 */
module Mapping {
  import opened Wrappers
  import opened Relation

  /** A raw field value; a policy is carried as its decoded triple. */
  datatype Value = Text(text: string) | Flag(flag: bool) | Parts(policy: Policy)

  /** A raw field mapping; a key present with `None` holds Python's `None`. */
  type RawData = map<string, Option<Value>>

  /** The value the type default writes: the `Table` enum member, which is the string "table". */
  const TableValue: Value := Text(TypeName(Table))

  /** True when looking `key` up gives Python's `None`: the key is absent or holds `None`. */
  predicate IsNull(data: RawData, key: string) {
    key !in data || data[key].None?
  }

  /**
   * Pre-deserialisation: the base step `basePre` first, then a missing or
   * `None` type is set to `Table`.
   */
  function PreDeserialize(basePre: RawData -> RawData, data: RawData): (out: RawData)
    ensures out.Keys == basePre(data).Keys + {"type"}
    ensures IsNull(basePre(data), "type") ==> out["type"] == Some(TableValue)
    ensures !IsNull(basePre(data), "type") ==> out["type"] == basePre(data)["type"]
    ensures forall k | k in out && k != "type" :: out[k] == basePre(data)[k]
  {
    var d := basePre(data);
    if IsNull(d, "type") then d["type" := Some(TableValue)] else d
  }

  /** After the step no lookup of the type gives `None`. */
  lemma PreDeserializeSetsType(basePre: RawData -> RawData, data: RawData)
    ensures !IsNull(PreDeserialize(basePre, data), "type")
  {
  }

  /** With a base step that changes nothing, running the step twice is running it once. */
  lemma PreDeserializeIdempotent(basePre: RawData -> RawData, data: RawData)
    requires forall d :: basePre(d) == d
    ensures PreDeserialize(basePre, PreDeserialize(basePre, data)) == PreDeserialize(basePre, data)
  {
  }

  // ---------------------------------------------------------------------------
  // Decoding the fields
  // ---------------------------------------------------------------------------

  /** What looking `key` up gives, with Python's `None` for an absent key. */
  function Lookup(data: RawData, key: string): Option<Value> {
    if key in data then data[key] else None
  }

  /** An optional string field: absent or `None` gives `None`. */
  function DecodeOptText(data: RawData, key: string): (r: Result<Option<string>, Error>)
    ensures r.Ok? <==> IsNull(data, key) || data[key].value.Text?
    ensures r.Ok? ==> Lookup(data, key) == OptText(r.value)
    ensures r.Err? ==> r.error == BadField(key)
  {
    if IsNull(data, key) then Ok(None)
    else match data[key].value
      case Text(s) => Ok(Some(s))
      case _ => Err(BadField(key))
  }

  /** An optional flag: absent or `None` gives `None`. */
  function DecodeOptFlag(data: RawData, key: string): (r: Result<Option<bool>, Error>)
    ensures r.Ok? <==> IsNull(data, key) || data[key].value.Flag?
    ensures r.Ok? ==> Lookup(data, key) == OptFlag(r.value)
    ensures r.Err? ==> r.error == BadField(key)
  {
    if IsNull(data, key) then Ok(None)
    else match data[key].value
      case Flag(b) => Ok(Some(b))
      case _ => Err(BadField(key))
  }

  /** A string field with a default: absent gives the default, `None` is refused. */
  function DecodeText(data: RawData, key: string, default: string): (r: Result<string, Error>)
    ensures r.Ok? <==> key !in data || (data[key].Some? && data[key].value.Text?)
    ensures r.Ok? ==> if key in data then data[key] == Some(Text(r.value)) else r.value == default
    ensures r.Err? ==> r.error == BadField(key)
  {
    if key !in data then Ok(default)
    else match data[key]
      case Some(Text(s)) => Ok(s)
      case _ => Err(BadField(key))
  }

  /** A policy field with a default: absent gives the default, `None` is refused. */
  function DecodePolicy(data: RawData, key: string, default: Policy): (r: Result<Policy, Error>)
    ensures r.Ok? <==> key !in data || (data[key].Some? && data[key].value.Parts?)
    ensures r.Ok? ==> if key in data then data[key] == Some(Parts(r.value)) else r.value == default
    ensures r.Err? ==> r.error == BadField(key)
  {
    if key !in data then Ok(default)
    else match data[key]
      case Some(Parts(p)) => Ok(p)
      case _ => Err(BadField(key))
  }

  /** The kind: absent or `None` gives `None`; a string must name a kind. */
  function DecodeType(data: RawData): (r: Result<Option<RelationType>, Error>)
    ensures r.Ok? <==> IsNull(data, "type") || (data["type"].value.Text? && ParseType(data["type"].value.text).Some?)
    ensures r.Ok? ==> Lookup(data, "type") == OptType(r.value)
    ensures r.Err? ==> r.error == BadField("type")
  {
    if IsNull(data, "type") then Ok(None)
    else match data["type"].value
      case Text(s) =>
        (match ParseType(s)
         case Some(t) => Ok(Some(t))
         case None => Err(BadField("type")))
      case _ => Err(BadField("type"))
  }

  /** Decoding every field with the relation's defaults, then the construction check. */
  function Decode(d: RawData): Result<FabricSparkRelation, Error> {
    var database :- DecodeOptText(d, "database");
    var schema :- DecodeOptText(d, "schema");
    var identifier :- DecodeOptText(d, "identifier");
    var kind :- DecodeType(d);
    var quotePolicy :- DecodePolicy(d, "quote_policy", FabricSparkQuotePolicy());
    var includePolicy :- DecodePolicy(d, "include_policy", FabricSparkIncludePolicy());
    var quoteCharacter :- DecodeText(d, "quote_character", DefaultQuoteCharacter());
    var isDelta :- DecodeOptFlag(d, "is_delta");
    var information :- DecodeOptText(d, "information");
    PostInit(FabricSparkRelation(database, schema, identifier, kind, quotePolicy, includePolicy,
                                 quoteCharacter, isDelta, information))
  }

  /** Deserialisation: pre-deserialise, then decode. */
  function FromDict(basePre: RawData -> RawData, data: RawData): (r: Result<FabricSparkRelation, Error>)
    ensures r.Ok? ==> Constructible(r.value)
    ensures r.Err? ==> r.error != BothIncluded
  {
    Decode(PreDeserialize(basePre, data))
  }

  /** A mapping whose type is missing or `None` decodes, if at all, to a table. */
  lemma FromDictDefaultsType(basePre: RawData -> RawData, data: RawData)
    requires IsNull(basePre(data), "type")
    ensures FromDict(basePre, data).Ok? ==> FromDict(basePre, data).value.kind == Some(Table)
  {
  }

  /** Whatever the mapping, a decoded relation has a kind. */
  lemma FromDictHasKind(basePre: RawData -> RawData, data: RawData)
    ensures FromDict(basePre, data).Ok? ==> FromDict(basePre, data).value.kind.Some?
  {
  }

  /** Absent policy and quote keys decode to the defaults: nothing quoted, no database rendered, a backtick. */
  lemma FromDictFieldDefaults(basePre: RawData -> RawData, data: RawData)
    requires "quote_policy" !in basePre(data)
    requires "include_policy" !in basePre(data)
    requires "quote_character" !in basePre(data)
    ensures FromDict(basePre, data).Ok? ==>
      var r := FromDict(basePre, data).value;
      && r.quotePolicy == FabricSparkQuotePolicy()
      && r.includePolicy == FabricSparkIncludePolicy()
      && r.quoteCharacter == "`"
  {
  }

  /** A relation decoded with the default include policy never trips the render check. */
  lemma FromDictDefaultRenders(baseRender: FabricSparkRelation -> string, basePre: RawData -> RawData, data: RawData)
    requires "include_policy" !in basePre(data)
    requires FromDict(basePre, data).Ok?
    ensures Render(baseRender, FromDict(basePre, data).value).Ok?
  {
  }

  // ---------------------------------------------------------------------------
  // Writing a relation out
  // ---------------------------------------------------------------------------

  /** An optional string as a raw value. */
  function OptText(s: Option<string>): Option<Value> {
    match s
    case Some(v) => Some(Text(v))
    case None => None
  }

  /** An optional flag as a raw value. */
  function OptFlag(b: Option<bool>): Option<Value> {
    match b
    case Some(v) => Some(Flag(v))
    case None => None
  }

  /** An optional kind as a raw value: the string the kind stands for. */
  function OptType(t: Option<RelationType>): Option<Value> {
    match t
    case Some(v) => Some(Text(TypeName(v)))
    case None => None
  }

  /** The raw mapping of a relation, one key per field. */
  function ToDict(r: FabricSparkRelation): RawData {
    map[
      "database" := OptText(r.database),
      "schema" := OptText(r.schema),
      "identifier" := OptText(r.identifier),
      "type" := OptType(r.kind),
      "quote_policy" := Some(Parts(r.quotePolicy)),
      "include_policy" := Some(Parts(r.includePolicy)),
      "quote_character" := Some(Text(r.quoteCharacter)),
      "is_delta" := OptFlag(r.isDelta),
      "information" := OptText(r.information)
    ]
  }

  /** Decoding a mapping that holds a relation's fields gives back those fields, checked. */
  lemma DecodeFields(d: RawData, r: FabricSparkRelation)
    requires Lookup(d, "database") == OptText(r.database)
    requires Lookup(d, "schema") == OptText(r.schema)
    requires Lookup(d, "identifier") == OptText(r.identifier)
    requires Lookup(d, "type") == OptType(r.kind)
    requires "quote_policy" in d && d["quote_policy"] == Some(Parts(r.quotePolicy))
    requires "include_policy" in d && d["include_policy"] == Some(Parts(r.includePolicy))
    requires "quote_character" in d && d["quote_character"] == Some(Text(r.quoteCharacter))
    requires Lookup(d, "is_delta") == OptFlag(r.isDelta)
    requires Lookup(d, "information") == OptText(r.information)
    ensures Decode(d) == PostInit(r)
  {
  }

  /**
   * Round trip: a relation written out and read back gives the construction
   * check's verdict on it, with a missing kind read back as `Table`.
   */
  lemma RoundTripChecked(basePre: RawData -> RawData, r: FabricSparkRelation)
    requires basePre(ToDict(r)) == ToDict(r)
    ensures FromDict(basePre, ToDict(r)) == PostInit(r.(kind := Some(r.kind.GetOr(Table))))
  {
    var d := PreDeserialize(basePre, ToDict(r));
    DecodeFields(d, r.(kind := Some(r.kind.GetOr(Table))));
  }

  /**
   * Round trip: a relation that passes the construction check and is written
   * out comes back with the same fields, except that a missing kind comes
   * back as `Table`.
   */
  lemma RoundTrip(basePre: RawData -> RawData, r: FabricSparkRelation)
    requires basePre(ToDict(r)) == ToDict(r)
    requires Constructible(r)
    ensures FromDict(basePre, ToDict(r)) == Ok(r.(kind := Some(r.kind.GetOr(Table))))
  {
    RoundTripChecked(basePre, r);
  }

  /** The round trip gives back the very same relation exactly when the relation has a kind. */
  lemma RoundTripExact(basePre: RawData -> RawData, r: FabricSparkRelation)
    requires basePre(ToDict(r)) == ToDict(r)
    requires Constructible(r)
    ensures FromDict(basePre, ToDict(r)) == Ok(r) <==> r.kind.Some?
  {
  }

  /** A relation that fails the construction check cannot be written out and read back. */
  lemma RoundTripRejects(basePre: RawData -> RawData, r: FabricSparkRelation)
    requires basePre(ToDict(r)) == ToDict(r)
    requires !Constructible(r)
    ensures FromDict(basePre, ToDict(r)) == Err(DatabaseSet)
  {
  }
}
