# Fabric Spark relation, modelled in Dafny

This project models the relation type of the Fabric Spark adapter for dbt
(`src/dbt/adapters/fabricspark/relation.py`). A relation is an immutable
database/schema/identifier triple. It also carries a kind (`table`, `view` or
`cte`), a quote policy, an include policy, a quote character and two
metadata fields (`is_delta`, `information`).

The relation has three gates:

- **Pre-deserialisation.** When the raw field mapping has no `type`, or its
  `type` is `None`, the type is set to `table`. This runs after the base
  relation's own pre-deserialisation step.
- **Construction.** A relation whose database is truthy and differs from its
  schema is refused.
- **Rendering.** Rendering is refused when the include policy marks both the
  database and the schema. Otherwise the base relation's renderer does the work.

Files:

- `wrappers.dfy` (module `Wrappers`): `Option` (with `None` standing for
  Python's `None`) and `Result` (a value, or the error a call raises).
- `relation.dfy` (module `Relation`): the relation kinds and their names, the
  policies and their defaults, the relation record, the construction check
  `PostInit`, and `Render`.
- `mapping.dfy` (module `Mapping`): the raw field mapping and
  `PreDeserialize`. It also holds a decoder `FromDict`, which pre-deserialises,
  reads each field with the relation's defaults and then runs `PostInit`.
  `ToDict` writes a relation out as such a mapping, and the round-trip lemmas
  connect the two.

The two base-class collaborators are not part of this model. They are
parameters of the operations that call them:

- `basePre: RawData -> RawData` stands for the base relation's
  pre-deserialisation.
- `baseRender: FabricSparkRelation -> string` stands for the base relation's
  renderer.

Most statements about them hold for any such function. The exceptions
concern the base pre-deserialisation step:

- `Mapping.PreDeserializeIdempotent` assumes a base step that changes nothing.
- `Mapping.RoundTripChecked`, `Mapping.RoundTrip`, `Mapping.RoundTripExact`
  and `Mapping.RoundTripRejects` assume that the base step leaves the
  written-out mapping of the relation unchanged.

A round trip can only be expected to hold when the base step gives back a
complete mapping as it found it. A base step that dropped or rewrote fields
could make any decoded relation differ from the one that was written out.

Python truthiness is modelled as written. The database counts as set only when
it is `Some(s)` with `s != ""`. So `database = "db"` with `schema = None` is
refused, and `database = ""` is accepted with any schema. A looser reading,
"both present and unequal", would accept `database = "db"` with
`schema = None`. The code at relation.py:57 refuses that relation, and so
does `PostInit`.

## Model

| member | source | states |
|---|---|---|
| `Relation.TypeName` | src/dbt/adapters/fabricspark/relation.py:16-18 | each kind's value decodes back to that kind (`table`, `view`, `cte`) |
| `Relation.ParseTypeSound` | src/dbt/adapters/fabricspark/relation.py:15-18 | a string is decoded to a kind only if it is that kind's value |
| `Relation.ParseTypeAccepts` | src/dbt/adapters/fabricspark/relation.py:15-18 | a string names a kind exactly when it is one of `table`, `view`, `cte` |
| `Relation.GetRelationType` | src/dbt/adapters/fabricspark/relation.py:53-54 | the kind enum the relation reports has exactly three members |
| `Relation.GetRelationTypeComplete` | src/dbt/adapters/fabricspark/relation.py:53-54 | every kind is a member of the reported enum (the set is closed) |
| `Relation.RelationTypeNames` | src/dbt/adapters/fabricspark/relation.py:15-18 | the values of the reported enum are exactly `table`, `view` and `cte` |
| `Relation.FabricSparkQuotePolicy` | src/dbt/adapters/fabricspark/relation.py:21-25 | the default quote policy quotes no part of the name |
| `Relation.FabricSparkIncludePolicy` | src/dbt/adapters/fabricspark/relation.py:28-32 | the default include policy includes a part exactly when it is not the database |
| `Relation.DefaultQuoteCharacter` | src/dbt/adapters/fabricspark/relation.py:39 | the default quote character is a single backtick |
| `Relation.Constructible` | src/dbt/adapters/fabricspark/relation.py:57 | the construction condition holds exactly when the database is `None`, empty or equal to the schema |
| `Relation.PostInit` | src/dbt/adapters/fabricspark/relation.py:56-58 | construction succeeds, returning the relation unchanged, exactly when the database is `None`, empty or equal to the schema; otherwise it fails with the database error |
| `Relation.PostInitExamples` | src/dbt/adapters/fabricspark/relation.py:57 | db1/db2 fails, db1/db1 succeeds, "db" with no schema fails, an empty or absent database succeeds |
| `Relation.Render` | src/dbt/adapters/fabricspark/relation.py:60-66 | rendering fails exactly when database and schema are both included; otherwise it returns the base renderer's text for the same relation unchanged |
| `Relation.RenderAfterExclusion` | src/dbt/adapters/fabricspark/relation.py:61-66 | a relation refused at render time renders through the base renderer once either the database or the schema is excluded |
| `Relation.DefaultIncludeRenders` | src/dbt/adapters/fabricspark/relation.py:29-32 | a relation with the default include policy always reaches the base renderer |
| `Mapping.PreDeserialize` | src/dbt/adapters/fabricspark/relation.py:45-50 | after the base step, a missing or `None` type becomes `table`, a non-null type is kept, and every other key and value is left as the base step produced it |
| `Mapping.PreDeserializeSetsType` | src/dbt/adapters/fabricspark/relation.py:48-49 | after the step, looking up the type never gives `None` |
| `Mapping.PreDeserializeIdempotent` | src/dbt/adapters/fabricspark/relation.py:45-50 | with a base step that changes nothing, running the step twice equals running it once |
| `Mapping.DecodeOptText` | src/dbt/adapters/fabricspark/relation.py:42 | an optional string field decodes when it is absent, `None` or a string, and writing the decoded value back gives the raw lookup |
| `Mapping.DecodeOptFlag` | src/dbt/adapters/fabricspark/relation.py:40 | an optional flag decodes when it is absent, `None` or a bool, and writing it back gives the raw lookup |
| `Mapping.DecodeText` | src/dbt/adapters/fabricspark/relation.py:39 | the quote character is the given string, or the default when the key is absent; anything else is refused |
| `Mapping.DecodePolicy` | src/dbt/adapters/fabricspark/relation.py:37-38 | a policy field is the given policy, or the default when the key is absent; anything else is refused |
| `Mapping.DecodeType` | src/dbt/adapters/fabricspark/relation.py:15-18 | the type decodes when it is null or names a kind, and writing the decoded kind back gives the raw lookup |
| `Mapping.FromDict` | src/dbt/adapters/fabricspark/relation.py:45-58 | every deserialised relation passes the construction check, and deserialisation never raises the render error |
| `Mapping.FromDictDefaultsType` | src/dbt/adapters/fabricspark/relation.py:45-50 | a mapping whose type is missing or `None` after the base step deserialises, if at all, to a table |
| `Mapping.FromDictHasKind` | src/dbt/adapters/fabricspark/relation.py:48-49 | every deserialised relation has a kind |
| `Mapping.FromDictFieldDefaults` | src/dbt/adapters/fabricspark/relation.py:37-39 | a mapping without policy or quote keys deserialises to no quoting, the default include policy and a backtick |
| `Mapping.FromDictDefaultRenders` | src/dbt/adapters/fabricspark/relation.py:38 | a relation deserialised without an include policy never trips the render check |
| `Mapping.DecodeFields` | src/dbt/adapters/fabricspark/relation.py:37-42 | a mapping that holds a relation's fields decodes to the construction check's verdict on that relation |
| `Mapping.RoundTripChecked` | src/dbt/adapters/fabricspark/relation.py:44-58 | writing any relation out and reading it back gives the construction verdict on it, with a missing kind read back as `table` |
| `Mapping.RoundTrip` | src/dbt/adapters/fabricspark/relation.py:44-58 | a relation that passes construction reads back with the same fields, except that a missing kind becomes `table` |
| `Mapping.RoundTripExact` | src/dbt/adapters/fabricspark/relation.py:48-49 | the read-back relation equals the original exactly when the original has a kind |
| `Mapping.RoundTripRejects` | src/dbt/adapters/fabricspark/relation.py:56-58 | a relation that fails construction cannot be written out and read back: reading fails with the database error |

## Left out

- `src/dbt/adapters/fabricspark/python_submissions.py` is not part of this model. It only does remote I/O: it obtains a Livy session, sends code to a remote cursor, prints rows and re-wraps one exception type.
- The base relation's renderer and its pre-deserialisation are external library code. They are function parameters, not definitions, so no qualified-name algorithm is modelled.
- `FromDict`, `Decode` and `ToDict` stand in for the framework's dataclass (de)serialiser, which is not shown. They use a flat mapping with one key per field. The base relation nests the path, and that nesting is not modelled. A policy value is carried as its decoded triple rather than as a nested mapping. A `None` policy or quote character is assumed to be refused.
- Mapping.DecodeType: the `type` field is declared by the base relation, which is not part of this model. The model assumes that only `table`, `view` and `cte` decode, and it refuses every other string, such as a kind that only the base relation knows.
- The construction check is not an invariant of the `FabricSparkRelation` datatype. A record built directly, without `PostInit`, is not checked, and `Render` accepts it. In the source, `__post_init__` runs on every construction and the class is frozen, so no such instance exists.
- A relation built directly can have no kind (`kind == None`), as in the base relation. Only the pre-deserialisation path fills in `table`. For that reason the round trip gives back `table` for a missing kind, not `None`.
- Error message texts are not modelled. The two configuration errors are told apart as `DatabaseSet` and `BothIncluded`, and a field the decoder cannot read is `BadField`.
- The dataclass and enum machinery (`frozen`, `eq`, `repr`, `StrEnum`) and the module logger are framework glue and are left out. A kind's string value is given by `TypeName`.
- `is_delta` and `information` are carried as plain fields with no behaviour, as in the source.
- Fields that the base relation defines beyond those listed here are not part of this model.
