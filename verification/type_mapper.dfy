/**
 * The primitive type mapper: the Swagger descriptor `{ type, format? }` of an
 * OData CSDL `Edm.*` primitive type name.
 */
module TypeMapper {
  import opened Wrappers
  import opened OrderedMaps
  import opened Swagger

  /** The descriptor every type name outside the table falls back to. */
  const StringProperty := Property("string", None)

  /** The mapping written out as data: the recognised names and their descriptors. */
  const EdmTable: OrderedMap<Property> := [
    ("Edm.Int16", Property("integer", Some("int32"))),
    ("Edm.Int32", Property("integer", Some("int32"))),
    ("Edm.Int64", Property("integer", Some("int64"))),
    ("Edm.Boolean", Property("boolean", None)),
    ("Edm.Byte", Property("string", Some("byte"))),
    ("Edm.Date", Property("string", Some("date"))),
    ("Edm.DateTimeOffset", Property("string", Some("date-time"))),
    ("Edm.Double", Property("number", Some("double"))),
    ("Edm.Single", Property("number", Some("single")))
  ]

  /** The type names the table recognises, written out (see KnownTypesAreTableKeys). */
  const KnownTypes: set<string> := {
    "Edm.Int16", "Edm.Int32", "Edm.Int64", "Edm.Boolean", "Edm.Byte",
    "Edm.Date", "Edm.DateTimeOffset", "Edm.Double", "Edm.Single"
  }

  /** The descriptor of a property of type `edmType`; total, unknown names become plain strings. */
  function PropertyOf(edmType: string): (p: Property)
    ensures edmType !in KnownTypes ==> p == StringProperty
    ensures p.dataType == "integer" <==> edmType in {"Edm.Int16", "Edm.Int32", "Edm.Int64"}
    ensures p.dataType == "number" <==> edmType in {"Edm.Double", "Edm.Single"}
    ensures p.dataType == "boolean" <==> edmType == "Edm.Boolean"
    ensures p.format.None? <==> edmType == "Edm.Boolean" || edmType !in KnownTypes
  {
    match edmType
    case "Edm.Int16" | "Edm.Int32" => Property("integer", Some("int32"))
    case "Edm.Int64" => Property("integer", Some("int64"))
    case "Edm.Boolean" => Property("boolean", None)
    case "Edm.Byte" => Property("string", Some("byte"))
    case "Edm.Date" => Property("string", Some("date"))
    case "Edm.DateTimeOffset" => Property("string", Some("date-time"))
    case "Edm.Double" => Property("number", Some("double"))
    case "Edm.Single" => Property("number", Some("single"))
    case _ => StringProperty
  }

  /** The switch agrees with the table: a listed name gets its row, any other name the string fallback. */
  lemma PropertyOfMatchesTable(edmType: string)
    ensures PropertyOf(edmType) == Get(EdmTable, edmType).GetOr(StringProperty)
  {
    var t := EdmTable;
    assert t[1..][1..][1..][1..][1..][1..][1..][1..][1..] == [];
    match edmType
    case "Edm.Int16" =>
    case "Edm.Int32" =>
    case "Edm.Int64" =>
    case "Edm.Boolean" =>
    case "Edm.Byte" =>
    case "Edm.Date" =>
    case "Edm.DateTimeOffset" =>
    case "Edm.Double" =>
    case "Edm.Single" =>
    case _ =>
  }

  /** The recognised names are exactly the names the table lists. */
  lemma KnownTypesAreTableKeys(edmType: string)
    ensures edmType in KnownTypes <==> edmType in Keys(EdmTable)
  {
    assert Keys(EdmTable) == [
      "Edm.Int16", "Edm.Int32", "Edm.Int64", "Edm.Boolean", "Edm.Byte",
      "Edm.Date", "Edm.DateTimeOffset", "Edm.Double", "Edm.Single"
    ];
  }
}
