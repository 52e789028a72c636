/** The converter: the Swagger 2.0 document of a list of entity sets. */
module Converter {
  import opened Wrappers
  import opened OrderedMaps
  import opened Swagger
  import opened EntityModel
  import opened Strings
  import opened TypeMapper
  import opened Operations
  import opened DefinitionBuilder
  import opened PathBuilder
  import opened Seqs

  /** `convert`: the fixed envelope, the options' host and base path, and the two builders' maps. */
  function Convert(sets: seq<EntitySet>, options: Options): (doc: Document)
    ensures doc.swagger == "2.0"
    ensures doc.produces == ["application/json"]
    ensures doc.info == Info("OData Service", "0.0.1")
    ensures doc.host == options.host && doc.basePath == options.basePath
    ensures doc.paths == Paths(sets) && doc.definitions == Definitions(sets)
  {
    Document(
      "2.0",
      options.host,
      ["application/json"],
      options.basePath,
      Info("OData Service", "0.0.1"),
      Paths(sets),
      Definitions(sets))
  }

  /**
   * What the document promises about each entity set of a well-formed input:
   * its collection path with list and create, its instance path exactly when the
   * type has a key, its schema under the qualified name, and the `Error` schema.
   */
  lemma ConvertDescribesEverySet(sets: seq<EntitySet>, options: Options, i: nat)
    requires WellFormedSets(sets) && QualifiedNamesDistinct(sets)
    requires i < |sets|
    ensures var doc := Convert(sets, options);
      && Get(doc.paths, "/" + sets[i].name) == Some(EntitySetOperations(sets[i]))
      && (sets[i].entityType.key.Some? ==> Get(doc.paths, InstancePath(sets[i])) == Some(EntityTypeOperations(sets[i])))
      && ((exists k :: k in Keys(doc.paths) && IsInstancePathOf(k, sets[i].name)) <==> sets[i].entityType.key.Some?)
      && Get(doc.definitions, sets[i].namespace + "." + sets[i].entityType.name) == Some(EntitySchema(sets[i].entityType))
      && Get(doc.definitions, "Error") == Some(ErrorSchema)
  {
    CollectionPathLookup(sets, i);
    if sets[i].entityType.key.Some? {
      InstancePathLookup(sets, i);
    }
    InstancePathIffKey(sets, i);
    DefinitionsLastWins(sets, i);
    ErrorAlwaysDefined(sets);
  }

  /** Every operation of the document falls back to the shared error response. */
  lemma ConvertDefaultsToError(sets: seq<EntitySet>, options: Options)
    ensures forall i :: 0 <= i < |Convert(sets, options).paths| ==> DefaultsToError(Convert(sets, options).paths[i].1)
  {
    PathsDefaultToError(sets);
  }

  /** An empty input gives no paths and the `Error` definition alone. */
  lemma ConvertEmpty(options: Options)
    ensures Convert([], options).paths == []
    ensures Convert([], options).definitions == [("Error", ErrorSchema)]
  {
    DefinitionsInOrder([]);
  }

  const ProductId := EntityProperty("id", "Edm.Int32")

  /** The example entity set: products keyed by a 32-bit integer `id`, with a string `name`. */
  const Products := EntitySet("Products", "NS",
    EntityType("Product", [ProductId, EntityProperty("name", "Edm.String")], Some([ProductId])))

  lemma ProductsInstancePath()
    ensures InstancePath(Products) == "/Products({id})"
  {
    assert KeySegment(ProductId) == "{id}" by {
      assert IsBareKeyType("Edm.Int32");
    }
    assert KeySegments([ProductId]) == ["{id}"];
    assert Join(["{id}"], ",") == "{id}";
  }

  lemma ProductsPathsInOrder()
    ensures Paths([Products]) == SetPathEntries(Products)
  {
    assert WellFormedSets([Products]);
    PathsInOrder([Products]);
    assert [Products][1..] == [];
    assert FlatMap([Products], SetPathEntries) == SetPathEntries(Products) + FlatMap([], SetPathEntries);
  }

  lemma ProductsEntryKeys()
    ensures Keys(SetPathEntries(Products)) == ["/Products", "/Products({id})"]
  {
    ProductsInstancePath();
    var es := SetPathEntries(Products);
    assert |es| == 2 && es[0].0 == "/Products" && es[1].0 == "/Products({id})";
  }

  /** The products get a collection path and an instance path whose integer key is bare. */
  lemma ProductsPaths(options: Options)
    ensures Keys(Convert([Products], options).paths) == ["/Products", "/Products({id})"]
  {
    ProductsPathsInOrder();
    ProductsEntryKeys();
  }

  lemma ProductProperties()
    ensures Properties(Products.entityType.properties) == [
      ("id", Primitive(Property("integer", Some("int32")))),
      ("name", Primitive(Property("string", None)))]
  {
    var ps := Products.entityType.properties;
    PropertiesInOrder(ps);
    assert ps[0].name != ProtoKey && ps[1].name != ProtoKey;
    assert PropertyOf("Edm.String") == Property("string", None);
    var m := Properties(ps);
    assert |m| == 2;
    assert m[0] == ("id", Primitive(Property("integer", Some("int32"))));
    assert m[1] == ("name", Primitive(Property("string", None)));
  }

  /** The product schema maps `id` to a 32-bit integer and `name` to a plain string. */
  lemma ProductsDefinitions(options: Options)
    ensures Convert([Products], options).definitions == [
      ("Error", ErrorSchema),
      ("NS.Product", Object([
        ("id", Primitive(Property("integer", Some("int32")))),
        ("name", Primitive(Property("string", None)))]))]
  {
    assert QualifiedName(Products) == "NS.Product";
    ProductProperties();
    DefinitionsInOrder([Products]);
  }

  /** A string key is written quoted. */
  lemma StringKeyIsQuoted()
    ensures KeySegment(EntityProperty("code", "Edm.String")) == "'{code}'"
  {
  }
}
