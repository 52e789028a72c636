/**
 * The operation constructors: the list/create operations of an entity set's
 * collection path and the get/delete/update operations of its instance path.
 */
module Operations {
  import opened Wrappers
  import opened OrderedMaps
  import opened Swagger
  import opened EntityModel

  /** The response every operation gives for a status it does not list. */
  const DefaultResponse: Response := Response("Unexpected error", Some(Ref("#/definitions/Error")))

  const EmptyResponse: Response := Response("Empty response.", None)

  /** The `$ref` target of an entity set's type schema. */
  function EntityRef(s: EntitySet): string {
    "#/definitions/" + QualifiedName(s)
  }

  /** The entity itself as a required body parameter named after its type. */
  function BodyParameter(s: EntitySet): Parameter {
    Parameter(s.entityType.name, InBody, true, Some(Ref(EntityRef(s))))
  }

  /** One required path parameter per key property, in key order, carrying no schema. */
  function KeyParameters(key: seq<EntityProperty>): (ps: seq<Parameter>)
    ensures |ps| == |key|
    ensures forall i :: 0 <= i < |key| ==> ps[i].name == key[i].name && ps[i].location == InPath && ps[i].required && ps[i].schema.None?
  {
    if |key| == 0 then []
    else [Parameter(key[0].name, InPath, true, None)] + KeyParameters(key[1..])
  }

  /** The fallback of an operation's responses is the shared error response. */
  predicate HasDefaultError(op: Operation) {
    Get(op.responses, "default") == Some(DefaultResponse)
  }

  /** `entitySetGet`: list the entities of the set. */
  function EntitySetGet(s: EntitySet): (op: Operation)
    ensures op.operationId == "get" + s.name
    ensures op.parameters.None?
    ensures Get(op.responses, "200") == Some(Response("List of " + s.entityType.name, Some(ArrayOf(Ref(EntityRef(s))))))
    ensures HasDefaultError(op)
  {
    Operation(
      "get" + s.name,
      None,
      [("200", Response("List of " + s.entityType.name, Some(ArrayOf(Ref(EntityRef(s)))))),
       ("default", DefaultResponse)])
  }

  /** `entitySetPost`: create an entity; its id is built from the set name, not the type name. */
  function EntitySetPost(s: EntitySet): (op: Operation)
    ensures op.operationId == "create" + s.name
    ensures op.parameters.Some? && |op.parameters.value| == 1
    ensures op.parameters.value[0].name == s.entityType.name && op.parameters.value[0].location == InBody
    ensures op.parameters.value[0].required && op.parameters.value[0].schema == Some(Ref(EntityRef(s)))
    ensures Get(op.responses, "204") == Some(EmptyResponse)
    ensures HasDefaultError(op)
  {
    Operation(
      "create" + s.name,
      Some([BodyParameter(s)]),
      [("204", EmptyResponse), ("default", DefaultResponse)])
  }

  /** `entitySetOperations`: the path item of the collection path, exactly `get` and `post`. */
  function EntitySetOperations(s: EntitySet): (item: PathItem)
    ensures item.get == Some(EntitySetGet(s)) && item.post == Some(EntitySetPost(s))
    ensures item.delete.None? && item.patch.None?
  {
    PathItem(Some(EntitySetGet(s)), Some(EntitySetPost(s)), None, None)
  }

  /** `entityTypeGet`: read one entity addressed by its key. */
  function EntityTypeGet(s: EntitySet): (op: Operation)
    requires s.entityType.key.Some?
    ensures op.operationId == "get" + s.entityType.name
    ensures op.parameters == Some(KeyParameters(s.entityType.key.value))
    ensures Get(op.responses, "200") == Some(Response("A " + s.entityType.name + ".", Some(Ref(EntityRef(s)))))
    ensures HasDefaultError(op)
  {
    Operation(
      "get" + s.entityType.name,
      Some(KeyParameters(s.entityType.key.value)),
      [("200", Response("A " + s.entityType.name + ".", Some(Ref(EntityRef(s))))),
       ("default", DefaultResponse)])
  }

  /** `entityTypeDelete`: delete one entity addressed by its key. */
  function EntityTypeDelete(s: EntitySet): (op: Operation)
    requires s.entityType.key.Some?
    ensures op.operationId == "delete" + s.entityType.name
    ensures op.parameters == Some(KeyParameters(s.entityType.key.value))
    ensures Get(op.responses, "204") == Some(EmptyResponse)
    ensures HasDefaultError(op)
  {
    Operation(
      "delete" + s.entityType.name,
      Some(KeyParameters(s.entityType.key.value)),
      [("204", EmptyResponse), ("default", DefaultResponse)])
  }

  /** `entityTypePatch`: update one entity; the key parameters come first and the body parameter last. */
  function EntityTypePatch(s: EntitySet): (op: Operation)
    requires s.entityType.key.Some?
    ensures op.operationId == "update" + s.entityType.name
    ensures op.parameters.Some?
    ensures |op.parameters.value| == |s.entityType.key.value| + 1
    ensures op.parameters.value[..|s.entityType.key.value|] == KeyParameters(s.entityType.key.value)
    ensures op.parameters.value[|s.entityType.key.value|] == BodyParameter(s)
    ensures Get(op.responses, "204") == Some(EmptyResponse)
    ensures HasDefaultError(op)
  {
    Operation(
      "update" + s.entityType.name,
      Some(KeyParameters(s.entityType.key.value) + [BodyParameter(s)]),
      [("204", EmptyResponse), ("default", DefaultResponse)])
  }

  /** `entityTypeOperations`: the path item of the instance path, exactly `get`, `delete` and `patch`. */
  function EntityTypeOperations(s: EntitySet): (item: PathItem)
    requires s.entityType.key.Some?
    ensures item.get == Some(EntityTypeGet(s)) && item.delete == Some(EntityTypeDelete(s))
    ensures item.patch == Some(EntityTypePatch(s)) && item.post.None?
  {
    PathItem(Some(EntityTypeGet(s)), None, Some(EntityTypeDelete(s)), Some(EntityTypePatch(s)))
  }

  /** Every operation the path item holds falls back to the shared error response. */
  ghost predicate DefaultsToError(item: PathItem) {
    && (item.get.Some? ==> HasDefaultError(item.get.value))
    && (item.post.Some? ==> HasDefaultError(item.post.value))
    && (item.delete.Some? ==> HasDefaultError(item.delete.value))
    && (item.patch.Some? ==> HasDefaultError(item.patch.value))
  }
}
