/**
 * The input of the converter: OData entity sets, their entity types and the
 * run options. These are supplied already parsed; nothing here validates them.
 */
module EntityModel {
  import opened Wrappers

  /** A structural property of an entity type; `edmType` is an `Edm.*` primitive type name. */
  datatype EntityProperty = EntityProperty(name: string, edmType: string)

  /**
   * An entity type. `key` is None when the type declares no key (the field is
   * `undefined`); `Some([])` is a present but empty key list.
   */
  datatype EntityType = EntityType(
    name: string,
    properties: seq<EntityProperty>,
    key: Option<seq<EntityProperty>>)

  datatype EntitySet = EntitySet(name: string, namespace: string, entityType: EntityType)

  /** The run options copied into the document envelope; either may be absent. */
  datatype Options = Options(host: Option<string>, basePath: Option<string>)

  /** `namespace.TypeName`: the definitions key of an entity set's type. */
  function QualifiedName(s: EntitySet): (q: string)
    ensures |q| > |s.namespace| && q[|s.namespace|] == '.'
  {
    s.namespace + "." + s.entityType.name
  }

  /** A qualified name always contains a dot, so it is never the reserved key `Error`. */
  lemma QualifiedNameNotError(s: EntitySet)
    ensures QualifiedName(s) != "Error"
  {
    var q := QualifiedName(s);
    if |q| == 5 {
      assert q[|s.namespace|] == '.';
      assert forall i :: 0 <= i < 5 ==> "Error"[i] != '.';
    }
  }
}
