/**
 * The definitions builder: the document's `definitions` map, holding the fixed
 * `Error` schema and one object schema per entity set, keyed `namespace.TypeName`.
 */
module DefinitionBuilder {
  import opened Wrappers
  import opened OrderedMaps
  import opened Swagger
  import opened EntityModel
  import opened TypeMapper

  /** The error envelope `{ error: { code, message } }` every default response refers to. */
  const ErrorSchema: Schema := Object([
    ("error", Object([
      ("code", Primitive(Property("string", None))),
      ("message", Primitive(Property("string", None)))]))])

  /** The assignments `properties` performs, in declaration order. */
  function PropertyEntries(ps: seq<EntityProperty>): seq<(string, Schema)> {
    seq(|ps|, i requires 0 <= i < |ps| => (ps[i].name, Primitive(PropertyOf(ps[i].edmType))))
  }

  /** `properties`: each property's name mapped to the descriptor of its type, by object assignment. */
  function Properties(ps: seq<EntityProperty>): OrderedMap<Schema> {
    AssignAll([], PropertyEntries(ps))
  }

  /** `schema`: the object schema of an entity type. */
  function EntitySchema(t: EntityType): Schema {
    Object(Properties(t.properties))
  }

  /** The assignments `definitions` performs after the `Error` entry, one per entity set in order. */
  function DefinitionEntries(sets: seq<EntitySet>): seq<(string, Schema)> {
    seq(|sets|, i requires 0 <= i < |sets| => (QualifiedName(sets[i]), EntitySchema(sets[i].entityType)))
  }

  /** `definitions`. */
  function Definitions(sets: seq<EntitySet>): OrderedMap<Schema> {
    AssignAll([("Error", ErrorSchema)], DefinitionEntries(sets))
  }

  predicate NamesDistinct(ps: seq<EntityProperty>) {
    forall i, j :: 0 <= i < j < |ps| ==> ps[i].name != ps[j].name
  }

  predicate QualifiedNamesDistinct(sets: seq<EntitySet>) {
    forall i, j :: 0 <= i < j < |sets| ==> QualifiedName(sets[i]) != QualifiedName(sets[j])
  }

  /** The keys of a properties map are exactly the declared property names other than `__proto__`. */
  lemma PropertiesKeys(ps: seq<EntityProperty>, n: string)
    ensures n in Keys(Properties(ps)) <==> n != ProtoKey && exists i :: 0 <= i < |ps| && ps[i].name == n
  {
    var es := PropertyEntries(ps);
    AssignAllOwn([], es);
    PutAllKeys([], OwnEntries(es), n);
    OwnEntriesKeys(es, n);
    if exists i :: 0 <= i < |ps| && ps[i].name == n {
      var i :| 0 <= i < |ps| && ps[i].name == n;
      assert Keys(es)[i] == n;
    }
  }

  /** No property name is stored twice, even when the declaration repeats one. */
  lemma PropertiesUnique(ps: seq<EntityProperty>)
    ensures KeysUnique(Properties(ps))
  {
    var es := PropertyEntries(ps);
    AssignAllOwn([], es);
    PutAllKeepsUnique([], OwnEntries(es));
  }

  /**
   * A repeated property name holds the descriptor of its last declaration; a
   * property named `__proto__` is stored under no key at all.
   */
  lemma PropertiesLastWins(ps: seq<EntityProperty>, i: nat)
    requires i < |ps|
    requires forall j :: i < j < |ps| ==> ps[j].name != ps[i].name
    ensures Get(Properties(ps), ps[i].name) ==
      if ps[i].name == ProtoKey then None else Some(Primitive(PropertyOf(ps[i].edmType)))
  {
    if ps[i].name == ProtoKey {
      PropertiesKeys(ps, ProtoKey);
    } else {
      AssignAllGet([], PropertyEntries(ps), ps[i].name);
      PutAllLastWins([], PropertyEntries(ps), i);
    }
  }

  /**
   * With distinct names nothing is overwritten: the properties map lists the
   * declared properties in declaration order, leaving out one named `__proto__`.
   */
  lemma PropertiesInOrder(ps: seq<EntityProperty>)
    requires NamesDistinct(ps)
    ensures Properties(ps) == OwnEntries(PropertyEntries(ps))
    ensures (forall i :: 0 <= i < |ps| ==> ps[i].name != ProtoKey) ==>
      |Properties(ps)| == |ps| &&
      forall i :: 0 <= i < |ps| ==> Properties(ps)[i] == (ps[i].name, Primitive(PropertyOf(ps[i].edmType)))
  {
    var es := PropertyEntries(ps);
    assert KeysUnique(es) by {
      forall i, j | 0 <= i < j < |es| ensures es[i].0 != es[j].0 {
        assert es[i].0 == ps[i].name && es[j].0 == ps[j].name;
      }
    }
    OwnEntriesUnique(es);
    AssignAllOwn([], es);
    assert [] + OwnEntries(es) == OwnEntries(es);
    PutAllFresh([], OwnEntries(es));
    if forall i :: 0 <= i < |ps| ==> ps[i].name != ProtoKey {
      OwnEntriesKeys(es, ProtoKey);
      OwnEntriesPlain(es);
    }
  }

  /** A property named `__proto__` sets the schema object's prototype and so is not listed. */
  lemma ProtoPropertyDropped()
    ensures Properties([EntityProperty(ProtoKey, "Edm.String")]) == []
  {
    var es := PropertyEntries([EntityProperty(ProtoKey, "Edm.String")]);
    assert es[0].0 == ProtoKey && es[1..] == [];
    assert Assign([], es[0].0, es[0].1) == [];
    assert AssignAll([], es) == AssignAll([], []);
  }

  /** A qualified name contains a `.`, so it is never `__proto__`. */
  lemma QualifiedNameNotProto(s: EntitySet)
    ensures QualifiedName(s) != ProtoKey
  {
    var q := QualifiedName(s);
    if |q| == |ProtoKey| {
      assert q[|s.namespace|] == '.';
      assert forall i :: 0 <= i < |ProtoKey| ==> ProtoKey[i] != '.';
    }
  }

  /** Every definition is a plain insertion: no qualified name falls under `__proto__`. */
  lemma DefinitionsArePuts(sets: seq<EntitySet>)
    ensures Definitions(sets) == PutAll([("Error", ErrorSchema)], DefinitionEntries(sets))
  {
    var es := DefinitionEntries(sets);
    forall i | 0 <= i < |es| ensures Keys(es)[i] != ProtoKey {
      QualifiedNameNotProto(sets[i]);
    }
    AssignAllPlain([("Error", ErrorSchema)], es);
  }

  /** `Error` is always defined, with its fixed schema, and stays the first definition. */
  lemma ErrorAlwaysDefined(sets: seq<EntitySet>)
    ensures Get(Definitions(sets), "Error") == Some(ErrorSchema)
    ensures Keys(Definitions(sets))[0] == "Error"
  {
    var es := DefinitionEntries(sets);
    forall i | 0 <= i < |es| ensures Keys(es)[i] != "Error" {
      QualifiedNameNotError(sets[i]);
    }
    DefinitionsArePuts(sets);
    PutAllGet([("Error", ErrorSchema)], es, "Error");
    PutAllKeepsPositions([("Error", ErrorSchema)], es);
  }

  /** The definition keys are `Error` and the qualified names of the entity sets, nothing else. */
  lemma DefinitionsKeys(sets: seq<EntitySet>, k: string)
    ensures k in Keys(Definitions(sets)) <==> k == "Error" || exists i :: 0 <= i < |sets| && QualifiedName(sets[i]) == k
  {
    var es := DefinitionEntries(sets);
    DefinitionsArePuts(sets);
    PutAllKeys([("Error", ErrorSchema)], es, k);
    if exists i :: 0 <= i < |sets| && QualifiedName(sets[i]) == k {
      var i :| 0 <= i < |sets| && QualifiedName(sets[i]) == k;
      assert Keys(es)[i] == k;
    }
  }

  /** When two sets share a qualified name, the later set's schema is the one defined. */
  lemma DefinitionsLastWins(sets: seq<EntitySet>, i: nat)
    requires i < |sets|
    requires forall j :: i < j < |sets| ==> QualifiedName(sets[j]) != QualifiedName(sets[i])
    ensures Get(Definitions(sets), QualifiedName(sets[i])) == Some(EntitySchema(sets[i].entityType))
  {
    DefinitionsArePuts(sets);
    PutAllLastWins([("Error", ErrorSchema)], DefinitionEntries(sets), i);
  }

  /** With distinct qualified names, `Error` followed by the definition entries repeats no key. */
  lemma DefinitionEntriesUnique(sets: seq<EntitySet>)
    requires QualifiedNamesDistinct(sets)
    ensures KeysUnique([("Error", ErrorSchema)] + DefinitionEntries(sets))
  {
    var all := [("Error", ErrorSchema)] + DefinitionEntries(sets);
    forall i, j | 0 <= i < j < |all| ensures all[i].0 != all[j].0 {
      if i == 0 {
        QualifiedNameNotError(sets[j - 1]);
      } else {
        assert all[i].0 == QualifiedName(sets[i - 1]);
      }
    }
  }

  /** With distinct qualified names: `Error` first, then one definition per set, in input order. */
  lemma DefinitionsInOrder(sets: seq<EntitySet>)
    requires QualifiedNamesDistinct(sets)
    ensures |Definitions(sets)| == |sets| + 1
    ensures Definitions(sets)[0] == ("Error", ErrorSchema)
    ensures forall i :: 0 <= i < |sets| ==> Definitions(sets)[i + 1] == (QualifiedName(sets[i]), EntitySchema(sets[i].entityType))
  {
    var m: OrderedMap<Schema> := [("Error", ErrorSchema)];
    var es := DefinitionEntries(sets);
    DefinitionEntriesUnique(sets);
    DefinitionsArePuts(sets);
    PutAllFresh(m, es);
    var r := Definitions(sets);
    assert r == m + es;
    forall i | 0 <= i < |sets| ensures r[i + 1] == (QualifiedName(sets[i]), EntitySchema(sets[i].entityType)) {
      assert r[i + 1] == es[i];
    }
  }
}
