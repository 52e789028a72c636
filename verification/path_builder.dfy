/**
 * The path builder: the document's `paths` map. Every entity set gets a
 * collection path `/Name`; a set whose type has a key also gets an instance
 * path `/Name(k1,k2,...)`. It has the parenthesised key-predicate form of OData
 * Version 4.0 Part 2 (URL Conventions), section 4.3, but composite keys are
 * positional, not `name=value` pairs. Every key type except the four bare
 * numeric ones is quoted.
 */
module PathBuilder {
  import opened Wrappers
  import opened Strings
  import opened OrderedMaps
  import opened Swagger
  import opened EntityModel
  import opened TypeMapper
  import opened Operations
  import opened Seqs

  /** Key types whose values are written without quotes in a key predicate. */
  predicate IsBareKeyType(edmType: string) {
    edmType in {"Edm.Int16", "Edm.Int32", "Edm.Int64", "Edm.Double"}
  }

  /** Reads a key segment back: the placeholder name and whether it is quoted. */
  function ParseSegment(seg: string): Option<(string, bool)> {
    if |seg| >= 4 && seg[0] == '\'' && seg[1] == '{' && seg[|seg| - 2] == '}' && seg[|seg| - 1] == '\'' then
      Some((seg[2..|seg| - 2], true))
    else if |seg| >= 2 && seg[0] == '{' && seg[|seg| - 1] == '}' then
      Some((seg[1..|seg| - 1], false))
    else None
  }

  /** The key segment of one key property: `{name}` for numeric types, `'{name}'` otherwise. */
  function KeySegment(p: EntityProperty): (seg: string)
    ensures ParseSegment(seg) == Some((p.name, !IsBareKeyType(p.edmType)))
    ensures |seg| >= 2
    ensures ',' !in p.name ==> ',' !in seg
  {
    if IsBareKeyType(p.edmType) then
      var seg := "{" + p.name + "}";
      assert seg[1..|seg| - 1] == p.name;
      seg
    else
      var seg := "'{" + p.name + "}'";
      assert seg[2..|seg| - 2] == p.name;
      seg
  }

  function KeySegments(key: seq<EntityProperty>): seq<string> {
    seq(|key|, i requires 0 <= i < |key| => KeySegment(key[i]))
  }

  /** The collection path: the set name after a `/`. */
  function CollectionPath(s: EntitySet): (path: string)
    ensures |path| == |s.name| + 1 && path[0] == '/' && path[1..] == s.name
  {
    "/" + s.name
  }

  /** The instance path template; it extends, and so always differs from, the collection path. */
  function InstancePath(s: EntitySet): (path: string)
    requires s.entityType.key.Some?
    ensures |path| > |CollectionPath(s)| + 1
    ensures path[..|CollectionPath(s)| + 1] == CollectionPath(s) + "("
  {
    "/" + s.name + "(" + Join(KeySegments(s.entityType.key.value), ",") + ")"
  }

  /** The assignments `paths` performs for one entity set. */
  function SetPathEntries(s: EntitySet): seq<(string, PathItem)> {
    [(CollectionPath(s), EntitySetOperations(s))]
    + if s.entityType.key.Some? then [(InstancePath(s), EntityTypeOperations(s))] else []
  }

  /** The assignments `paths` performs, entity set after entity set. */
  function PathEntries(sets: seq<EntitySet>): seq<(string, PathItem)> {
    FlatMap(sets, SetPathEntries)
  }

  /** `paths`. */
  function Paths(sets: seq<EntitySet>): OrderedMap<PathItem> {
    AssignAll([], PathEntries(sets))
  }

  /** `k` is one of the paths entity set `s` gives rise to. */
  predicate IsPathOf(k: string, s: EntitySet) {
    k == CollectionPath(s) || (s.entityType.key.Some? && k == InstancePath(s))
  }

  /** `k` is an instance path template of the entity set called `name`. */
  predicate IsInstancePathOf(k: string, name: string) {
    |k| > |name| + 1 && k[..|name| + 2] == "/" + name + "("
  }

  /** Entity set names are distinct and, as OData identifiers, free of `(`. */
  predicate WellFormedSets(sets: seq<EntitySet>) {
    && (forall i, j :: 0 <= i < j < |sets| ==> sets[i].name != sets[j].name)
    && (forall i :: 0 <= i < |sets| ==> '(' !in sets[i].name)
  }

  /** The bare/quoted split of key segments follows the mapper: bare exactly for integer and double-precision keys. */
  lemma BareKeysAreNumeric(edmType: string)
    ensures IsBareKeyType(edmType) <==>
      PropertyOf(edmType).dataType in {"integer", "number"} && PropertyOf(edmType).format != Some("single")
  {
  }

  /** Reads an instance path template back: the entity set name and each key placeholder with its quoting. */
  function ParseInstancePath(path: string): Option<(string, seq<(string, bool)>)> {
    if |path| < 3 || path[0] != '/' || path[|path| - 1] != ')' then None
    else
      var body := path[1..|path| - 1];
      var open := IndexOf(body, '(');
      if open == |body| then None
      else
        var inner := body[open + 1..];
        var segs := if inner == "" then Some([]) else ParseSegments(Split(inner, ','));
        if segs.None? then None else Some((body[..open], segs.value))
  }

  function ParseSegments(segs: seq<string>): Option<seq<(string, bool)>> {
    if |segs| == 0 then Some([])
    else
      match (ParseSegment(segs[0]), ParseSegments(segs[1..]))
      case (Some(x), Some(xs)) => Some([x] + xs)
      case _ => None
  }

  /** Each key property's name, and whether its segment is quoted. */
  function KeyShape(key: seq<EntityProperty>): seq<(string, bool)> {
    seq(|key|, i requires 0 <= i < |key| => (key[i].name, !IsBareKeyType(key[i].edmType)))
  }

  lemma {:induction false} ParseKeySegments(key: seq<EntityProperty>)
    ensures ParseSegments(KeySegments(key)) == Some(KeyShape(key))
    decreases |key|
  {
    if |key| == 0 {
      assert KeySegments(key) == [] && KeyShape(key) == [];
    } else {
      ParseKeySegments(key[1..]);
      assert KeySegments(key)[1..] == KeySegments(key[1..]);
      assert [KeyShape(key)[0]] + KeyShape(key[1..]) == KeyShape(key);
    }
  }

  /** The first `(` of an instance path body is the one right after the set name. */
  lemma FirstOpenParen(name: string, rest: string)
    requires '(' !in name
    ensures IndexOf(name + "(" + rest, '(') == |name|
  {
    var body := name + "(" + rest;
    assert body[|name|] == '(';
    assert forall j :: 0 <= j < |name| ==> body[j] == name[j];
  }

  /** The key predicate between the parentheses splits back into the key segments. */
  lemma SplitKeyPredicate(key: seq<EntityProperty>)
    requires forall i :: 0 <= i < |key| ==> ',' !in key[i].name
    ensures |key| == 0 ==> Join(KeySegments(key), ",") == ""
    ensures |key| > 0 ==> Join(KeySegments(key), ",") != "" && Split(Join(KeySegments(key), ","), ',') == KeySegments(key)
  {
    var segs := KeySegments(key);
    if |key| > 0 {
      assert |Join(segs, ",")| >= |segs[0]| >= 2;
      SplitJoin(segs, ',');
    }
  }

  /** Parsing a template splits it at the first `(`, which follows a set name free of `(`. */
  lemma ParseTemplate(name: string, inner: string)
    requires '(' !in name
    ensures ParseInstancePath("/" + name + "(" + inner + ")") ==
      (if inner == "" then Some((name, []))
       else if ParseSegments(Split(inner, ',')).None? then None
       else Some((name, ParseSegments(Split(inner, ',')).value)))
  {
    var body := name + "(" + inner;
    var path := "/" + name + "(" + inner + ")";
    assert path[1..|path| - 1] == body by {
      assert path == "/" + body + ")";
    }
    FirstOpenParen(name, inner);
    assert body[|name| + 1..] == inner && body[..|name|] == name;
  }

  /**
   * The instance path encodes the set name and the key, in key order, with bare
   * placeholders exactly for numeric key types; it reads back when key names
   * hold no `,` and the set name no `(`.
   */
  lemma InstancePathRoundTrip(s: EntitySet)
    requires s.entityType.key.Some?
    requires '(' !in s.name
    requires forall i :: 0 <= i < |s.entityType.key.value| ==> ',' !in s.entityType.key.value[i].name
    ensures ParseInstancePath(InstancePath(s)) == Some((s.name, KeyShape(s.entityType.key.value)))
  {
    var key := s.entityType.key.value;
    var inner := Join(KeySegments(key), ",");
    assert InstancePath(s) == "/" + s.name + "(" + inner + ")";
    ParseTemplate(s.name, inner);
    SplitKeyPredicate(key);
    ParseKeySegments(key);
    if |key| == 0 {
      assert KeyShape(key) == [];
    }
  }

  /** A present but empty key still gets an instance path, with nothing between the parentheses. */
  lemma EmptyKeyPath(s: EntitySet)
    requires s.entityType.key == Some([])
    ensures InstancePath(s) == CollectionPath(s) + "()"
  {
    assert KeySegments([]) == [];
  }

  /** The placeholders of the instance path are exactly the path parameters of its operations, in order. */
  lemma TemplateMatchesParameters(s: EntitySet)
    requires s.entityType.key.Some?
    requires '(' !in s.name
    requires forall i :: 0 <= i < |s.entityType.key.value| ==> ',' !in s.entityType.key.value[i].name
    ensures ParseInstancePath(InstancePath(s)).Some?
    ensures |ParseInstancePath(InstancePath(s)).value.1| == |EntityTypeGet(s).parameters.value|
    ensures forall i :: 0 <= i < |EntityTypeGet(s).parameters.value| ==>
      ParseInstancePath(InstancePath(s)).value.1[i].0 == EntityTypeGet(s).parameters.value[i].name
  {
    InstancePathRoundTrip(s);
  }

  lemma SetPathEntriesKeys(s: EntitySet, k: string)
    ensures k in Keys(SetPathEntries(s)) <==> IsPathOf(k, s)
  {
  }

  lemma ExistsPathOfCons(sets: seq<EntitySet>, k: string)
    requires |sets| > 0
    ensures (exists i :: 0 <= i < |sets| && IsPathOf(k, sets[i]))
      <==> IsPathOf(k, sets[0]) || exists i :: 0 <= i < |sets[1..]| && IsPathOf(k, sets[1..][i])
  {
    var tail := sets[1..];
    if exists i :: 0 <= i < |sets| && IsPathOf(k, sets[i]) {
      var i :| 0 <= i < |sets| && IsPathOf(k, sets[i]);
      if i > 0 { assert IsPathOf(k, tail[i - 1]); }
    }
    if exists i :: 0 <= i < |tail| && IsPathOf(k, tail[i]) {
      var i :| 0 <= i < |tail| && IsPathOf(k, tail[i]);
      assert IsPathOf(k, sets[i + 1]);
    }
  }

  /** The keys `paths` assigns are exactly the collection paths and, for keyed sets, the instance paths. */
  lemma {:induction false} PathEntriesKeys(sets: seq<EntitySet>, k: string)
    ensures k in Keys(PathEntries(sets)) <==> exists i :: 0 <= i < |sets| && IsPathOf(k, sets[i])
    decreases |sets|
  {
    if |sets| > 0 {
      PathEntriesKeys(sets[1..], k);
      KeysAppend(SetPathEntries(sets[0]), PathEntries(sets[1..]), k);
      SetPathEntriesKeys(sets[0], k);
      ExistsPathOfCons(sets, k);
    }
  }

  /** Every path starts with `/`, so none falls under `__proto__`: each assignment is a plain insertion. */
  lemma PathsArePuts(sets: seq<EntitySet>)
    ensures Paths(sets) == PutAll([], PathEntries(sets))
  {
    forall i | 0 <= i < |sets| ensures !IsPathOf(ProtoKey, sets[i]) {
      assert ProtoKey[0] != '/';
      if sets[i].entityType.key.Some? {
        assert InstancePath(sets[i])[0] == CollectionPath(sets[i])[0];
      }
    }
    PathEntriesKeys(sets, ProtoKey);
    AssignAllPlain([], PathEntries(sets));
  }

  lemma PathsKeys(sets: seq<EntitySet>, k: string)
    ensures k in Keys(Paths(sets)) <==> exists i :: 0 <= i < |sets| && IsPathOf(k, sets[i])
  {
    PathsArePuts(sets);
    PutAllKeys([], PathEntries(sets), k);
    PathEntriesKeys(sets, k);
  }

  /** A path of a set named without `(` is an instance path of no other name. */
  lemma NotInstancePathOfOther(k: string, b: EntitySet, name: string)
    requires IsPathOf(k, b)
    requires '(' !in b.name && '(' !in name && b.name != name
    ensures !IsInstancePathOf(k, name)
  {
    var want := "/" + name + "(";
    if |k| > |name| + 1 {
      var n := |b.name|;
      if |name| < n {
        assert k[|name| + 1] == b.name[|name|] by {
          assert k[..n + 1] == "/" + b.name;
        }
        assert k[|name| + 1] != want[|name| + 1];
      } else if |name| > n {
        assert k[n + 1] == '(' by {
          if k != CollectionPath(b) {
            assert k[..n + 2] == "/" + b.name + "(";
          }
        }
        assert want[n + 1] == name[n];
      } else {
        var j :| 0 <= j < n && name[j] != b.name[j];
        assert k[j + 1] == b.name[j] by {
          assert k[..n + 1] == "/" + b.name;
        }
        assert want[j + 1] == name[j];
      }
    }
  }

  /** The collection path of a set named without `(` is no instance path. */
  lemma CollectionIsNoInstance(a: EntitySet, k: string)
    requires '(' !in a.name
    ensures !IsInstancePathOf(CollectionPath(a), k)
  {
    var c := CollectionPath(a);
    if |c| > |k| + 1 {
      assert c[|k| + 1] == a.name[|k|];
    }
  }

  /** Two different sets, named without `(`, never share a path. */
  lemma DistinctNamesDistinctPaths(a: EntitySet, b: EntitySet, ka: string, kb: string)
    requires '(' !in a.name && '(' !in b.name && a.name != b.name
    requires IsPathOf(ka, a) && IsPathOf(kb, b)
    ensures ka != kb
  {
    if ka == CollectionPath(a) && kb == CollectionPath(b) {
      assert ka[1..] == a.name && kb[1..] == b.name;
    } else if ka == CollectionPath(a) {
      CollectionIsNoInstance(a, b.name);
      assert IsInstancePathOf(kb, b.name);
    } else {
      assert IsInstancePathOf(ka, a.name);
      NotInstancePathOfOther(kb, b, a.name);
    }
  }

  lemma SetPathEntriesUnique(s: EntitySet)
    ensures KeysUnique(SetPathEntries(s))
  {
  }

  /** For well-formed input no path is assigned twice. */
  lemma {:induction false} PathEntriesUnique(sets: seq<EntitySet>)
    requires WellFormedSets(sets)
    ensures KeysUnique(PathEntries(sets))
    decreases |sets|
  {
    if |sets| > 0 {
      var tail := sets[1..];
      var a := SetPathEntries(sets[0]);
      var b := PathEntries(tail);
      assert WellFormedSets(tail) by {
        assert forall i :: 0 <= i < |tail| ==> tail[i] == sets[i + 1];
      }
      PathEntriesUnique(tail);
      SetPathEntriesUnique(sets[0]);
      forall i, j | 0 <= i < |a| && 0 <= j < |b| ensures a[i].0 != b[j].0 {
        assert Keys(a)[i] == a[i].0;
        SetPathEntriesKeys(sets[0], a[i].0);
        assert Keys(b)[j] == b[j].0;
        PathEntriesKeys(tail, b[j].0);
        var t :| 0 <= t < |tail| && IsPathOf(b[j].0, tail[t]);
        assert tail[t] == sets[t + 1];
        DistinctNamesDistinctPaths(sets[0], tail[t], a[i].0, b[j].0);
      }
      UniqueAppend(a, b);
    }
  }

  /** For well-formed input `paths` is exactly the sequence of assignments: nothing is overwritten. */
  lemma PathsInOrder(sets: seq<EntitySet>)
    requires WellFormedSets(sets)
    ensures Paths(sets) == PathEntries(sets)
  {
    PathsArePuts(sets);
    PathEntriesUnique(sets);
    assert [] + PathEntries(sets) == PathEntries(sets);
    PutAllFresh([], PathEntries(sets));
  }

  lemma PathEntriesContain(sets: seq<EntitySet>, i: nat)
    requires i < |sets|
    ensures (CollectionPath(sets[i]), EntitySetOperations(sets[i])) in PathEntries(sets)
    ensures sets[i].entityType.key.Some? ==> (InstancePath(sets[i]), EntityTypeOperations(sets[i])) in PathEntries(sets)
  {
    var a := SetPathEntries(sets[i]);
    FlatMapContains(sets, SetPathEntries, i, a[0]);
    if sets[i].entityType.key.Some? {
      FlatMapContains(sets, SetPathEntries, i, a[1]);
    }
  }

  /** Every collection path holds exactly the entity set's list and create operations. */
  lemma CollectionPathLookup(sets: seq<EntitySet>, i: nat)
    requires WellFormedSets(sets)
    requires i < |sets|
    ensures Get(Paths(sets), CollectionPath(sets[i])) == Some(EntitySetOperations(sets[i]))
  {
    PathsInOrder(sets);
    PathEntriesUnique(sets);
    PathEntriesContain(sets, i);
    GetUnique(PathEntries(sets), CollectionPath(sets[i]), EntitySetOperations(sets[i]));
  }

  /** A keyed set's instance path holds exactly its get, delete and update operations. */
  lemma InstancePathLookup(sets: seq<EntitySet>, i: nat)
    requires WellFormedSets(sets)
    requires i < |sets| && sets[i].entityType.key.Some?
    ensures Get(Paths(sets), InstancePath(sets[i])) == Some(EntityTypeOperations(sets[i]))
  {
    PathsInOrder(sets);
    PathEntriesUnique(sets);
    PathEntriesContain(sets, i);
    GetUnique(PathEntries(sets), InstancePath(sets[i]), EntityTypeOperations(sets[i]));
  }

  /** A set has an instance path exactly when its type has a key, even an empty one. */
  lemma InstancePathIffKey(sets: seq<EntitySet>, i: nat)
    requires WellFormedSets(sets)
    requires i < |sets|
    ensures (exists k :: k in Keys(Paths(sets)) && IsInstancePathOf(k, sets[i].name)) <==> sets[i].entityType.key.Some?
  {
    var s := sets[i];
    if s.entityType.key.Some? {
      PathsKeys(sets, InstancePath(s));
      assert IsInstancePathOf(InstancePath(s), s.name);
    } else {
      forall k | k in Keys(Paths(sets)) ensures !IsInstancePathOf(k, s.name) {
        PathsKeys(sets, k);
        var j :| 0 <= j < |sets| && IsPathOf(k, sets[j]);
        if j == i {
          CollectionIsNoInstance(s, s.name);
        } else {
          NotInstancePathOfOther(k, sets[j], s.name);
        }
      }
    }
  }

  /** Every operation anywhere in `paths` falls back to the shared error response. */
  lemma PathsDefaultToError(sets: seq<EntitySet>)
    ensures forall i :: 0 <= i < |Paths(sets)| ==> DefaultsToError(Paths(sets)[i].1)
  {
    var es := PathEntries(sets);
    assert AllValues(es, DefaultsToError) by {
      EntriesDefaultToError(sets);
    }
    PathsArePuts(sets);
    PutAllPreserves([], es, DefaultsToError);
  }

  lemma {:induction false} EntriesDefaultToError(sets: seq<EntitySet>)
    ensures AllValues(PathEntries(sets), DefaultsToError)
    decreases |sets|
  {
    if |sets| > 0 {
      EntriesDefaultToError(sets[1..]);
      SetEntriesDefaultToError(sets[0]);
      AllValuesAppend(SetPathEntries(sets[0]), PathEntries(sets[1..]), DefaultsToError);
    }
  }

  lemma SetEntriesDefaultToError(s: EntitySet)
    ensures AllValues(SetPathEntries(s), DefaultsToError)
  {
  }

  /** The number of entity sets whose type has a key. */
  function KeyedCount(sets: seq<EntitySet>): nat {
    if |sets| == 0 then 0
    else (if sets[0].entityType.key.Some? then 1 else 0) + KeyedCount(sets[1..])
  }

  /** For well-formed input `paths` has one path per set plus one per keyed set. */
  lemma PathsCount(sets: seq<EntitySet>)
    requires WellFormedSets(sets)
    ensures |Paths(sets)| == |sets| + KeyedCount(sets)
  {
    PathsInOrder(sets);
    EntriesCount(sets);
  }

  lemma {:induction false} EntriesCount(sets: seq<EntitySet>)
    ensures |PathEntries(sets)| == |sets| + KeyedCount(sets)
    decreases |sets|
  {
    if |sets| > 0 {
      EntriesCount(sets[1..]);
    }
  }
}
