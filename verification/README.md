# odata2openapi converter, modelled in Dafny

This project models the converter of odata2openapi, `src/convert.ts`. The converter takes an ordered list of OData entity sets. Each set has a name and a namespace, plus an entity type with typed properties and an optional key. From these it builds a Swagger 2.0 document:

- a fixed envelope (`swagger`, `produces`, `info`);
- the `host` and `basePath` options;
- a `paths` map: a collection path `/Name` per set with list and create operations, and, when the type has a key, an instance path `/Name(k1,k2,...)` with get, delete and update operations;
- a `definitions` map: a fixed `Error` schema and one object schema per set, keyed `namespace.TypeName`.

The instance path uses OData's parenthesised key-predicate form `/Name(...)` (OData Version 4.0 Part 2, URL Conventions, section 4.3), but not its literal syntax. It differs in two ways. Composite keys are written by position, `/Name({k1},'{k2}')`, not as OData's `name=value` pairs. Only `Edm.Int16`, `Edm.Int32`, `Edm.Int64` and `Edm.Double` keys appear bare, as `{k}`. Every other key type is quoted, as `'{k}'`, including types such as Boolean, Guid, Date and Single, whose literals OData writes without quotes.

Modules, one per file:

- `Wrappers` (`wrappers.dfy`): `Option`.
- `Strings` (`strings.dfy`): `join`, `split` and `indexOf` as the converter and its inverse use them.
- `Seqs` (`seqs.dfy`): concatenation of per-element sequences.
- `OrderedMaps` (`ordered_maps.dfy`): a JavaScript object used as a dictionary.
  - It is an insertion-ordered association list.
  - Assigning to an existing key replaces its value in place (`Put`).
  - Assigning to a new key appends the key.
  - Assigning an object under `__proto__` replaces the object's prototype and stores no key (`Assign`).
  - A `forEach` of assignments is `AssignAll`.
- `EntityModel` (`entity_model.dfy`): the input records.
  - `key` is `Option<seq<EntityProperty>>`. `None` stands for an absent key and `Some([])` for a present but empty list.
  - The options' `host` and `basePath` are `Option<string>`. An absent option stays absent in the document.
- `Swagger` (`swagger.dfy`): the output records (`Property`, `Schema`, `Response`, `Parameter`, `Operation`, `PathItem`, `Document`).
- `TypeMapper` (`type_mapper.dfy`): `property`.
- `Operations` (`operations.dfy`): `defaultResponse` and the seven operation constructors.
- `DefinitionBuilder` (`definition_builder.dfy`): `definitions`, `schema`, `properties`.
- `PathBuilder` (`path_builder.dfy`): `paths`. It also holds the templating's inverse: parsing an instance path template gives back the set name and the key segments.
- `Converter` (`converter.dfy`): `convert`, plus a worked example (a `Products` set keyed by an `Edm.Int32` id).

Two behaviours of the code are worth stating explicitly, because a reader might expect otherwise:

- The create operation's id is `create` followed by the entity **set** name, not the entity type name (src/convert.ts:41).
- The instance path is emitted whenever `key` is present, because the guard tests JavaScript truthiness and an empty array is truthy. An empty key therefore gives `/Name()` (src/convert.ts:151, 164).

## Model

| member | source | states |
|---|---|---|
| TypeMapper.PropertyOf | src/convert.ts:220-258 | Total on every type name. The result is `integer` exactly for Int16/Int32/Int64, `number` exactly for Double/Single and `boolean` exactly for Boolean. It has no format exactly for Boolean and for unrecognised names, which fall back to plain `string`. |
| TypeMapper.KnownTypesAreTableKeys | src/convert.ts:225-255 | The recognised type names are exactly the names the table lists. |
| TypeMapper.PropertyOfMatchesTable | src/convert.ts:225-255 | The switch agrees with a table of the nine recognised names and their descriptors. A name outside the table gets the `string` fallback. |
| Operations.KeyParameters | src/convert.ts:79-85 | One parameter per key property, in key order. Each has the property's name, lies in the path, is required and carries no schema. |
| Operations.EntitySetGet | src/convert.ts:21-37 | Id `get` + set name, no parameters. The 200 response is an array of references to the type's definition. The default response is the shared error response. |
| Operations.EntitySetPost | src/convert.ts:39-59 | Id `create` + set name. Exactly one parameter: a required body parameter named after the type, referring to its definition. The 204 response is empty. The default response is the error response. |
| Operations.EntitySetOperations | src/convert.ts:61-66 | The collection path item holds exactly `get` and `post`. |
| Operations.EntityTypeGet | src/convert.ts:76-96 | Id `get` + type name. The parameters are the key parameters. The 200 response references the type's definition. The default response is the error response. |
| Operations.EntityTypeDelete | src/convert.ts:98-115 | Id `delete` + type name. The parameters are the key parameters. The 204 response is empty. The default response is the error response. |
| Operations.EntityTypePatch | src/convert.ts:116-144 | Id `update` + type name. There are key-count + 1 parameters: the key parameters first, then the body parameter last. |
| Operations.EntityTypeOperations | src/convert.ts:68-74 | The instance path item holds exactly `get`, `delete` and `patch`. |
| PathBuilder.KeySegment | src/convert.ts:152-162 | A segment reads back as the key name. It is quoted exactly when the type is not Int16/Int32/Int64/Double, and it adds no `,`. |
| PathBuilder.BareKeysAreNumeric | src/convert.ts:153-158 | A key is bare exactly when the type mapper calls its type an integer or a double-precision number. |
| PathBuilder.InstancePath | src/convert.ts:164 | The instance path is the collection path followed by `(` and more, so it is strictly longer than the collection path and differs from it. |
| PathBuilder.EmptyKeyPath | src/convert.ts:151-164 | A present but empty key gives `/Name()`. |
| PathBuilder.InstancePathRoundTrip | src/convert.ts:152-164 | Parsing the instance path gives back the set name and each key property's name with its quoting, in key order. |
| PathBuilder.TemplateMatchesParameters | src/convert.ts:76-85 | The template's placeholders are, in order, the path parameters of the instance get operation. |
| PathBuilder.CollectionPath | src/convert.ts:149 | The collection path is `/` followed by the set name. |
| PathBuilder.Paths | src/convert.ts:145-171 | `paths` as a `forEach` of object assignments, one or two per set. Its behaviour is stated by PathsKeys, PathsInOrder, the two lookups, InstancePathIffKey, PathsCount and PathsDefaultToError. |
| PathBuilder.PathsArePuts | src/convert.ts:149-166 | Every path starts with `/`, so every path assignment stores its key. |
| PathBuilder.PathsKeys | src/convert.ts:145-171 | A string is a key of `paths` exactly when it is some set's collection path, or the instance path of some set that has a key. |
| PathBuilder.DistinctNamesDistinctPaths | src/convert.ts:149-166 | Two sets with different names never produce the same path. |
| PathBuilder.PathsInOrder | src/convert.ts:145-171 | With distinct set names no assignment overwrites another. `paths` lists, set after set, the collection path and then any instance path. |
| PathBuilder.CollectionPathLookup | src/convert.ts:148-149 | Each set's collection path maps to that set's list and create operations. |
| PathBuilder.InstancePathLookup | src/convert.ts:151-166 | A keyed set's instance path maps to that set's get, delete and update operations. |
| PathBuilder.InstancePathIffKey | src/convert.ts:151 | A set has an instance path exactly when its key is present, even if empty. |
| PathBuilder.PathsCount | src/convert.ts:145-171 | `paths` has one entry per set plus one per keyed set. |
| PathBuilder.PathsDefaultToError | src/convert.ts:14-19 | Every operation anywhere in `paths` has the shared error response as its default. |
| EntityModel.QualifiedName | src/convert.ts:194 | The qualified name is longer than the namespace and has a `.` right after it. |
| EntityModel.QualifiedNameNotError | src/convert.ts:194 | A qualified name contains a `.`, so it never equals `Error`. |
| DefinitionBuilder.Properties | src/convert.ts:210-218 | `properties` as a `forEach` of object assignments. Its behaviour is stated by PropertiesKeys, PropertiesUnique, PropertiesLastWins and PropertiesInOrder. |
| DefinitionBuilder.EntitySchema | src/convert.ts:203-208 | `schema`: an object schema holding `properties` of the type's properties. Its contents are stated by the Properties lemmas and by ProductsDefinitions. |
| DefinitionBuilder.PropertiesKeys | src/convert.ts:210-218 | The keys of a properties map are exactly the declared property names other than `__proto__`. |
| DefinitionBuilder.PropertiesUnique | src/convert.ts:210-218 | No property name is stored twice. |
| DefinitionBuilder.PropertiesLastWins | src/convert.ts:213-215 | A repeated name holds the descriptor of its last declaration. A property named `__proto__` is stored under no key. |
| DefinitionBuilder.PropertiesInOrder | src/convert.ts:210-218 | With distinct names nothing is overwritten. The map lists the declared properties in declaration order, leaving out one named `__proto__`. With no such property, the map lists every property with the mapper's descriptor of its type. |
| DefinitionBuilder.ProtoPropertyDropped | src/convert.ts:214 | A single property named `__proto__` gives an empty properties map. |
| DefinitionBuilder.Definitions | src/convert.ts:173-201 | `definitions`: the `Error` entry followed by one assignment per set. Its behaviour is stated by ErrorAlwaysDefined, DefinitionsKeys, DefinitionsLastWins and DefinitionsInOrder. |
| DefinitionBuilder.QualifiedNameNotProto | src/convert.ts:194 | A qualified name contains a `.`, so it is never `__proto__`. |
| DefinitionBuilder.DefinitionsArePuts | src/convert.ts:193-198 | Every definition assignment stores its key, because no qualified name is `__proto__`. |
| DefinitionBuilder.ErrorAlwaysDefined | src/convert.ts:174-198 | For every input, including the empty one, `Error` is defined with its fixed schema and stays the first key. |
| DefinitionBuilder.DefinitionsKeys | src/convert.ts:173-201 | The definition keys are `Error` and the sets' qualified names, nothing else. |
| DefinitionBuilder.DefinitionsLastWins | src/convert.ts:193-198 | A qualified name holds the object schema of the last set that has it. |
| DefinitionBuilder.DefinitionsInOrder | src/convert.ts:173-201 | With distinct qualified names: `Error` first, then one definition per set in input order. |
| OrderedMaps.PutGet | src/convert.ts:214 | After one assignment the key holds the new value, and every other key holds what it held before. |
| OrderedMaps.AssignAllOwn | src/convert.ts:213-215 | A `forEach` of object assignments inserts exactly the entries not under `__proto__`. |
| OrderedMaps.AssignAllGet | src/convert.ts:213-215 | For every key other than `__proto__`, object assignment stores what plain insertion stores. |
| OrderedMaps.PutAllGet | src/convert.ts:213-215 | After a `forEach` of assignments, a key holds the value of its last assignment, or its earlier value if it was never assigned. |
| OrderedMaps.PutAllKeepsUnique | src/convert.ts:213-215 | Assignments never create a duplicate key. |
| OrderedMaps.PutAllKeepsPositions | src/convert.ts:193-198 | Assignments keep existing keys in their places. |
| OrderedMaps.PutAllFresh | src/convert.ts:148-167 | When every assigned key is new, the map is the old map followed by the assignments. |
| Strings.SplitJoin | src/convert.ts:164 | Splitting a `,`-join of parts that hold no `,` gives the parts back. |
| Strings.JoinSplit | src/convert.ts:164 | Joining the pieces of a split with the separator gives the string back. |
| Converter.Convert | src/convert.ts:260-272 | `swagger` is `2.0`, `produces` is `application/json` and `info` is `OData Service` / `0.0.1`. `host` and `basePath` are copied from the options, absent when the option is absent. The maps come from the two builders. |
| Converter.ConvertDescribesEverySet | src/convert.ts:260-272 | Assumes distinct set names and qualified names. For every set, the document then has:<br>• its list/create path;<br>• its instance path, exactly when the key is present;<br>• its schema under the qualified name;<br>• the `Error` schema. |
| Converter.ConvertDefaultsToError | src/convert.ts:14-19 | Every operation in the document falls back to `Unexpected error` referring to `#/definitions/Error`. |
| Converter.ConvertEmpty | src/convert.ts:260-272 | No entity sets give no paths and the `Error` definition alone. |
| Converter.ProductsPaths | src/convert.ts:145-171 | An `Edm.Int32`-keyed `Products` set gets `/Products` and `/Products({id})`. |
| Converter.ProductsDefinitions | src/convert.ts:173-218 | The `Products` set gets `Error`, then `NS.Product` with an int32 `id` and a plain-string `name`. |
| Converter.StringKeyIsQuoted | src/convert.ts:161 | An `Edm.String` key is written `'{code}'`. |

## Left out

- JavaScript objects list integer-like keys (such as a property named `7`) before all other keys. The model keeps plain insertion order for `paths`, `definitions`, `properties` and `responses`. Only a key that looks like an array index would be ordered differently.
- Assigning under `__proto__` is modelled for object values only, the only values the converter assigns. Its effect is that no key is stored. The prototype it installs is not modelled, because it does not appear in the written document.
- `defaultResponse` is one mutable object shared by reference across all operations. The model uses an immutable value, so the aliasing is not modelled. The serialised document is the same.
- `convert` takes an untyped `entitySets` argument. Here it is a sequence of `EntitySet` records. Inputs of any other shape are not modelled.
- The type-only modules the converter imports (`./Swagger`, `./Paths`, `./Property` and the rest) are not part of this model. Their shapes are given as the `Swagger` and `EntityModel` datatypes.
- Metadata parsing, option loading and JSON serialisation happen outside `src/convert.ts` and are not part of this model.
- `property` builds its descriptor by mutating a `{type: 'string'}` object. The model returns the final descriptor directly.
- PathBuilder.PathsInOrder: the exact listing, and the lookups and count built on it, assume set names that are distinct and contain no `(`. The converter does not check this. For other inputs the general facts still hold: PathsKeys says which keys appear, and OrderedMaps.PutAllGet says the last assignment wins.
- PathBuilder.InstancePathRoundTrip: reading the template back needs a set name without `(` and key names without `,`. With a `,` inside a name the template is ambiguous.
- PathBuilder.TemplateMatchesParameters: built on the round trip, so it has the same two assumptions: a set name without `(` and key names without `,`.
- DefinitionBuilder.DefinitionsInOrder: the exact listing assumes distinct qualified names. Otherwise DefinitionsLastWins describes the outcome.
