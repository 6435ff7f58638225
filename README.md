# JSON:API normalizer of redux-io, modelled in Dafny

This project models the normalizer of redux-io (`src/normalizer/json-normalizer.js`).
`normalizeItem(item, picks)` turns one raw record into the resource form
`{id, type, attributes, relationships}`. `normalizeCollection` does the same for a list of records.
The transformation descriptor, looked up for the record by the external `getTransformation`,
says which properties are relationships. An array or plain-object relationship value is reduced to `{id, type}` references; the notes below say what happens to other values.

Files:

- `wrappers.dfy`: `Option` and `Result`. `Err` stands for a thrown exception.
- `js_values.dfy`: the JavaScript values the normalizer can observe. Also truthiness,
  `_.isArray`, `_.isPlainObject` and property reads, which throw on `null` and `undefined`.
- `json_normalizer.dfy`: the operations. The fold in `normalizeItem` is a `while` loop over the
  picked item's keys that updates one accumulator. The loop is proved equal to the function
  `Normalized`. `normalizeRelationshipArray`'s push loop is proved equal to `RelationshipDescriptors`.
- `normalizer_properties.dfy`: what the normalizer guarantees, as lemmas about `Normalized`.

Modelling choices:

- `getTransformation` is a parameter `registry: Item -> Option<Transformation>`. It is applied to
  the original item, before picking, as at line 43. The names in a descriptor's
  `relationshipProperties` are a set.
- `type` is a Dafny keyword, so the `type` members of a result and of a reference are named `typ`.
- Numbers are integers: the normalizer only tests them for truthiness.
- Reading `id` of a `null` or `undefined` element of a relationship array throws a `TypeError` in
  JavaScript. The model returns `Err(TypeError)` then, from both `normalizeItem` and `normalizeCollection`.
- A declared relationship with a falsy value (`null`, `undefined`, `false`, `0`, `''`) is stored
  verbatim in `attributes`. The comment at lines 64-65 says the `{data: null}` branch is meant for
  a relationship that does not exist or is not included. But line 53 computes
  `relationshipProperties[property] && val`, so a falsy value never reaches that branch; the model
  follows the code. `{data: null}` is produced only for a truthy value that is neither an array
  nor a plain object, such as a string id. An empty array is truthy and gives `data: []`.
- An item whose type has no transformation descriptor gets empty `attributes` and
  `relationships`: line 49 returns the accumulator unchanged for every property then.

## Model

| member | source | states |
|---|---|---|
| JsValues.Truthy | src/normalizer/json-normalizer.js:53-54 | a value is falsy exactly when it is `undefined`, `null`, `false`, `0` or `''` |
| JsValues.GetProperty | src/normalizer/json-normalizer.js:24 | a read of `id` or `type` throws exactly on `null`/`undefined`; on an object it yields the own property or `undefined`, on a primitive or array `undefined` |
| JsValues.Lookup | src/normalizer/json-normalizer.js:16-17 | a property an object does not own reads as `undefined`; an owned one reads as its value |
| JsValues.IsArray | src/normalizer/json-normalizer.js:55 | `_.isArray`: true exactly for an array value; `NormalizerProperties.ArrayRelationship` states what that branch produces |
| JsValues.IsPlainObject | src/normalizer/json-normalizer.js:59 | `_.isPlainObject`: true exactly for a plain object, not for arrays or other objects; `NormalizerProperties.PlainObjectRelationship` and `NormalizerProperties.TruthyScalarRelationshipHasNoData` state what each branch produces |
| JsonNormalizer.DefaultJsonItemAttributeNames | src/normalizer/json-normalizer.js:7-12 | the default pick names are exactly `id` and `type` |
| JsonNormalizer.IsIgnoredProperty | src/normalizer/json-normalizer.js:38-40 | with the default ignore set, a property is ignored exactly when it is `id` or `type` |
| JsonNormalizer.Union | src/normalizer/json-normalizer.js:45 | `_.union` of the default names and `picks`, by deduplicating their concatenation; `JsonNormalizer.DedupIsDistinctAndComplete` proves it holds every name of both lists, once |
| JsonNormalizer.Pick | src/normalizer/json-normalizer.js:45 | `_.pick`: the item's own properties whose names are listed; `JsonNormalizer.PickedItemProperties` states its keys and values |
| JsonNormalizer.PickedItem | src/normalizer/json-normalizer.js:44-46 | the record the fold runs over: the item itself when `picks` is `null`, otherwise its pick by `picks` plus `id` and `type`; `JsonNormalizer.PickedItemProperties` states its keys and values |
| JsonNormalizer.DedupIsDistinctAndComplete | src/normalizer/json-normalizer.js:45 | the `_.union` of the default names and `picks` contains every name of either list, and none twice |
| JsonNormalizer.PickedItemProperties | src/normalizer/json-normalizer.js:44-46 | without `picks` the item is unchanged; with `picks` it keeps exactly its properties named `id`, `type` or in `picks`, with their values |
| JsonNormalizer.CreateNormalizedJsonItemDescription | src/normalizer/json-normalizer.js:14-21 | the seed has the item's `id` and `type` (`undefined` when missing) and empty `attributes` and `relationships` |
| JsonNormalizer.CreateRelationshipItemDescriptor | src/normalizer/json-normalizer.js:23-25 | a reference throws exactly on `null`/`undefined`; for an object it is `{id: o.id, type: o.type}`, for a primitive or array `{id: undefined, type: undefined}` |
| JsonNormalizer.RelationshipDescriptors | src/normalizer/json-normalizer.js:27-32 | the array fold succeeds exactly when no element is `null`/`undefined`; then it has the array's length and element `i` is the reference of element `i` |
| JsonNormalizer.NormalizeRelationshipArray | src/normalizer/json-normalizer.js:27-32 | the push loop computes exactly `RelationshipDescriptors` of the array |
| JsonNormalizer.NormalizeRelationshipObject | src/normalizer/json-normalizer.js:34-36 | a plain object `o` becomes `{id: o.id, type: o.type}` |
| JsonNormalizer.Classify | src/normalizer/json-normalizer.js:49-70 | the decision of the reduce callback for one property: skip it, make it an attribute, make it one of the three relationship shapes, or throw; `JsonNormalizer.ClassifyPlacement` and the NormalizerProperties lemmas state each outcome |
| JsonNormalizer.ClassifyPlacement | src/normalizer/json-normalizer.js:49-70 | a property is skipped exactly when there is no descriptor or it is `id`/`type`; it is an attribute exactly when it is not a declared relationship with a truthy value; it throws exactly when it is a declared relationship whose array value holds a `null`/`undefined` element |
| JsonNormalizer.Place | src/normalizer/json-normalizer.js:56-69 | the accumulator write of one classified property: `relationships[property]` (lines 56, 60, 66) or `attributes[property]` (line 69), or nothing for a skipped one; `JsonNormalizer.FoldStep` proves it keeps the fold's invariant |
| JsonNormalizer.Normalized | src/normalizer/json-normalizer.js:42-73 | the result of `normalizeItem` as a function: descriptor looked up on the original item, fold over the picked item, a throw when a step throws; `JsonNormalizer.NormalizeItem` is proved equal to it and the NormalizerProperties lemmas state its properties |
| JsonNormalizer.FoldStep | src/normalizer/json-normalizer.js:48-72 | placing one more property keeps the accumulator equal to what the visited keys determine, and leaves `id` and `type` alone |
| JsonNormalizer.FoldThrows | src/normalizer/json-normalizer.js:55-58 | one property whose step throws makes the whole of `normalizeItem` throw |
| JsonNormalizer.FoldComplete | src/normalizer/json-normalizer.js:48-72 | once every key is visited, the accumulator is the result of `normalizeItem` |
| JsonNormalizer.NormalizeProperty | src/normalizer/json-normalizer.js:48-71 | the fold callback throws exactly when `Classify` does; otherwise it writes that property where `Classify` says and changes nothing else |
| JsonNormalizer.NormalizeItem | src/normalizer/json-normalizer.js:42-73 | the loop over the picked item's keys returns exactly `Normalized(item, picks, registry)`, including the thrown error |
| JsonNormalizer.NormalizeCollection | src/normalizer/json-normalizer.js:75-77 | succeeds exactly when every item normalizes; the result has the same length and element `i` is the normalization of item `i` |
| NormalizerProperties.IdAndTypeKept | src/normalizer/json-normalizer.js:7-21 | the result's `id` and `type` are the original item's, with or without `picks` |
| NormalizerProperties.NoTransformationGivesEmptyShell | src/normalizer/json-normalizer.js:43-50 | without a descriptor, the result is `{id, type}` with empty `attributes` and `relationships`, and nothing throws |
| NormalizerProperties.IgnoredPropertiesNeverClassified | src/normalizer/json-normalizer.js:38-40 | `id` and `type` are never keys of `attributes` or `relationships` |
| NormalizerProperties.KeysPartitionPickedItem | src/normalizer/json-normalizer.js:44-72 | with a descriptor, the two key sets are disjoint and their union is the picked item's keys minus `id` and `type` |
| NormalizerProperties.PicksSelectClassifiedKeys | src/normalizer/json-normalizer.js:44-46 | with a descriptor and `picks`, a key is classified exactly when it is an item key listed in `picks` and is not `id`/`type` |
| NormalizerProperties.PickingAllKeysChangesNothing | src/normalizer/json-normalizer.js:44-46 | picks that list every property of the item give the same result as no picks |
| NormalizerProperties.ArrayRelationship | src/normalizer/json-normalizer.js:55-58 | a declared array relationship becomes a reference list of the same length and order; element `i` is `{id, type}` of array element `i` |
| NormalizerProperties.PlainObjectRelationship | src/normalizer/json-normalizer.js:59-62 | a declared plain-object relationship `o` becomes `{data: {id: o.id, type: o.type}}` and is not an attribute |
| NormalizerProperties.TruthyScalarRelationshipHasNoData | src/normalizer/json-normalizer.js:63-67 | a declared relationship with a truthy value that is neither an array nor a plain object becomes `{data: null}` |
| NormalizerProperties.UnclassifiedPropertyCopiedToAttributes | src/normalizer/json-normalizer.js:53-54 | an undeclared property, or a declared one with a falsy value, is copied unchanged into `attributes` and is not a relationship |
| NormalizerProperties.ThrowsExactlyOnNullishArrayElement | src/normalizer/json-normalizer.js:28-29 | `normalizeItem` throws exactly when there is a descriptor and a picked declared relationship is an array with a `null`/`undefined` element |
| NormalizerProperties.CollectionOfConcatenation | src/normalizer/json-normalizer.js:75-77 | normalizing `a + b` gives the normalization of `a` followed by that of `b`: order is kept and nothing is deduplicated |

## Left out

- The denormalization engine, `createSchemasMap` and the `ReduxApiStateDenormalizer` class. They form the read path, which is outside this model's scope.
- `getTransformation` and the status module (`STATUS`, `createStatus`, `updateStatus`). They are an external registry and external metadata; the registry is a parameter.
- lodash's deep-path syntax in `_.pick` (`'a.b'`, `'a[0]'`). Pick names are plain property names.
- lodash iterates an object whose numeric `length` property makes it array-like by index instead of by key. An item is always folded over its own keys here.
- Names inherited from `Object.prototype` (`constructor`, `toString`, ...). In JavaScript they read truthy from the ignore set and from a descriptor's `relationshipProperties`, and `_.pick` can pick them. The model treats both sets as plain sets of names and an item as its own properties only.
- JavaScript key-iteration order. Each property writes its own key, and every thrown error is the same `TypeError`, so order cannot change the result.
- Floating-point numbers, `NaN`, `-0` and `BigInt`. A number is an integer, and only `0` is falsy.
- Copying of attribute values. Values are immutable here, so storing one verbatim and sharing it cannot be told apart.
- Inputs of other shapes than the model's types admit. An item is always an object: `normalizeItem(null)` throws in JavaScript when line 72 builds the seed and line 16 reads `null.id`. `picks` is always a list: `_.union` at line 45 ignores a string `picks`. `collection` is always a list: line 76 throws for a value without `map`.
