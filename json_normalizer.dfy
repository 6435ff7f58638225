/**
 * The normalizer: turns one raw record into the resource form
 * `{id, type, attributes, relationships}` and a list of records into a list
 * of those. Which properties are relationships is decided by a
 * transformation descriptor that an external registry supplies.
 */
module JsonNormalizer {
  import opened Wrappers
  import opened JsValues

  /** A raw record: its own enumerable properties. */
  type Item = map<string, Value>

  /** A transformation descriptor: the names its `relationshipProperties` map to `true`. */
  datatype Transformation = Transformation(relationshipProperties: set<string>)

  /** The external `getTransformation` lookup, applied to a whole record. */
  type Registry = Item -> Option<Transformation>

  /** A reference `{id, type}` to another record (`typ` is its `type` member). */
  datatype Descriptor = Descriptor(id: Value, typ: Value)

  /** What a relationship's `data` member holds: a list, one reference, or `null`. */
  datatype RelationshipData =
    | DescriptorList(descriptors: seq<Descriptor>)
    | SingleDescriptor(descriptor: Descriptor)
    | NoData

  /** A relationship entry `{data: ...}`. */
  datatype Relationship = Relationship(data: RelationshipData)

  /** The resource form of a record (`typ` is its `type` member). */
  datatype NormalizedItem = NormalizedItem(
    id: Value,
    typ: Value,
    attributes: map<string, Value>,
    relationships: map<string, Relationship>)

  /** The names that seed the result and are never classified. */
  const DefaultIgnoredProperties: set<string> := {"id", "type"}

  /** The names every pick list is extended with. */
  function DefaultJsonItemAttributeNames(): (r: seq<string>)
    ensures |r| == 2 && "id" in r && "type" in r
  {
    ["id", "type"]
  }

  /** `isIgnoredProperty` with the default ignore set, the only one the normalizer uses. */
  predicate IsIgnoredProperty(property: string)
    ensures IsIgnoredProperty(property) <==> property == "id" || property == "type"
  {
    property in DefaultIgnoredProperties
  }

  /** The sequence without repeated elements: `_.pick` uses only which names it holds. */
  function Dedup(s: seq<string>): seq<string> {
    if s == [] then []
    else
      var rest := Dedup(s[..|s| - 1]);
      if s[|s| - 1] in rest then rest else rest + [s[|s| - 1]]
  }

  /** `Dedup` keeps every element and repeats none. */
  lemma {:induction false} DedupIsDistinctAndComplete(s: seq<string>)
    ensures forall x :: x in Dedup(s) <==> x in s
    ensures forall i, j :: 0 <= i < j < |Dedup(s)| ==> Dedup(s)[i] != Dedup(s)[j]
  {
    if s != [] {
      var init := s[..|s| - 1];
      DedupIsDistinctAndComplete(init);
      assert s == init + [s[|s| - 1]];
    }
  }

  /** `_.union(a, b)`: the names of both lists, each once. */
  function Union(a: seq<string>, b: seq<string>): seq<string> {
    Dedup(a + b)
  }

  /** `_.pick(item, names)`: the properties of `item` whose names are listed. */
  function Pick(item: Item, names: seq<string>): Item {
    map k | k in item && k in names :: item[k]
  }

  /** The record the fold runs over: the item itself, or its pick when `picks` is given. */
  function PickedItem(item: Item, picks: Option<seq<string>>): Item {
    if picks.None? then item else Pick(item, Union(DefaultJsonItemAttributeNames(), picks.value))
  }

  /**
   * The picked item holds the item's own properties whose names are `id`,
   * `type` or listed in `picks`, with their values unchanged.
   */
  lemma PickedItemProperties(item: Item, picks: Option<seq<string>>)
    ensures picks.None? ==> PickedItem(item, picks) == item
    ensures picks.Some? ==> forall k :: k in PickedItem(item, picks) <==>
      k in item && (k in DefaultJsonItemAttributeNames() || k in picks.value)
    ensures forall k :: k in PickedItem(item, picks) ==> PickedItem(item, picks)[k] == item[k]
  {
    if picks.Some? {
      DedupIsDistinctAndComplete(DefaultJsonItemAttributeNames() + picks.value);
    }
  }

  /** `createNormalizedJsonItemDescription`: the item's id and type, nothing classified yet. */
  function CreateNormalizedJsonItemDescription(item: Item): (r: NormalizedItem)
    ensures r.attributes == map[] && r.relationships == map[]
    ensures "id" in item ==> r.id == item["id"]
    ensures "type" in item ==> r.typ == item["type"]
    ensures "id" !in item ==> r.id == Undefined
    ensures "type" !in item ==> r.typ == Undefined
  {
    NormalizedItem(Lookup(item, "id"), Lookup(item, "type"), map[], map[])
  }

  /** `createRelationshipItemDescriptor`: reads `id` then `type`; throws on null and undefined. */
  function CreateRelationshipItemDescriptor(v: Value): (r: Result<Descriptor, JsError>)
    ensures r.Err? <==> Nullish(v)
    ensures v.PlainObj? || v.OtherObj? ==> r == Ok(Descriptor(Lookup(v.fields, "id"), Lookup(v.fields, "type")))
    ensures !(v.PlainObj? || v.OtherObj?) && r.Ok? ==> r.value == Descriptor(Undefined, Undefined)
  {
    match GetProperty(v, "id")
    case Err(e) => Err(e)
    case Ok(id) =>
      match GetProperty(v, "type")
      case Err(e) => Err(e)
      case Ok(typ) => Ok(Descriptor(id, typ))
  }

  /**
   * The fold of `normalizeRelationshipArray`, written as a function: one
   * descriptor pushed per element, left to right, and the first element
   * that throws ends it.
   */
  function RelationshipDescriptors(a: seq<Value>): (r: Result<seq<Descriptor>, JsError>)
    ensures r.Ok? <==> forall i :: 0 <= i < |a| ==> !Nullish(a[i])
    ensures r.Ok? ==> |r.value| == |a|
    ensures r.Ok? ==> forall i :: 0 <= i < |a| ==> Ok(r.value[i]) == CreateRelationshipItemDescriptor(a[i])
  {
    if a == [] then Ok([])
    else
      match RelationshipDescriptors(a[..|a| - 1])
      case Err(e) => Err(e)
      case Ok(ds) =>
        match CreateRelationshipItemDescriptor(a[|a| - 1])
        case Err(e) => Err(e)
        case Ok(d) => Ok(ds + [d])
  }

  /** `normalizeRelationshipArray`: pushes one descriptor per element into an accumulator. */
  method NormalizeRelationshipArray(relationshipArray: seq<Value>) returns (r: Result<seq<Descriptor>, JsError>)
    ensures r == RelationshipDescriptors(relationshipArray)
  {
    var acc: seq<Descriptor> := [];
    var i := 0;
    while i < |relationshipArray|
      invariant 0 <= i <= |relationshipArray|
      invariant RelationshipDescriptors(relationshipArray[..i]) == Ok(acc)
    {
      var d := CreateRelationshipItemDescriptor(relationshipArray[i]);
      if d.Err? {
        assert Nullish(relationshipArray[i]);
        assert d.error == TypeError == RelationshipDescriptors(relationshipArray).error;
        return Err(d.error);
      }
      assert relationshipArray[..i + 1][..i] == relationshipArray[..i];
      acc := acc + [d.value];
      i := i + 1;
    }
    assert relationshipArray[..i] == relationshipArray;
    r := Ok(acc);
  }

  /** `normalizeRelationshipObject`: the reference to a plain object. */
  function NormalizeRelationshipObject(relationshipItem: Value): (r: Descriptor)
    requires IsPlainObject(relationshipItem)
    ensures r == Descriptor(Lookup(relationshipItem.fields, "id"), Lookup(relationshipItem.fields, "type"))
  {
    CreateRelationshipItemDescriptor(relationshipItem).value
  }

  /** Where one property of the (picked) item ends up. */
  datatype Placement = Skipped | AsAttribute | AsRelationship(relationship: Relationship)

  /**
   * One step of the fold in `normalizeItem`. Without a descriptor, and for
   * `id` and `type`, nothing is written. A declared relationship whose value
   * is truthy becomes a relationship; everything else, including a declared
   * relationship with a falsy value, is an attribute.
   */
  function Classify(t: Option<Transformation>, property: string, val: Value): Result<Placement, JsError> {
    if t.None? || IsIgnoredProperty(property) then Ok(Skipped)
    else if property in t.value.relationshipProperties && Truthy(val) then
      if IsArray(val) then
        match RelationshipDescriptors(val.elems)
        case Err(e) => Err(e)
        case Ok(ds) => Ok(AsRelationship(Relationship(DescriptorList(ds))))
      else if IsPlainObject(val) then Ok(AsRelationship(Relationship(SingleDescriptor(NormalizeRelationshipObject(val)))))
      else Ok(AsRelationship(Relationship(NoData)))
    else Ok(AsAttribute)
  }

  /**
   * A property is skipped exactly when there is no descriptor or it is `id`
   * or `type`; it is an attribute exactly when it is not a declared
   * relationship with a truthy value; only an array relationship can throw.
   */
  lemma ClassifyPlacement(t: Option<Transformation>, property: string, val: Value)
    ensures Classify(t, property, val) == Ok(Skipped) <==> t.None? || IsIgnoredProperty(property)
    ensures Classify(t, property, val) == Ok(AsAttribute) <==>
      t.Some? && !IsIgnoredProperty(property) && !(property in t.value.relationshipProperties && Truthy(val))
    ensures Classify(t, property, val).Err? <==>
      t.Some? && !IsIgnoredProperty(property) && property in t.value.relationshipProperties &&
      IsArray(val) && exists i :: 0 <= i < |val.elems| && Nullish(val.elems[i])
  {
  }

  /** No step of the fold over the keys in `done` throws. */
  predicate ClassifiesAll(t: Option<Transformation>, item: Item, done: set<string>) {
    forall k :: k in done && k in item ==> Classify(t, k, item[k]).Ok?
  }

  /** The `attributes` the fold has written after visiting the keys in `done`. */
  function AttributesAfter(t: Option<Transformation>, item: Item, done: set<string>): map<string, Value> {
    map k | k in done && k in item && Classify(t, k, item[k]) == Ok(AsAttribute) :: item[k]
  }

  /** The `relationships` the fold has written after visiting the keys in `done`. */
  function RelationshipsAfter(t: Option<Transformation>, item: Item, done: set<string>): map<string, Relationship> {
    map k | k in done && k in item && Classify(t, k, item[k]).Ok? && Classify(t, k, item[k]).value.AsRelationship?
      :: Classify(t, k, item[k]).value.relationship
  }

  /**
   * What `normalizeItem(item, picks)` returns, as a function: the descriptor
   * is looked up on the original item, the fold runs over the picked item,
   * and it throws when some step throws.
   */
  function Normalized(item: Item, picks: Option<seq<string>>, registry: Registry): Result<NormalizedItem, JsError> {
    var t := registry(item);
    var source := PickedItem(item, picks);
    if ClassifiesAll(t, source, source.Keys) then
      var seed := CreateNormalizedJsonItemDescription(source);
      Ok(seed.(attributes := AttributesAfter(t, source, source.Keys),
               relationships := RelationshipsAfter(t, source, source.Keys)))
    else Err(TypeError)
  }

  /** The accumulator after one property has been placed. */
  function Place(normalizedItem: NormalizedItem, property: string, val: Value, placement: Placement): NormalizedItem {
    match placement
    case Skipped => normalizedItem
    case AsAttribute => normalizedItem.(attributes := normalizedItem.attributes[property := val])
    case AsRelationship(relationship) =>
      normalizedItem.(relationships := normalizedItem.relationships[property := relationship])
  }

  /**
   * The accumulator of the fold over `item` after visiting the keys in
   * `done`: the seed's `id` and `type`, and what those keys determine.
   */
  predicate Folded(t: Option<Transformation>, item: Item, done: set<string>, normalizedItem: NormalizedItem) {
    && normalizedItem.id == Lookup(item, "id")
    && normalizedItem.typ == Lookup(item, "type")
    && ClassifiesAll(t, item, done)
    && normalizedItem.attributes == AttributesAfter(t, item, done)
    && normalizedItem.relationships == RelationshipsAfter(t, item, done)
  }

  /** One step of the fold keeps the accumulator equal to what the visited keys determine. */
  lemma FoldStep(t: Option<Transformation>, item: Item, done: set<string>, property: string,
                 normalizedItem: NormalizedItem, next: NormalizedItem)
    requires property in item && property !in done
    requires Folded(t, item, done, normalizedItem)
    requires Classify(t, property, item[property]).Ok?
    requires next == Place(normalizedItem, property, item[property], Classify(t, property, item[property]).value)
    ensures Folded(t, item, done + {property}, next)
  {
  }

  /** A step of the fold that throws makes `normalizeItem` throw. */
  lemma FoldThrows(item: Item, picks: Option<seq<string>>, registry: Registry, property: string)
    requires property in PickedItem(item, picks)
    requires Classify(registry(item), property, PickedItem(item, picks)[property]).Err?
    ensures Normalized(item, picks, registry) == Err(TypeError)
  {
  }

  /** A fold that has visited every key has built the result of `normalizeItem`. */
  lemma FoldComplete(item: Item, picks: Option<seq<string>>, registry: Registry, normalizedItem: NormalizedItem)
    requires Folded(registry(item), PickedItem(item, picks), PickedItem(item, picks).Keys, normalizedItem)
    ensures Normalized(item, picks, registry) == Ok(normalizedItem)
  {
  }

  /** The callback of the fold in `normalizeItem`: places one property into the accumulator. */
  method NormalizeProperty(itemTransformation: Option<Transformation>, normalizedItem: NormalizedItem, val: Value, property: string)
    returns (r: Result<NormalizedItem, JsError>)
    ensures Classify(itemTransformation, property, val).Err? <==> r.Err?
    ensures r.Ok? ==> r.value == Place(normalizedItem, property, val, Classify(itemTransformation, property, val).value)
  {
    if itemTransformation.None? || IsIgnoredProperty(property) {
      return Ok(normalizedItem);
    }
    if property in itemTransformation.value.relationshipProperties && Truthy(val) {
      var relationship;
      if IsArray(val) {
        var descriptors := NormalizeRelationshipArray(val.elems);
        if descriptors.Err? {
          return Err(descriptors.error);
        }
        relationship := Relationship(DescriptorList(descriptors.value));
      } else if IsPlainObject(val) {
        relationship := Relationship(SingleDescriptor(NormalizeRelationshipObject(val)));
      } else {
        relationship := Relationship(NoData);
      }
      r := Ok(normalizedItem.(relationships := normalizedItem.relationships[property := relationship]));
    } else {
      r := Ok(normalizedItem.(attributes := normalizedItem.attributes[property := val]));
    }
  }

  /** `normalizeItem`: one pass over the properties, writing into one accumulator. */
  method NormalizeItem(item: Item, picks: Option<seq<string>>, registry: Registry) returns (r: Result<NormalizedItem, JsError>)
    ensures r == Normalized(item, picks, registry)
  {
    var itemTransformation := registry(item);
    var source := PickedItem(item, picks);
    var normalizedItem := CreateNormalizedJsonItemDescription(source);
    var pending := source.Keys;
    while pending != {}
      invariant pending <= source.Keys
      invariant Folded(itemTransformation, source, source.Keys - pending, normalizedItem)
      decreases |pending|
    {
      var property :| property in pending;
      ghost var done := source.Keys - pending;
      pending := pending - {property};
      assert source.Keys - pending == done + {property};
      var step := NormalizeProperty(itemTransformation, normalizedItem, source[property], property);
      if step.Err? {
        FoldThrows(item, picks, registry, property);
        return Err(TypeError);
      }
      FoldStep(itemTransformation, source, done, property, normalizedItem, step.value);
      normalizedItem := step.value;
    }
    assert source.Keys - pending == source.Keys;
    FoldComplete(item, picks, registry, normalizedItem);
    r := Ok(normalizedItem);
  }

  /** `normalizeCollection`: `normalizeItem` mapped over the list, in order; it throws when an item does. */
  function NormalizeCollection(collection: seq<Item>, picks: Option<seq<string>>, registry: Registry)
    : (r: Result<seq<NormalizedItem>, JsError>)
    ensures r.Ok? <==> forall i :: 0 <= i < |collection| ==> Normalized(collection[i], picks, registry).Ok?
    ensures r.Ok? ==> |r.value| == |collection|
    ensures r.Ok? ==> forall i :: 0 <= i < |collection| ==> Ok(r.value[i]) == Normalized(collection[i], picks, registry)
  {
    if collection == [] then Ok([])
    else
      match Normalized(collection[0], picks, registry)
      case Err(e) => Err(e)
      case Ok(head) =>
        match NormalizeCollection(collection[1..], picks, registry)
        case Err(e) => Err(e)
        case Ok(tail) => Ok([head] + tail)
  }
}
