/**
 * What `normalizeItem` and `normalizeCollection` guarantee, stated over the
 * function `Normalized` that the loop in `NormalizeItem` is proved to compute.
 */
module NormalizerProperties {
  import opened Wrappers
  import opened JsValues
  import opened JsonNormalizer

  /** The result's `id` and `type` are the item's own, with or without `picks`. */
  lemma IdAndTypeKept(item: Item, picks: Option<seq<string>>, registry: Registry)
    requires Normalized(item, picks, registry).Ok?
    ensures Normalized(item, picks, registry).value.id == Lookup(item, "id")
    ensures Normalized(item, picks, registry).value.typ == Lookup(item, "type")
  {
    PickedItemProperties(item, picks);
  }

  /** Without a transformation descriptor the result is the seed: nothing is classified and nothing throws. */
  lemma NoTransformationGivesEmptyShell(item: Item, picks: Option<seq<string>>, registry: Registry)
    requires registry(item).None?
    ensures Normalized(item, picks, registry) == Ok(NormalizedItem(Lookup(item, "id"), Lookup(item, "type"), map[], map[]))
  {
    PickedItemProperties(item, picks);
    var source := PickedItem(item, picks);
    assert AttributesAfter(None, source, source.Keys) == map[];
    assert RelationshipsAfter(None, source, source.Keys) == map[];
  }

  /** `id` and `type` are never keys of `attributes` or `relationships`. */
  lemma IgnoredPropertiesNeverClassified(item: Item, picks: Option<seq<string>>, registry: Registry)
    requires Normalized(item, picks, registry).Ok?
    ensures "id" !in Normalized(item, picks, registry).value.attributes
    ensures "type" !in Normalized(item, picks, registry).value.attributes
    ensures "id" !in Normalized(item, picks, registry).value.relationships
    ensures "type" !in Normalized(item, picks, registry).value.relationships
  {
  }

  /**
   * With a descriptor, `attributes` and `relationships` split the picked
   * item's properties other than `id` and `type` between them.
   */
  lemma KeysPartitionPickedItem(item: Item, picks: Option<seq<string>>, registry: Registry)
    requires registry(item).Some?
    requires Normalized(item, picks, registry).Ok?
    ensures Normalized(item, picks, registry).value.attributes.Keys !! Normalized(item, picks, registry).value.relationships.Keys
    ensures Normalized(item, picks, registry).value.attributes.Keys + Normalized(item, picks, registry).value.relationships.Keys
         == PickedItem(item, picks).Keys - DefaultIgnoredProperties
  {

  }

  /**
   * With a descriptor and `picks`, the classified properties are exactly the
   * item's picked properties other than `id` and `type`.
   */
  lemma PicksSelectClassifiedKeys(item: Item, names: seq<string>, registry: Registry, k: string)
    requires registry(item).Some?
    requires Normalized(item, Some(names), registry).Ok?
    ensures k in Normalized(item, Some(names), registry).value.attributes
         || k in Normalized(item, Some(names), registry).value.relationships
        <==> k in item && k in names && k !in DefaultIgnoredProperties
  {
    KeysPartitionPickedItem(item, Some(names), registry);
    PickedItemProperties(item, Some(names));
  }

  /** Picking every property of the item is the same as not picking. */
  lemma PickingAllKeysChangesNothing(item: Item, names: seq<string>, registry: Registry)
    requires forall k :: k in item ==> k in names
    ensures Normalized(item, Some(names), registry) == Normalized(item, None, registry)
  {
    PickedItemProperties(item, Some(names));
    assert PickedItem(item, Some(names)) == item;
  }

  /**
   * A declared relationship holding an array becomes a list of references
   * of the same length and order, element `i` being `{id, type}` of element `i`.
   */
  lemma ArrayRelationship(item: Item, picks: Option<seq<string>>, registry: Registry, property: string)
    requires registry(item).Some? && property in registry(item).value.relationshipProperties
    requires property in PickedItem(item, picks) && property !in DefaultIgnoredProperties
    requires PickedItem(item, picks)[property].Arr?
    requires Normalized(item, picks, registry).Ok?
    ensures property in Normalized(item, picks, registry).value.relationships
    ensures property !in Normalized(item, picks, registry).value.attributes
    ensures Normalized(item, picks, registry).value.relationships[property].data.DescriptorList?
    ensures var elems := PickedItem(item, picks)[property].elems;
            var ds := Normalized(item, picks, registry).value.relationships[property].data.descriptors;
            |ds| == |elems| &&
            forall i :: 0 <= i < |elems| ==>
              !Nullish(elems[i]) && ds[i] == Descriptor(GetProperty(elems[i], "id").value, GetProperty(elems[i], "type").value)
  {

  }

  /** A declared relationship holding a plain object `o` becomes the single reference `{id: o.id, type: o.type}`. */
  lemma PlainObjectRelationship(item: Item, picks: Option<seq<string>>, registry: Registry, property: string)
    requires registry(item).Some? && property in registry(item).value.relationshipProperties
    requires property in PickedItem(item, picks) && property !in DefaultIgnoredProperties
    requires PickedItem(item, picks)[property].PlainObj?
    requires Normalized(item, picks, registry).Ok?
    ensures property !in Normalized(item, picks, registry).value.attributes
    ensures property in Normalized(item, picks, registry).value.relationships
    ensures var o := PickedItem(item, picks)[property].fields;
            Normalized(item, picks, registry).value.relationships[property]
              == Relationship(SingleDescriptor(Descriptor(Lookup(o, "id"), Lookup(o, "type"))))
  {
  }

  /**
   * A declared relationship holding a truthy value that is neither an array
   * nor a plain object (a string or number id, say) becomes `{data: null}`.
   */
  lemma TruthyScalarRelationshipHasNoData(item: Item, picks: Option<seq<string>>, registry: Registry, property: string)
    requires registry(item).Some? && property in registry(item).value.relationshipProperties
    requires property in PickedItem(item, picks) && property !in DefaultIgnoredProperties
    requires Truthy(PickedItem(item, picks)[property])
    requires !IsArray(PickedItem(item, picks)[property]) && !IsPlainObject(PickedItem(item, picks)[property])
    requires Normalized(item, picks, registry).Ok?
    ensures property !in Normalized(item, picks, registry).value.attributes
    ensures property in Normalized(item, picks, registry).value.relationships
    ensures Normalized(item, picks, registry).value.relationships[property] == Relationship(NoData)
  {
  }

  /**
   * A property that is not classified as a relationship (undeclared, or
   * declared with a falsy value) is copied unchanged into `attributes`.
   */
  lemma UnclassifiedPropertyCopiedToAttributes(item: Item, picks: Option<seq<string>>, registry: Registry, property: string)
    requires registry(item).Some?
    requires property in PickedItem(item, picks) && property !in DefaultIgnoredProperties
    requires property !in registry(item).value.relationshipProperties || !Truthy(PickedItem(item, picks)[property])
    requires Normalized(item, picks, registry).Ok?
    ensures property !in Normalized(item, picks, registry).value.relationships
    ensures property in Normalized(item, picks, registry).value.attributes
    ensures Normalized(item, picks, registry).value.attributes[property] == item[property]
  {

  }

  /**
   * `normalizeItem` throws exactly when a descriptor exists and some picked
   * declared relationship is an array holding `null` or `undefined`.
   */
  lemma ThrowsExactlyOnNullishArrayElement(item: Item, picks: Option<seq<string>>, registry: Registry)
    ensures Normalized(item, picks, registry).Err? <==>
      registry(item).Some? &&
      exists property :: property in PickedItem(item, picks) && property !in DefaultIgnoredProperties &&
        property in registry(item).value.relationshipProperties &&
        PickedItem(item, picks)[property].Arr? &&
        exists i :: 0 <= i < |PickedItem(item, picks)[property].elems| && Nullish(PickedItem(item, picks)[property].elems[i])
  {

  }

  /** Normalizing a concatenation of lists is the concatenation of their normalizations. */
  lemma CollectionOfConcatenation(a: seq<Item>, b: seq<Item>, picks: Option<seq<string>>, registry: Registry)
    requires NormalizeCollection(a, picks, registry).Ok? && NormalizeCollection(b, picks, registry).Ok?
    ensures NormalizeCollection(a + b, picks, registry)
         == Ok(NormalizeCollection(a, picks, registry).value + NormalizeCollection(b, picks, registry).value)
  {
    var front := NormalizeCollection(a, picks, registry).value;
    var back := NormalizeCollection(b, picks, registry).value;
    forall i | 0 <= i < |a + b|
      ensures Ok((front + back)[i]) == Normalized((a + b)[i], picks, registry)
    {
      if i < |a| {
        assert (a + b)[i] == a[i];
      } else {
        assert (a + b)[i] == b[i - |a|];
      }
    }
    var whole := NormalizeCollection(a + b, picks, registry);
    assert whole.Ok?;
    assert whole.value == front + back;
  }
}
