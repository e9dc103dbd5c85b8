/** The staging record for a product's descriptions: its value builders and the
    two repository operations, `createProductCustomObject` and
    `updateCustomObjectWithDescription`, against a versioned custom-object store. */
module CustomObjects {
  import opened Js

  const TemporaryDescription := "temporaryDescription"
  const ConcurrentModification := Error("ConcurrentModification: version mismatch")

  /** A custom object's value: a JSON object, its key order left out. */
  type Record = map<string, Value>

  datatype Stored = Stored(version: nat, value: Record)

  /** A request the store received, in the order received. */
  datatype StoreRequest =
    | Read(container: string, key: string)
    | Write(container: string, key: string, version: Option<nat>, value: Record)

  function NotFound(productId: string): Error {
    Error("Custom object not found for product ID: " + productId)
  }

  /** The platform's custom-object store: (container, key) to (version, value).
      Every request can fail in transport, which the caller passes in as `failure`. */
  class Store {
    var objects: map<(string, string), Stored>
    var requests: seq<StoreRequest>

    constructor(objects: map<(string, string), Stored>)
      ensures this.objects == objects && requests == []
    {
      this.objects := objects;
      requests := [];
    }

    /** Read the object at (container, key); None when there is none. */
    method Get(container: string, key: string, failure: Option<Error>) returns (r: Result<Option<Stored>>)
      modifies this
      ensures requests == old(requests) + [Read(container, key)]
      ensures objects == old(objects)
      ensures failure.Some? ==> r == Err(failure.value)
      ensures failure.None? ==> r == Ok(if (container, key) in objects then Some(objects[(container, key)]) else None)
    {
      requests := requests + [Read(container, key)];
      if failure.Some? {
        return Err(failure.value);
      }
      if (container, key) in objects {
        r := Ok(Some(objects[(container, key)]));
      } else {
        r := Ok(None);
      }
    }

    /** Create or replace the object at (container, key). A version, when given,
        must be the stored one (optimistic concurrency); each successful write
        stores the next version. */
    method Post(container: string, key: string, version: Option<nat>, value: Record, failure: Option<Error>)
      returns (r: Result<Stored>)
      modifies this
      ensures requests == old(requests) + [Write(container, key, version, value)]
      ensures failure.Some? ==> r == Err(failure.value)
      ensures (failure.None? && version.Some? && (container, key) in old(objects)
               && old(objects)[(container, key)].version != version.value) ==> r == Err(ConcurrentModification)
      ensures r.Err? ==> objects == old(objects)
      ensures r.Ok? ==> r.value == Stored(NextVersion(old(objects), (container, key)), value)
                        && objects == old(objects)[(container, key) := r.value]
      ensures (failure.None? && (version.None? || (container, key) !in old(objects)
                                 || old(objects)[(container, key)].version == version.value)) ==> r.Ok?
    {
      requests := requests + [Write(container, key, version, value)];
      if failure.Some? {
        return Err(failure.value);
      }
      var id := (container, key);
      if version.Some? && id in objects && objects[id].version != version.value {
        return Err(ConcurrentModification);
      }
      var stored := Stored(NextVersion(objects, id), value);
      objects := objects[id := stored];
      r := Ok(stored);
    }
  }

  function NextVersion(objects: map<(string, string), Stored>, id: (string, string)): nat {
    if id in objects then objects[id].version + 1 else 1
  }

  /** The `reduce` over the language list: one null slot per language. */
  method NullSlots(languages: seq<string>) returns (slots: Record)
    ensures slots.Keys == set l | l in languages
    ensures forall l :: l in slots ==> slots[l] == Null
  {
    slots := map[];
    var i := 0;
    while i < |languages|
      invariant 0 <= i <= |languages|
      invariant slots.Keys == set l | l in languages[..i]
      invariant forall l :: l in slots ==> slots[l] == Null
    {
      assert languages[..i + 1] == languages[..i] + [languages[i]];
      slots := slots[languages[i] := Null];
      i := i + 1;
    }
    assert languages[..i] == languages;
  }

  const MetadataKeys := {"imageUrl", "productType", "productName"}

  /** `{...slots, imageUrl, productType, productName}`: the three metadata
      entries overlay whatever the slots held under those names. */
  function WithMetadata(slots: Record, imageUrl: string, productType: string, productName: string): (v: Record)
    ensures v.Keys == slots.Keys + MetadataKeys
    ensures v["imageUrl"] == Str(imageUrl) && v["productType"] == Str(productType) && v["productName"] == Str(productName)
    ensures forall k :: k in slots && k !in MetadataKeys ==> v[k] == slots[k]
  {
    slots["imageUrl" := Str(imageUrl)]["productType" := Str(productType)]["productName" := Str(productName)]
  }

  /** The value a new staging record is created with. */
  function PlaceholderValue(languages: seq<string>, imageUrl: string, productType: string, productName: string): Record {
    WithMetadata(map l | l in languages :: Null, imageUrl, productType, productName)
  }

  /** The placeholder has a key for each language and each metadata name and
      no other; a language that is not a metadata name holds null. Repeated
      languages give one key, and an empty list leaves only the metadata. */
  lemma PlaceholderShape(languages: seq<string>, imageUrl: string, productType: string, productName: string)
    ensures PlaceholderValue(languages, imageUrl, productType, productName).Keys == (set l | l in languages) + MetadataKeys
    ensures forall l :: l in languages && l !in MetadataKeys ==> PlaceholderValue(languages, imageUrl, productType, productName)[l] == Null
    ensures languages == [] ==> PlaceholderValue(languages, imageUrl, productType, productName).Keys == MetadataKeys
  {
  }

  /** `createProductCustomObject`: builds the placeholder and posts it once, with
      no version, under the product id in "temporaryDescription". A failed post is
      passed on unchanged. */
  method CreateProductCustomObject(store: Store, productId: string, imageUrl: string, productName: string,
                                   productType: string, languages: seq<string>, failure: Option<Error>)
    returns (r: Result<Stored>)
    modifies store
    ensures store.requests == old(store.requests)
              + [Write(TemporaryDescription, productId, None, PlaceholderValue(languages, imageUrl, productType, productName))]
    ensures failure.Some? ==> r == Err(failure.value) && store.objects == old(store.objects)
    ensures failure.None? ==> r.Ok? && r.value.value == PlaceholderValue(languages, imageUrl, productType, productName)
                              && store.objects == old(store.objects)[(TemporaryDescription, productId) := r.value]
  {
    var descriptions := NullSlots(languages);
    assert descriptions == map l | l in languages :: Null;
    var value := WithMetadata(descriptions, imageUrl, productType, productName);
    r := store.Post(TemporaryDescription, productId, None, value, failure);
  }

  /** `{...translations, imageUrl, productType, productName, generatedAt}`. */
  function DescribedValue(translations: map<string, string>, imageUrl: string, productType: string,
                          productName: string, generatedAt: string): (v: Record)
    ensures v.Keys == translations.Keys + MetadataKeys + {"generatedAt"}
    ensures v["imageUrl"] == Str(imageUrl) && v["productType"] == Str(productType)
            && v["productName"] == Str(productName) && v["generatedAt"] == Str(generatedAt)
    ensures forall k :: k in translations && k !in MetadataKeys && k != "generatedAt" ==> v[k] == Str(translations[k])
  {
    WithMetadata(map k | k in translations :: Str(translations[k]), imageUrl, productType, productName)["generatedAt" := Str(generatedAt)]
  }

  /** `updateCustomObjectWithDescription`: reads the record, fails with "not found"
      when there is none, and otherwise writes the described value with the
      version it just read. Read and write failures are passed on unchanged.
      The clock reading for `generatedAt` is a parameter. */
  method UpdateCustomObjectWithDescription(store: Store, productId: string, productName: string, imageUrl: string,
                                           translations: map<string, string>, productType: string, generatedAt: string,
                                           readFailure: Option<Error>, writeFailure: Option<Error>)
    returns (r: Result<Stored>)
    modifies store
    ensures var id := (TemporaryDescription, productId);
            var value := DescribedValue(translations, imageUrl, productType, productName, generatedAt);
            if readFailure.Some? then
              r == Err(readFailure.value)
              && store.requests == old(store.requests) + [Read(TemporaryDescription, productId)]
              && store.objects == old(store.objects)
            else if id !in old(store.objects) then
              r == Err(NotFound(productId))
              && store.requests == old(store.requests) + [Read(TemporaryDescription, productId)]
              && store.objects == old(store.objects)
            else
              store.requests == old(store.requests)
                + [Read(TemporaryDescription, productId),
                   Write(TemporaryDescription, productId, Some(old(store.objects)[id].version), value)]
              && (writeFailure.Some? ==> r == Err(writeFailure.value) && store.objects == old(store.objects))
              && (writeFailure.None? ==>
                    r == Ok(Stored(old(store.objects)[id].version + 1, value))
                    && store.objects == old(store.objects)[id := r.value])
  {
    var current := store.Get(TemporaryDescription, productId, readFailure);
    if current.Err? {
      return Err(current.error);
    }
    if current.value.None? {
      return Err(NotFound(productId));
    }
    var currentVersion := current.value.value.version;
    var updatedValue := DescribedValue(translations, imageUrl, productType, productName, generatedAt);
    r := store.Post(TemporaryDescription, productId, Some(currentVersion), updatedValue, writeFailure);
  }

  /** The two phases together, as the handler runs them: after a successful create
      and update the record holds the described value, and the create's null
      slots are gone unless a translation or a metadata name refilled them. */
  method CreateThenUpdate(store: Store, productId: string, imageUrl: string, productName: string, productType: string,
                          languages: seq<string>, translations: map<string, string>, generatedAt: string)
    returns (created: Result<Stored>, updated: Result<Stored>)
    modifies store
    ensures created.Ok? && updated.Ok?
    ensures updated.value.version == created.value.version + 1
    ensures store.objects == old(store.objects)[(TemporaryDescription, productId) := updated.value]
    ensures updated.value.value == DescribedValue(translations, imageUrl, productType, productName, generatedAt)
    ensures forall l :: l in languages && l !in translations && l !in MetadataKeys && l != "generatedAt" ==>
              l !in store.objects[(TemporaryDescription, productId)].value
  {
    created := CreateProductCustomObject(store, productId, imageUrl, productName, productType, languages, None);
    updated := UpdateCustomObjectWithDescription(store, productId, productName, imageUrl, translations, productType,
                                                 generatedAt, None, None);
  }
}
