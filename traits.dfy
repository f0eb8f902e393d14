/** The trait handler an object carries and the trait wrappers it hands out.
    The handler manages the object's stored trait map (the attribute `traits`
    in category `traits`: trait key to record), keeps the keys in insertion
    order and fills a cache of wrappers lazily. A wrapper shares its record
    with the stored map, so every field write through it lands in the store. */
module Traits {
  import opened TraitSchema
  import opened KeyOrder

  /** One stored trait record: the mutable dictionary that the stored map and
      the wrapper of that trait share. `kind` is the trait type the record was
      validated for; its `trait_type` field never changes, so neither does it. */
  class TraitData {
    var fields: Record
    ghost const kind: TraitType

    constructor (fields: Record, ghost kind: TraitType)
      ensures this.fields == fields && this.kind == kind
    {
      this.fields := fields;
      this.kind := kind;
    }
  }

  /** The wrapper of one trait, of the class its `trait_type` names. */
  class Trait {
    const data: TraitData
    const traitType: TraitType

    ghost predicate Valid()
      reads data
    {
      data.kind == traitType && WellFormed(data.fields, traitType)
    }

    constructor (data: TraitData, traitType: TraitType)
      requires data.kind == traitType && WellFormed(data.fields, traitType)
      ensures this.data == data && this.traitType == traitType && Valid()
    {
      this.data := data;
      this.traitType := traitType;
    }

    /** `trait.field` and `trait[field]`: the stored value, or the not-found
        condition when the record holds no such field; the required fields and
        the declared data keys of a valid wrapper are always found. */
    function Get(field: string): (r: Result<Value>)
      reads data
      ensures r.Ok? <==> field in data.fields
      ensures r.Ok? ==> r.value == data.fields[field]
      ensures r.Err? ==> r.error == NoSuchProperty(field) && !IsTraitException(r.error)
      ensures Valid() && Declared(SchemaOf(traitType), field) ==> r.Ok?
    {
      if field in data.fields then Ok(data.fields[field]) else Err(NoSuchProperty(field))
    }

    /** `trait.field = value` and `trait[field] = value`: writes into the shared
        record. The `trait_type` field cannot be changed, and an undeclared
        field is refused when the trait type allows no extra properties. */
    method Set(field: string, value: Value) returns (r: Outcome)
      requires Valid()
      modifies data
      ensures Valid()
      ensures r.Pass? <==> field != TraitTypeKey && (Declared(SchemaOf(traitType), field) || SchemaOf(traitType).allowExtraProperties)
      ensures r.Pass? ==> data.fields == old(data.fields)[field := value]
      ensures r.Fail? ==> data.fields == old(data.fields) && IsTraitException(r.error)
    {
      if field == TraitTypeKey {
        r := Fail(ReadOnlyField(field));
      } else if !Declared(SchemaOf(traitType), field) && !SchemaOf(traitType).allowExtraProperties {
        r := Fail(ExtraNotAllowed(field));
      } else {
        data.fields := data.fields[field := value];
        r := Pass;
      }
    }

    /** `del trait.field` and `del trait[field]`: a declared data key is reset
        to its default, an extra property is removed, and deleting a field the
        record does not hold changes nothing. `name` and `trait_type` cannot be
        deleted. */
    method Delete(field: string) returns (r: Outcome)
      requires Valid()
      modifies data
      ensures Valid()
      ensures field in RequiredKeys ==> r == Fail(ReadOnlyField(field)) && data.fields == old(data.fields)
      ensures field in SchemaOf(traitType).dataKeys ==>
        r.Pass? && data.fields == old(data.fields)[field := SchemaOf(traitType).dataKeys[field].defaultValue]
      ensures !Declared(SchemaOf(traitType), field) && field in old(data.fields) ==>
        r.Pass? && data.fields == old(data.fields) - {field}
      ensures !Declared(SchemaOf(traitType), field) && field !in old(data.fields) ==>
        r.Pass? && data.fields == old(data.fields)
    {
      var schema := SchemaOf(traitType);
      if field in RequiredKeys {
        r := Fail(ReadOnlyField(field));
      } else if field in schema.dataKeys {
        data.fields := data.fields[field := schema.dataKeys[field].defaultValue];
        r := Pass;
      } else if field in data.fields {
        data.fields := data.fields - {field};
        r := Pass;
      } else {
        r := Pass;
      }
    }
  }

  /** The trait handler of one object. */
  class TraitHandler {
    /** The stored trait map: trait key to the shared record. */
    var store: map<string, TraitData>
    /** The keys of `store` in insertion order. */
    var keys: seq<string>
    /** `_cache`: the wrappers handed out so far, by trait key. */
    var cache: map<string, Trait>

    /** The keys list every stored trait once, distinct keys never share a
        record, every record is a well-formed trait record, and every cached
        wrapper is a valid wrapper of the record stored under its key. */
    ghost predicate Valid()
      reads this, store.Values
    {
      && KeysMatch(keys, store)
      && cache.Keys <= store.Keys
      && (forall k :: k in store ==> WellFormed(store[k].fields, store[k].kind))
      && (forall k {:trigger cache[k]} :: k in cache ==> cache[k].data == store[k] && cache[k].traitType == store[k].kind)
    }

    /** What the object's `traits` attribute holds: trait key to record. */
    ghost function Stored(): (m: map<string, Record>)
      reads this, store.Values
      ensures m.Keys == store.Keys
    {
      map k | k in store :: store[k].fields
    }

    /** A handler on an object whose `traits` attribute is not set yet: the
        attribute is created empty. */
    constructor ()
      ensures Valid()
      ensures Stored() == map[] && keys == [] && cache == map[]
    {
      store := map[];
      keys := [];
      cache := map[];
    }

    /** `len(handler)`: the number of stored traits, which is the number of
        keys `all` lists. */
    function Len(): (n: nat)
      reads this, store.Values
      requires Valid()
      ensures n == |All()| && n == |Stored()|
    {
      DistinctCardinality(keys);
      assert |store| == |store.Keys|;
      |store|
    }

    /** `handler.all`: every stored key, once each, in insertion order. */
    function All(): (r: seq<string>)
      reads this, store.Values
      requires Valid()
      ensures Distinct(r) && Elements(r) == Stored().Keys
    {
      keys
    }

    /** `handler.get(key)`, `handler.key` and `handler[key]`: the cached wrapper
        if there is one, else a new wrapper of the record's trait class, which
        is cached; none when no trait is stored under `key`. */
    method Get(key: string) returns (t: Trait?)
      requires Valid()
      modifies this`cache
      ensures Valid()
      ensures t != null <==> key in store
      ensures t != null ==> t.data == store[key] && t.Valid()
      ensures key in old(cache) ==> t == old(cache)[key]
      ensures t != null && key !in old(cache) ==> fresh(t)
      ensures cache == if t == null then old(cache) else old(cache)[key := t]
    {
      if key in cache {
        t := cache[key];
      } else if key in store {
        var record := store[key];
        WellFormedTypeParses(record.fields, record.kind);
        var traitType := ParseTraitType(record.fields[TraitTypeKey].s).value;
        t := new Trait(record, traitType);
        cache := cache[key := t];
      } else {
        t := null;
      }
    }

    /** `handler.add(key, name=..., trait_type=..., **properties)`: stores the
        validated record under `key` in a new record, replacing any earlier
        one; drops a cached wrapper of `key`; a new key goes to the end of the
        key order. Fails, changing nothing, when the record does not validate. */
    method Add(key: string, name: string, traitType: string, properties: Record) returns (r: Outcome)
      requires Valid()
      modifies this
      ensures Valid()
      ensures r.Pass? <==> NewRecord(name, traitType, properties).Ok?
      ensures r.Fail? ==> r.error == NewRecord(name, traitType, properties).error
      ensures r.Fail? ==> store == old(store) && keys == old(keys) && cache == old(cache)
      ensures r.Pass? ==> key in store && fresh(store[key]) && store == old(store)[key := store[key]]
      ensures r.Pass? ==> store[key].fields == NewRecord(name, traitType, properties).value
      ensures r.Pass? ==> store[key].kind == ParseTraitType(traitType).value
      ensures r.Pass? ==> keys == if key in old(store) then old(keys) else old(keys) + [key]
      ensures r.Pass? ==> cache == old(cache) - {key}
    {
      var record := NewRecord(name, traitType, properties);
      if record.Err? {
        r := Fail(record.error);
        return;
      }
      var data := new TraitData(record.value, ParseTraitType(traitType).value);
      KeysMatchAdd(keys, store, key, data);
      if key !in store {
        keys := keys + [key];
      }
      store := store[key := data];
      cache := cache - {key};
      r := Pass;
    }

    /** `handler.remove(key)`: deletes the stored record and its cached
        wrapper, the other keys keeping their order; fails, changing nothing,
        when no trait is stored under `key`. */
    method Remove(key: string) returns (r: Outcome)
      requires Valid()
      modifies this
      ensures Valid()
      ensures r.Pass? <==> key in old(store)
      ensures r.Fail? ==> r.error == TraitNotFound(key) && IsTraitException(r.error)
      ensures r.Fail? ==> store == old(store) && keys == old(keys) && cache == old(cache)
      ensures r.Pass? ==> store == old(store) - {key} && cache == old(cache) - {key}
      ensures r.Pass? ==> keys == Without(old(keys), key) && |keys| == |old(keys)| - 1
    {
      if key !in store {
        r := Fail(TraitNotFound(key));
        return;
      }
      KeysMatchRemove(keys, store, key);
      keys := Without(keys, key);
      store := store - {key};
      cache := cache - {key};
      r := Pass;
    }

    /** `handler.clear()`: removes every stored trait and every cached wrapper. */
    method Clear()
      requires Valid()
      modifies this
      ensures Valid()
      ensures Stored() == map[] && keys == [] && cache == map[]
    {
      store := map[];
      keys := [];
      cache := map[];
    }

    /** `handler.key = value` and `handler[key] = value`: always refused; the
        method has no modifies clause, so the store and cache stay as they are. */
    method Assign(key: string, value: Value) returns (r: Outcome)
      ensures r.Fail? && r.error == NotSettable && IsTraitException(r.error)
    {
      r := Fail(NotSettable);
    }
  }

  /** The bookkeeping part of the handler's invariant: the key list holds
      every stored key once, and distinct keys never share a record. */
  ghost predicate KeysMatch(keys: seq<string>, store: map<string, TraitData>) {
    && Distinct(keys)
    && Elements(keys) == store.Keys
    && (forall k1, k2 {:trigger store[k1], store[k2]} :: k1 in store && k2 in store && k1 != k2 ==> store[k1] != store[k2])
  }

  /** Removing a stored key keeps the bookkeeping and shortens the key list by one. */
  lemma KeysMatchRemove(keys: seq<string>, store: map<string, TraitData>, key: string)
    requires KeysMatch(keys, store) && key in store
    ensures KeysMatch(Without(keys, key), store - {key})
    ensures |Without(keys, key)| == |keys| - 1
  {
    WithoutKeepsDistinct(keys, key);
  }

  /** Storing a record not shared with any key, under a present or a new key,
      keeps the bookkeeping; a new key is appended. */
  lemma KeysMatchAdd(keys: seq<string>, store: map<string, TraitData>, key: string, data: TraitData)
    requires KeysMatch(keys, store) && data !in store.Values
    ensures KeysMatch(if key in store then keys else keys + [key], store[key := data])
  {
    if key !in store {
      AppendKeepsDistinct(keys, key);
      assert Elements(keys + [key]) == Elements(keys) + {key};
    }
    var store' := store[key := data];
    forall k1, k2 | k1 in store' && k2 in store' && k1 != k2
      ensures store'[k1] != store'[k2]
    {
      if k1 == key {
        assert store'[k2] == store[k2];
      } else if k2 == key {
        assert store'[k1] == store[k1];
      }
    }
  }

  /** A field write through a wrapper of a stored trait is a write into the
      stored map: the changed record replaces that trait's entry, every other
      entry stays as it was, and the handler stays valid. */
  twostate lemma WriteThrough(h: TraitHandler, new key: string, new t: Trait)
    requires old(h.Valid()) && h.store == old(h.store) && h.keys == old(h.keys) && h.cache == old(h.cache)
    requires key in h.store && t.data == h.store[key] && t.Valid()
    requires forall k :: k in h.store && h.store[k] != t.data ==> h.store[k].fields == old(h.store[k].fields)
    ensures h.Valid()
    ensures h.Stored() == old(h.Stored())[key := t.data.fields]
  {
    var before, after := old(h.Stored()), h.Stored();
    assert after.Keys == before.Keys;
    forall k | k in after
      ensures after[k] == before[key := t.data.fields][k]
    {
      if k != key {
        assert h.store[k] != h.store[key];
        calc {
          after[k];
          h.store[k].fields;
          old(h.store[k].fields);
          before[k];
        }
      }
    }
    assert after == before[key := t.data.fields];
  }
}
