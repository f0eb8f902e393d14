/** The scenarios of the trait test suite, replayed on the model: each handler
    and wrapper test is a method that builds a fresh handler as the suite's
    fixture does and asserts what the test asserts; each `validate_input` test
    is a lemma about `ValidateInput`. A list-valued or other host object is an
    `Opaque` token. */
module TraitTests {
  import opened TraitSchema
  import opened Traits
  import KeyOrder

  /** The record `add` stores for a base trait: the given properties, `value`
      defaulting to `None`, and the two required fields. */
  function BaseRecord(name: string, properties: Record): Record {
    (if "value" in properties then properties else properties["value" := None])
      [NameKey := Str(name)][TraitTypeKey := Str("trait")]
  }

  const Test1: Record := map["value" := None, NameKey := Str("Test1"), TraitTypeKey := Str("trait")]
  const Test2: Record := map["value" := Opaque(1), NameKey := Str("Test2"), TraitTypeKey := Str("trait")]

  /** Adding a base trait keeps every given property, fills in `value` and
      sets the two required fields. */
  lemma NewBaseRecord(name: string, properties: Record)
    requires NameKey !in properties && TraitTypeKey !in properties
    ensures NewRecord(name, "trait", properties) == Ok(BaseRecord(name, properties))
  {
    var r := NewRecord(name, "trait", properties);
    var expected := BaseRecord(name, properties);
    assert ParseTraitType("trait") == Ok(Base);
    assert r.Ok?;
    assert r.value.Keys == expected.Keys;
    assert r.value == expected;
  }

  /** `handler.add(key, name=name, trait_type="trait", **properties)` for a
      key not yet stored. */
  method AddBase(h: TraitHandler, key: string, name: string, properties: Record)
    requires h.Valid() && key !in h.store && NameKey !in properties && TraitTypeKey !in properties
    modifies h
    ensures h.Valid() && h.cache == old(h.cache) - {key}
    ensures h.store.Keys == old(h.store.Keys) + {key} && h.keys == old(h.keys) + [key]
    ensures forall k :: k in old(h.store) ==> h.store[k] == old(h.store[k])
    ensures fresh(h.store[key]) && h.store[key].fields == BaseRecord(name, properties) && h.store[key].kind == Base
  {
    NewBaseRecord(name, properties);
    var r := h.Add(key, name, "trait", properties);
  }

  /** The fixture of the handler tests: two base traits, the second with a value. */
  method HandlerFixture() returns (h: TraitHandler)
    ensures fresh(h) && h.Valid()
    ensures h.store.Keys == {"test1", "test2"} && fresh(h.store["test1"]) && fresh(h.store["test2"])
    ensures h.store["test1"].fields == Test1 && h.store["test2"].fields == Test2
    ensures h.store["test1"].kind == Base && h.store["test2"].kind == Base
    ensures h.keys == ["test1", "test2"] && h.cache == map[]
  {
    h := new TraitHandler();
    AddBase(h, "test1", "Test1", map[]);
    assert "test2"[4] != "test1"[4];
    AddBase(h, "test2", "Test2", map["value" := Opaque(1)]);
  }

  /** `test_add_trait`: the stored records, and two traits. */
  method TestAddTrait() {
    var h := HandlerFixture();
    assert h.store["test1"].fields == Test1 && h.store["test2"].fields == Test2;
    assert h.Len() == 2;
  }

  /** `test_cache`: the cache fills one wrapper per first access; `all` does
      not touch it. */
  method TestCache() {
    var h := HandlerFixture();
    assert |h.cache| == 0;
    var all := h.All();
    assert |h.cache| == 0;
    var t1 := h.Get("test1");
    assert h.cache == map["test1" := t1];
    var t2 := h.Get("test2");
    assert h.cache == map["test1" := t1, "test2" := t2];
    assert |h.cache| == 2;
  }

  /** `test_setting`: assigning on the handler, as attribute or as item, is refused. */
  method TestSetting() {
    var h := HandlerFixture();
    var r1 := h.Assign("foo", Str("bar"));
    assert r1.Fail? && IsTraitException(r1.error);
    var r2 := h.Assign("foo", Str("bar"));
    assert r2.Fail? && IsTraitException(r2.error);
  }

  /** `test_getting`, first part: wrappers read the stored records and are cached. */
  method TestGetting() {
    var h := HandlerFixture();
    var t1 := h.Get("test1");
    assert t1 != null && t1.data.fields == Test1;
    assert h.cache != map[];
    var t2 := h.Get("test2");
    assert t2 != null && t2.data.fields == Test2;
  }

  /** `test_getting`, second part: keys with no stored trait give none. */
  method TestGettingUnknown() {
    var h := HandlerFixture();
    assert "foo" !in h.store;
    var foo := h.Get("foo");
    assert foo == null;
    assert "bar" !in h.store;
    var bar := h.Get("bar");
    assert bar == null;
  }

  /** `test_all`: the keys in insertion order. */
  method TestAll() {
    var h := HandlerFixture();
    assert h.All() == ["test1", "test2"];
  }

  /** `test_remove`: one trait left, readable and cached; removing an unknown
      key is refused. */
  method TestRemove() {
    var h := HandlerFixture();
    var before := h.keys;
    var r := h.Remove("test2");
    KeyOrder.WithoutAt(before, 1);
    assert h.All() == ["test1"];
    assert h.Len() == 1;
    assert "test1"[4] != "test2"[4];
    var t := h.Get("test1");
    assert t != null && |h.cache| == 1;
    assert "foo" !in h.store;
    var r2 := h.Remove("foo");
    assert r2.Fail? && IsTraitException(r2.error);
  }

  /** `test_clear`: no trait left. */
  method TestClear() {
    var h := HandlerFixture();
    h.Clear();
    assert h.Len() == 0;
  }

  /** `trait.field = value` on a wrapper the handler handed out, seen from the
      stored map. */
  method SetThrough(h: TraitHandler, key: string, t: Trait, field: string, value: Value)
    requires h.Valid() && key in h.store && t.data == h.store[key] && t.Valid()
    requires field in SchemaOf(t.traitType).dataKeys
    modifies t.data
    ensures h.Valid() && t.Valid()
    ensures h.Stored() == old(h.Stored())[key := old(t.data.fields)[field := value]]
  {
    var r := t.Set(field, value);
    WriteThrough(h, key, t);
  }

  /** `del trait.field` on a wrapper the handler handed out, seen from the
      stored map. */
  method DeleteThrough(h: TraitHandler, key: string, t: Trait, field: string)
    requires h.Valid() && key in h.store && t.data == h.store[key] && t.Valid()
    requires field in SchemaOf(t.traitType).dataKeys
    modifies t.data
    ensures h.Valid() && t.Valid()
    ensures h.Stored() == old(h.Stored())[key := old(t.data.fields)[field := SchemaOf(t.traitType).dataKeys[field].defaultValue]]
  {
    var r := t.Delete(field);
    WriteThrough(h, key, t);
  }

  /** `test_trait_db_connection`: writes through the wrapper, and the reset by
      `del`, show up in the stored map. */
  method TestTraitDbConnection() {
    var h := HandlerFixture();
    var t := h.Get("test1");
    assert t.Get("value") == Ok(None);
    SetThrough(h, "test1", t, "value", Int(10));
    assert t.Get("value") == Ok(Int(10));
    assert h.Stored()["test1"]["value"] == Int(10);
    SetThrough(h, "test1", t, "value", Int(20));
    assert t.Get("value") == Ok(Int(20));
    assert h.Stored()["test1"]["value"] == Int(20);
    DeleteThrough(h, "test1", t, "value");
    assert h.Stored()["test1"]["value"] == None;
  }

  const Extras: Record := map["value" := Str("value"), "extra_val1" := Str("xvalue1"), "extra_val2" := Str("xvalue2")]

  /** The fixture of the wrapper tests: a base trait with a value and two
      extra properties, and its wrapper. */
  method WrapperFixture() returns (h: TraitHandler, t: Trait)
    ensures fresh(h) && h.Valid() && fresh(t.data) && t.Valid() && t.traitType == Base
    ensures "test1" in h.store && t.data == h.store["test1"]
    ensures t.data.fields == Extras[NameKey := Str("Test1")][TraitTypeKey := Str("trait")]
  {
    h := new TraitHandler();
    AddBase(h, "test1", "Test1", Extras);
    t := h.Get("test1");
  }

  /** `test_init`: the wrapper's record is the added one, extras included. */
  method TestInit() {
    var h, t := WrapperFixture();
    assert t.data.fields == map[NameKey := Str("Test1"), TraitTypeKey := Str("trait"), "value" := Str("value"),
                                "extra_val1" := Str("xvalue1"), "extra_val2" := Str("xvalue2")];
  }

  /** `test_trait_getset`: reads, writes and deletes through the wrapper, as
      attribute and as item alike. */
  method TestTraitGetset() {
    var h, t := WrapperFixture();
    assert t.Get("name") == Ok(Str("Test1"));
    assert t.Get("value") == Ok(Str("value"));
    assert t.Get("extra_val1") == Ok(Str("xvalue1"));
    assert t.Get("extra_val2") == Ok(Str("xvalue2"));
    var r := t.Set("value", Int(20));
    assert t.Get("value") == Ok(Int(20));
    r := t.Set("extra_val1", Int(100));
    assert t.Get("extra_val1") == Ok(Int(100));
    r := t.Set("foo", Str("bar"));
    assert t.Get("foo") == Ok(Str("bar"));
    r := t.Delete("foo");
    assert t.Get("foo") == Err(NoSuchProperty("foo"));
    r := t.Delete("extra_val1");
    assert t.Get("extra_val1") == Err(NoSuchProperty("extra_val1"));
    var fields := t.data.fields;
    r := t.Delete("extra_val1");
    assert r.Pass? && t.data.fields == fields;
    r := t.Delete("value");
    assert t.Get("value") == Ok(SchemaOf(Base).dataKeys["value"].defaultValue);
  }

  /** The record a numeric trait starts with. */
  lemma NewNumericRecord(name: string)
    ensures NewRecord(name, "numeric", map[])
      == Ok(map[NameKey := Str(name), TraitTypeKey := Str("numeric"), "base" := Int(0)])
  {
    ParseTypeName(Numeric);
    var r := NewRecord(name, "numeric", map[]);
    var expected := map[NameKey := Str(name), TraitTypeKey := Str("numeric"), "base" := Int(0)];
    assert r.value.Keys == RequiredKeys + {"base"};
    assert expected.Keys == RequiredKeys + {"base"};
    assert r.value == expected;
  }

  /** The record a static trait starts with. */
  lemma NewStaticRecord(name: string)
    ensures NewRecord(name, "static", map[])
      == Ok(map[NameKey := Str(name), TraitTypeKey := Str("static"), "base" := Int(0), "mod" := Int(0)])
  {
    ParseTypeName(Static);
    var r := NewRecord(name, "static", map[]);
    var expected := map[NameKey := Str(name), TraitTypeKey := Str("static"), "base" := Int(0), "mod" := Int(0)];
    assert r.value.Keys == RequiredKeys + {"base", "mod"};
    assert expected.Keys == RequiredKeys + {"base", "mod"};
    assert r.value == expected;
  }

  /** The record a counter or a gauge starts with. */
  lemma NewCounterGaugeRecord(t: TraitType, name: string)
    requires t == Counter || t == Gauge
    ensures NewRecord(name, TypeName(t), map[])
      == Ok(map[NameKey := Str(name), TraitTypeKey := Str(TypeName(t)), "base" := Int(0), "mod" := Int(0),
                "current" := Int(0), "max_value" := None, "min_value" := None])
  {
    ParseTypeName(t);
    var r := NewRecord(name, TypeName(t), map[]);
    var expected := map[NameKey := Str(name), TraitTypeKey := Str(TypeName(t)), "base" := Int(0), "mod" := Int(0),
                        "current" := Int(0), "max_value" := None, "min_value" := None];
    assert SchemaOf(t).dataKeys == CounterGaugeKeys();
    assert r.value.Keys == RequiredKeys + CounterGaugeKeys().Keys;
    assert expected.Keys == RequiredKeys + CounterGaugeKeys().Keys;
    forall k | k in expected ensures r.value[k] == expected[k] {
      if k != NameKey && k != TraitTypeKey {
        assert k in CounterGaugeKeys();
      }
    }
    assert r.value == expected;
  }

  /** `test_trait__numeric`. */
  method TestTraitNumeric() {
    var h := new TraitHandler();
    NewNumericRecord("Test2");
    var r := h.Add("test2", "Test2", "numeric", map[]);
    assert h.store["test2"].fields == map[NameKey := Str("Test2"), TraitTypeKey := Str("numeric"), "base" := Int(0)];
  }

  /** `test_trait__static`. */
  method TestTraitStatic() {
    var h := new TraitHandler();
    NewStaticRecord("Test3");
    var r := h.Add("test3", "Test3", "static", map[]);
    assert h.store["test3"].fields
      == map[NameKey := Str("Test3"), TraitTypeKey := Str("static"), "base" := Int(0), "mod" := Int(0)];
  }

  /** `test_trait__counter`. */
  method TestTraitCounter() {
    var h := new TraitHandler();
    NewCounterGaugeRecord(Counter, "Test4");
    var r := h.Add("test4", "Test4", "counter", map[]);
    assert h.store["test4"].fields
      == map[NameKey := Str("Test4"), TraitTypeKey := Str("counter"), "base" := Int(0), "mod" := Int(0),
             "current" := Int(0), "max_value" := None, "min_value" := None];
  }

  /** `test_trait__gauge`. */
  method TestTraitGauge() {
    var h := new TraitHandler();
    NewCounterGaugeRecord(Gauge, "Test5");
    var r := h.Add("test5", "Test5", "gauge", map[]);
    assert h.store["test5"].fields
      == map[NameKey := Str("Test5"), TraitTypeKey := Str("gauge"), "base" := Int(0), "mod" := Int(0),
             "current" := Int(0), "max_value" := None, "min_value" := None];
  }

  /** `test_validate_input__valid`: a complete record with an extra property
      comes back unchanged. */
  lemma TestValidateInputComplete()
    ensures var dat := map[NameKey := Str("Test"), TraitTypeKey := Str("trait"), "value" := Int(10), "extra_val" := Int(1000)];
            ValidateInput(SchemaOf(Base), dat) == Ok(dat)
  {
    var dat := map[NameKey := Str("Test"), TraitTypeKey := Str("trait"), "value" := Int(10), "extra_val" := Int(1000)];
    ValidateInputComplete(SchemaOf(Base), dat);
  }

  /** `test_validate_input__valid`: a missing `value` gets its default. */
  lemma TestValidateInputDefault()
    ensures var dat := map[NameKey := Str("Test"), TraitTypeKey := Str("trait"), "extra_val" := Int(1000)];
            ValidateInput(SchemaOf(Base), dat) == Ok(dat["value" := None])
  {
    var dat := map[NameKey := Str("Test"), TraitTypeKey := Str("trait"), "extra_val" := Int(1000)];
    var r := ValidateInput(SchemaOf(Base), dat);
    assert r.value.Keys == dat.Keys + {"value"};
    assert r.value == dat["value" := None];
  }

  /** `test_validate_input__valid`: with extra properties switched off, the
      extras are dropped. */
  lemma TestValidateInputNoExtras()
    ensures var dat := map[NameKey := Str("Test"), TraitTypeKey := Str("trait"), "value" := Int(10),
                           "extra_val1" := Int(1000), "extra_val2" := Str("xvalue")];
            ValidateInput(Schema(SchemaOf(Base).dataKeys, false), dat)
            == Ok(map[NameKey := Str("Test"), TraitTypeKey := Str("trait"), "value" := Int(10)])
  {
    var dat := map[NameKey := Str("Test"), TraitTypeKey := Str("trait"), "value" := Int(10),
                   "extra_val1" := Int(1000), "extra_val2" := Str("xvalue")];
    var expected := map[NameKey := Str("Test"), TraitTypeKey := Str("trait"), "value" := Int(10)];
    var r := ValidateInput(Schema(SchemaOf(Base).dataKeys, false), dat);
    assert r.value.Keys == expected.Keys;
    assert r.value == expected;
  }

  /** `test_validate_input__fail`: a record without `name` is refused. */
  lemma TestValidateInputNoName()
    ensures var dat := map[TraitTypeKey := Str("trait"), "value" := Int(10), "extra_val" := Int(1000)];
            ValidateInput(SchemaOf(Base), dat) == Err(MissingKeys({NameKey}))
  {
    var dat := map[TraitTypeKey := Str("trait"), "value" := Int(10), "extra_val" := Int(1000)];
    assert NameKey !in dat;
    assert RequiredKeys - dat.Keys == {NameKey};
  }

  /** `test_validate_input__fail`: with `value` mandatory, a record without it
      is refused. */
  lemma TestValidateInputMandatory()
    ensures var dat := map[NameKey := Str("Trait"), TraitTypeKey := Str("trait"), "extra_val" := Int(1000)];
            ValidateInput(Schema(map["value" := Mandatory], true), dat) == Err(MissingKeys({"value"}))
  {
    var dat := map[NameKey := Str("Trait"), TraitTypeKey := Str("trait"), "extra_val" := Int(1000)];
    var r := ValidateInput(Schema(map["value" := Mandatory], true), dat);
    assert "value" !in dat;
    assert r.Err?;
    assert r.error.keys == {"value"};
  }
}
