/** Trait records, the fixed table of trait types with their field schemas,
    and the validation that turns a candidate record into a stored one
    (`Trait.validate_input`). Everything here is pure. */
module TraitSchema {

  /** A field value. The stored values are arbitrary host objects; only `None`,
      integers and strings need to be told apart by the schemas and the handler,
      every other object is an opaque token. */
  datatype Value = None | Int(i: int) | Str(s: string) | Opaque(id: nat)

  /** A trait record: field name to value, as stored under one trait key. */
  type Record = map<string, Value>

  /** The failures the trait subsystem reports. All but `NoSuchProperty` are
      raised as `TraitException`; `NoSuchProperty` is the not-found condition
      (`AttributeError` for attribute access, `KeyError` for item access). */
  datatype Error =
    | MissingKeys(keys: set<string>)
    | UnknownTraitType(typeName: string)
    | NotSettable
    | TraitNotFound(key: string)
    | ExtraNotAllowed(field: string)
    | ReadOnlyField(field: string)
    | NoSuchProperty(field: string)

  predicate IsTraitException(e: Error) {
    !e.NoSuchProperty?
  }

  datatype Result<T> = Ok(value: T) | Err(error: Error)

  datatype Outcome = Pass | Fail(error: Error)

  /** The two fields every trait record must carry, whatever its type. */
  const NameKey: string := "name"
  const TraitTypeKey: string := "trait_type"
  const RequiredKeys: set<string> := {NameKey, TraitTypeKey}

  /** The trait types: `Trait`, `NumericTrait`, `StaticTrait`, `CounterTrait`,
      `GaugeTrait`, each known by the name stored in its `trait_type` field. */
  datatype TraitType = Base | Numeric | Static | Counter | Gauge

  function TypeName(t: TraitType): string {
    match t
    case Base => "trait"
    case Numeric => "numeric"
    case Static => "static"
    case Counter => "counter"
    case Gauge => "gauge"
  }

  /** Look up the trait class for a `trait_type` name. */
  function ParseTraitType(s: string): (r: Result<TraitType>)
    ensures r.Ok? ==> TypeName(r.value) == s
    ensures r.Err? ==> r.error == UnknownTraitType(s) && forall t :: TypeName(t) != s
  {
    if s == "trait" then Ok(Base)
    else if s == "numeric" then Ok(Numeric)
    else if s == "static" then Ok(Static)
    else if s == "counter" then Ok(Counter)
    else if s == "gauge" then Ok(Gauge)
    else Err(UnknownTraitType(s))
  }

  lemma ParseTypeName(t: TraitType)
    ensures ParseTraitType(TypeName(t)) == Ok(t)
  {
  }

  /** A declared data key either must be supplied (`MandatoryTraitKey`) or has
      a default that validation fills in. */
  datatype DataKey = Mandatory | Optional(defaultValue: Value)

  /** A trait class's schema: its `data_keys` and its `allow_extra_properties` flag. */
  datatype Schema = Schema(dataKeys: map<string, DataKey>, allowExtraProperties: bool)

  /** The type table. `name` and `trait_type` are not data keys; they are
      required of every type. */
  function SchemaOf(t: TraitType): (s: Schema)
    ensures NameKey !in s.dataKeys && TraitTypeKey !in s.dataKeys
    ensures forall k :: k in s.dataKeys ==> s.dataKeys[k].Optional?
  {
    match t
    case Base => Schema(map["value" := Optional(None)], true)
    case Numeric => Schema(map["base" := Optional(Int(0))], true)
    case Static => Schema(map["base" := Optional(Int(0)), "mod" := Optional(Int(0))], true)
    case Counter => Schema(CounterGaugeKeys(), true)
    case Gauge => Schema(CounterGaugeKeys(), true)
  }

  function CounterGaugeKeys(): map<string, DataKey> {
    map["base" := Optional(Int(0)), "mod" := Optional(Int(0)), "current" := Optional(Int(0)),
        "max_value" := Optional(None), "min_value" := Optional(None)]
  }

  /** A field the schema keeps in a validated record: a required field or a
      declared data key. Any other field is an extra property. */
  predicate Declared(schema: Schema, k: string) {
    k in RequiredKeys || k in schema.dataKeys
  }

  /** The declared data keys that are mandatory and absent from `data`. */
  predicate MissesMandatory(schema: Schema, data: Record) {
    exists k :: k in schema.dataKeys && k !in data && schema.dataKeys[k].Mandatory?
  }

  /** `validate_input`: fail naming the missing required fields, else fail
      naming the missing mandatory data keys, else fill every missing data key
      with its default and, when the schema allows no extra properties, drop
      every field that is not declared. */
  function ValidateInput(schema: Schema, data: Record): (r: Result<Record>)
    ensures r.Err? <==> !(NameKey in data && TraitTypeKey in data) || MissesMandatory(schema, data)
    ensures r.Err? ==> r.error.MissingKeys? && r.error.keys != {}
    ensures r.Err? ==> forall k :: k in r.error.keys ==> k !in data && (k in RequiredKeys || (k in schema.dataKeys && schema.dataKeys[k].Mandatory?))
    ensures r.Err? && !(NameKey in data && TraitTypeKey in data) ==> r.error.keys == RequiredKeys - data.Keys
    ensures r.Ok? ==> forall k :: k in r.value <==> k in schema.dataKeys || (k in data && (schema.allowExtraProperties || k in RequiredKeys))
    ensures r.Ok? ==> forall k :: k in r.value && k in data ==> r.value[k] == data[k]
    ensures r.Ok? ==> forall k :: k in r.value && k !in data ==> schema.dataKeys[k] == Optional(r.value[k])
  {
    var missing := set k | k in RequiredKeys && k !in data;
    if !(NameKey in data && TraitTypeKey in data) then
      assert NameKey in missing || TraitTypeKey in missing;
      Err(MissingKeys(missing))
    else if MissesMandatory(schema, data) then
      var k0 :| k0 in schema.dataKeys && k0 !in data && schema.dataKeys[k0].Mandatory?;
      var mandatory := set k | k in schema.dataKeys && k !in data && schema.dataKeys[k].Mandatory?;
      assert k0 in mandatory;
      Err(MissingKeys(mandatory))
    else
      var filled := map k | k in data.Keys + schema.dataKeys.Keys ::
        if k in data then data[k] else schema.dataKeys[k].defaultValue;
      if schema.allowExtraProperties then Ok(filled)
      else Ok(map k | k in filled && Declared(schema, k) :: filled[k])
  }

  /** What validation guarantees of a stored record of type `t`, and what the
      trait wrapper keeps true: both required fields are present, the
      `trait_type` field names `t`, every data key is present, and no extra
      property is present when the type allows none. */
  predicate WellFormed(fields: Record, t: TraitType) {
    && NameKey in fields
    && TraitTypeKey in fields
    && fields[TraitTypeKey] == Str(TypeName(t))
    && (forall k :: k in SchemaOf(t).dataKeys ==> k in fields)
    && (!SchemaOf(t).allowExtraProperties ==> forall k :: k in fields ==> Declared(SchemaOf(t), k))
  }

  /** All fields supplied and extras allowed: the result equals the input,
      extras included. */
  lemma ValidateInputComplete(schema: Schema, data: Record)
    requires NameKey in data && TraitTypeKey in data
    requires forall k :: k in schema.dataKeys ==> k in data
    requires schema.allowExtraProperties
    ensures ValidateInput(schema, data) == Ok(data)
  {
    var r := ValidateInput(schema, data);
    assert r.Ok?;
    assert r.value.Keys == data.Keys;
    assert forall k :: k in r.value ==> r.value[k] == data[k];
    assert r.value == data;
  }

  /** Extras not allowed: the result holds every declared field of the input
      unchanged, the defaults of the missing data keys, and nothing else. */
  lemma ValidateInputStripsExtras(schema: Schema, data: Record)
    requires NameKey in data && TraitTypeKey in data
    requires !MissesMandatory(schema, data)
    requires !schema.allowExtraProperties
    ensures ValidateInput(schema, data).Ok?
    ensures forall k :: k in ValidateInput(schema, data).value <==> Declared(schema, k) && (k in data || k in schema.dataKeys)
  {
  }

  /** A validated record is validated again to itself. */
  lemma ValidateInputIdempotent(schema: Schema, data: Record)
    requires ValidateInput(schema, data).Ok?
    ensures ValidateInput(schema, ValidateInput(schema, data).value) == ValidateInput(schema, data)
  {
    var rec := ValidateInput(schema, data).value;
    assert !MissesMandatory(schema, rec);
    var again := ValidateInput(schema, rec);
    assert again.Ok?;
    assert again.value.Keys == rec.Keys;
    assert forall k :: k in rec ==> again.value[k] == rec[k];
    assert again.value == rec;
  }

  /** A record validated against its own type's schema is well formed. */
  lemma ValidatedIsWellFormed(t: TraitType, data: Record)
    requires TraitTypeKey in data && data[TraitTypeKey] == Str(TypeName(t))
    requires ValidateInput(SchemaOf(t), data).Ok?
    ensures WellFormed(ValidateInput(SchemaOf(t), data).value, t)
  {
  }

  /** No trait type in the table declares a mandatory data key, so a record
      carrying `name` and `trait_type` always validates. */
  lemma TableValidatesNamedRecords(t: TraitType, data: Record)
    requires NameKey in data && TraitTypeKey in data
    ensures ValidateInput(SchemaOf(t), data).Ok?
  {
  }

  /** The record `add(key, name=n, trait_type=...)` stores when nothing else is
      supplied: the name, the type and every default of the type. */
  lemma DefaultsOfNamedRecord(t: TraitType, n: string)
    ensures var data := map[NameKey := Str(n), TraitTypeKey := Str(TypeName(t))];
            ValidateInput(SchemaOf(t), data)
            == Ok(data + map k | k in SchemaOf(t).dataKeys :: SchemaOf(t).dataKeys[k].defaultValue)
  {
    var data := map[NameKey := Str(n), TraitTypeKey := Str(TypeName(t))];
    var r := ValidateInput(SchemaOf(t), data);
    var expected := data + map k | k in SchemaOf(t).dataKeys :: SchemaOf(t).dataKeys[k].defaultValue;
    assert r.Ok?;
    assert r.value.Keys == expected.Keys;
    assert forall k :: k in expected ==> r.value[k] == expected[k];
    assert r.value == expected;
  }

  /** The `trait_type` field of a record well formed for `t` looks up `t`:
      the handler finds the right trait class for a stored record. */
  lemma WellFormedTypeParses(fields: Record, t: TraitType)
    requires WellFormed(fields, t)
    ensures fields[TraitTypeKey].Str? && ParseTraitType(fields[TraitTypeKey].s) == Ok(t)
  {
    ParseTypeName(t);
  }

  /** The record `add(key, name=..., trait_type=..., **properties)` stores:
      the named trait class is looked up (an unknown name fails), then `name`
      and `trait_type` are set on the properties and the whole is validated
      against the class's schema. */
  function NewRecord(name: string, traitType: string, properties: Record): (r: Result<Record>)
    ensures ParseTraitType(traitType).Err? <==> r == Err(UnknownTraitType(traitType))
    ensures ParseTraitType(traitType).Ok? <==> r.Ok?
    ensures r.Ok? ==> ParseTraitType(traitType).Ok? && WellFormed(r.value, ParseTraitType(traitType).value)
    ensures r.Ok? ==> r.value[NameKey] == Str(name)
    ensures r.Ok? ==> forall k :: k in r.value <==>
      Declared(SchemaOf(ParseTraitType(traitType).value), k) || (k in properties && SchemaOf(ParseTraitType(traitType).value).allowExtraProperties)
    ensures r.Ok? ==> forall k :: k in properties && !Declared(SchemaOf(ParseTraitType(traitType).value), k) ==> k in r.value && r.value[k] == properties[k]
    ensures r.Ok? ==> forall k :: k in SchemaOf(ParseTraitType(traitType).value).dataKeys ==>
      r.value[k] == if k in properties then properties[k] else SchemaOf(ParseTraitType(traitType).value).dataKeys[k].defaultValue
  {
    match ParseTraitType(traitType)
    case Err(e) => Err(e)
    case Ok(t) =>
      var input := properties[NameKey := Str(name)][TraitTypeKey := Str(traitType)];
      TableValidatesNamedRecords(t, input);
      ValidatedIsWellFormed(t, input);
      ValidateInput(SchemaOf(t), input)
  }
}
