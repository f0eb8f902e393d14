# Evennia traits: handler, wrapper and record validation

A model of the trait subsystem of Evennia's `traits` contrib, as its test suite
`evennia/contrib/test_traits.py` pins it down. An object carries a
`TraitHandler`. The handler manages one stored attribute, `traits` in category
`traits`. That attribute maps each trait key to a trait record, which is a
dictionary from field name to value.

The handler offers `add`, `get` (also reached by attribute and item access),
`remove`, `clear`, `all` and `len`, and refuses assignment on itself. It keeps
a lazily filled `_cache` of trait wrappers. A wrapper shares its record
dictionary with the stored attribute, so a field read, write or delete through
the wrapper acts on the stored record directly. New records pass through
`Trait.validate_input`, which works from a fixed table of five trait types:
`trait`, `numeric`, `static`, `counter` and `gauge`. Each type has its data
keys, their defaults and an `allow_extra_properties` flag.

The source of `evennia/contrib/traits.py` itself is not among the files this
model was built from. Its behaviour, which is what the model captures, is
rebuilt from the active tests (lines 18-364 of the test file), and each row
below cites the tests that fix it.

Modules:

- `TraitSchema` (`trait_schema.dfy`) is pure. It holds:
  - values, records and errors;
  - the type table `SchemaOf`;
  - `ValidateInput`, the model of `validate_input`;
  - `NewRecord`, the record that `add` builds and validates.
- `KeyOrder` (`key_order.dfy`) covers the insertion order of the stored keys: what `all` lists and how `remove` closes the gap.
- `Traits` (`traits.dfy`) is imperative:
  - `TraitData` is the shared mutable record. Its ghost `kind` is the trait type it was validated for.
  - `Trait` is the wrapper.
  - `TraitHandler` holds the stored map (`store`), the key order (`keys`) and the wrapper cache (`cache`).
  - `TraitHandler.Valid` is the handler invariant. The key list holds each stored key exactly once. Distinct keys never share a record. Every record is well formed for its type. Every cached wrapper wraps the record stored under its key.
  - `Stored()` is the abstract value: what the `traits` attribute holds.
- `TraitTests` (`trait_tests.dfy`) replays the test suite on the model. Each handler and wrapper test is a method that builds its fixture and asserts what the test asserts. Each `validate_input` test is a lemma about `ValidateInput`. `test_repr` is left out. "Scenarios" below lists them.

Two points of behaviour worth knowing:

- **Deleting a declared data key writes its default back.** `test_traits.py:161-166` reads `None` from the stored record after `del trait.value`, so `Trait.Delete` resets the field rather than removing it.
- **`validate_input` fills in and returns its own argument** (the comment at `test_traits.py:207`). `ValidateInput` returns a new record.

## Model

| member | source | states |
|---|---|---|
| `TraitSchema.ParseTraitType` | evennia/contrib/test_traits.py:35-41 | The type lookup by `trait_type` name succeeds exactly for the five known names; the found type's name is the input, and an unknown name is refused with `UnknownTraitType` |
| `TraitSchema.ParseTypeName` | evennia/contrib/test_traits.py:35-41 | Looking up a type's own name gives that type back |
| `TraitSchema.SchemaOf` | evennia/contrib/test_traits.py:298-364 | The type table never declares `name` or `trait_type` as data keys, and every data key it declares has a default |
| `TraitSchema.ValidateInput` | evennia/contrib/test_traits.py:198-258 | Fails exactly when `name` or `trait_type` is missing or a mandatory data key is missing. The error names only missing required or mandatory keys, and names all the missing required ones. On success the result declares every data key and keeps an input field exactly when it is declared or extras are allowed. Input values are kept, and every filled-in field holds its schema default |
| `TraitSchema.ValidateInputComplete` | evennia/contrib/test_traits.py:198-208 | A record supplying every field, with extras allowed, validates to itself, extras included |
| `TraitSchema.ValidateInputStripsExtras` | evennia/contrib/test_traits.py:221-233 | With extras not allowed, a record with both required fields validates to exactly its declared fields plus the missing data keys |
| `TraitSchema.ValidateInputIdempotent` | evennia/contrib/test_traits.py:198-233 | Validating a validated record again gives the same record |
| `TraitSchema.ValidatedIsWellFormed` | evennia/contrib/test_traits.py:72-87 | A record validated against its own type's schema is well formed for that type |
| `TraitSchema.TableValidatesNamedRecords` | evennia/contrib/test_traits.py:298-364 | No type in the table has a mandatory key, so any record with `name` and `trait_type` validates |
| `TraitSchema.DefaultsOfNamedRecord` | evennia/contrib/test_traits.py:298-364 | A record with only `name` and `trait_type` validates to those two fields plus every data key of the type at its default |
| `TraitSchema.WellFormedTypeParses` | evennia/contrib/test_traits.py:93-99 | The `trait_type` field of a well-formed record names its type, so the handler finds the right wrapper class for it |
| `TraitSchema.NewRecord` | evennia/contrib/test_traits.py:58-70 | The record `add` builds. It fails with `UnknownTraitType` exactly when the type name is unknown. Otherwise it is well formed for that type and carries the given name. It holds exactly the declared fields and, when extras are allowed, the extra properties. Extras keep their values, and each data key holds the given value or its default |
| `KeyOrder.Without` | evennia/contrib/test_traits.py:133-140 | Removing a key from the order leaves exactly the other keys |
| `KeyOrder.WithoutAt` | evennia/contrib/test_traits.py:133-140 | In an order without repeats, removing the key at position `i` closes the gap and keeps the other keys in order |
| `KeyOrder.WithoutKeepsDistinct` | evennia/contrib/test_traits.py:133-140 | Removing a key keeps the order free of repeats and shortens it by one exactly when the key was present |
| `KeyOrder.DistinctCardinality` | evennia/contrib/test_traits.py:129-131 | An order without repeats lists as many keys as it has positions |
| `Traits.TraitData.constructor` | evennia/contrib/test_traits.py:30-32 | A new stored record holds the given fields |
| `Traits.Trait.constructor` | evennia/contrib/test_traits.py:93-99 | A new wrapper shares the given record and is valid for its type |
| `Traits.Trait.Get` | evennia/contrib/test_traits.py:260-286 | Reading a field gives the stored value exactly when the record holds the field. Otherwise it gives the not-found condition, which is not a `TraitException`. The required fields and data keys of a valid wrapper are always found |
| `Traits.Trait.Set` | evennia/contrib/test_traits.py:260-282 | Writing a field succeeds exactly when it is not `trait_type` and is declared or extras are allowed. It then updates that one field in the shared record. A refusal changes nothing and is a `TraitException`. The wrapper stays valid |
| `Traits.Trait.Delete` | evennia/contrib/test_traits.py:279-289 | `name` and `trait_type` cannot be deleted. A data key is reset to its default. A present extra property is removed. Deleting a field the record does not hold changes nothing and succeeds. The wrapper stays valid |
| `Traits.TraitHandler.Stored` | evennia/contrib/test_traits.py:26-32 | The abstract stored map has exactly the handler's keys |
| `Traits.TraitHandler.constructor` | evennia/contrib/test_traits.py:46-50 | A handler on an object with no traits yet starts with an empty store, no keys and an empty cache |
| `Traits.TraitHandler.Len` | evennia/contrib/test_traits.py:87 | `len` is the number of stored traits and the number of keys `all` lists |
| `Traits.TraitHandler.All` | evennia/contrib/test_traits.py:129-131 | `all` lists every stored key exactly once |
| `Traits.TraitHandler.Get` | evennia/contrib/test_traits.py:89-127 | `get` returns a wrapper exactly when a trait is stored under the key. The wrapper shares the stored record. A cached wrapper is returned as is. Otherwise a fresh wrapper is cached, and the cache gains exactly that entry. An absent key gives none and leaves the cache alone |
| `Traits.TraitHandler.Add` | evennia/contrib/test_traits.py:58-87 | `add` succeeds exactly when the record validates. It then stores the validated record, in a new cell, under the key and changes no other entry. A new key is appended to the order. A cached wrapper of the key is dropped. A failure changes nothing |
| `Traits.TraitHandler.Remove` | evennia/contrib/test_traits.py:133-140 | `remove` succeeds exactly when the key is stored. It then drops the record and the cached wrapper, and takes the key out of the order, which gets one shorter. An absent key raises `TraitNotFound`, a `TraitException`, and changes nothing |
| `Traits.TraitHandler.Clear` | evennia/contrib/test_traits.py:142-145 | `clear` empties the stored map, the key order and the cache |
| `Traits.TraitHandler.Assign` | evennia/contrib/test_traits.py:101-106 | Assignment on the handler always raises a `TraitException` (`NotSettable`) and can change nothing |
| `Traits.KeysMatchRemove` | evennia/contrib/test_traits.py:133-140 | Removing a stored key keeps the key order and the store in step, with one key fewer |
| `Traits.KeysMatchAdd` | evennia/contrib/test_traits.py:58-70 | Storing an unshared record keeps the key order and the store in step; a new key is appended |
| `Traits.WriteThrough` | evennia/contrib/test_traits.py:147-166 | When the only change since an earlier state is a write through a valid wrapper of a stored trait, the handler stays valid. The stored map then equals the earlier one with that trait's record replaced by the wrapper's record, and every other entry is unchanged |
| `TraitTests.NewBaseRecord` | evennia/contrib/test_traits.py:58-70 | A base trait is stored with its given properties, `value` defaulting to `None`, and the two required fields |
| `TraitTests.AddBase` | evennia/contrib/test_traits.py:58-70 | Adding a base trait under a new key stores exactly that record in a fresh cell, appends the key and keeps the other entries |
| `TraitTests.HandlerFixture` | evennia/contrib/test_traits.py:58-70 | The handler tests' fixture holds exactly the two records `test1` and `test2` in that order with an empty cache |
| `TraitTests.SetThrough` | evennia/contrib/test_traits.py:147-160 | Writing a data key through a handed-out wrapper replaces that field in the stored map |
| `TraitTests.DeleteThrough` | evennia/contrib/test_traits.py:161-166 | Deleting a data key through a handed-out wrapper puts its default into the stored map |
| `TraitTests.WrapperFixture` | evennia/contrib/test_traits.py:175-184 | The wrapper tests' fixture is a valid base-trait wrapper of the stored `test1` record with its value and two extras |
| `TraitTests.NewNumericRecord` | evennia/contrib/test_traits.py:298-310 | A new numeric trait is stored as `name`, `trait_type` and `base = 0` |
| `TraitTests.NewStaticRecord` | evennia/contrib/test_traits.py:315-328 | A new static trait is stored as `name`, `trait_type`, `base = 0` and `mod = 0` |
| `TraitTests.NewCounterGaugeRecord` | evennia/contrib/test_traits.py:330-364 | A new counter or gauge is stored as `name`, `trait_type`, `base = mod = current = 0` and `max_value = min_value = None` |
| `TraitTests.TestValidateInputComplete` | evennia/contrib/test_traits.py:200-208 | The complete record of the test, with an extra, validates to itself |
| `TraitTests.TestValidateInputDefault` | evennia/contrib/test_traits.py:210-219 | The test's record without `value` validates to itself plus `value = None` |
| `TraitTests.TestValidateInputNoExtras` | evennia/contrib/test_traits.py:221-233 | With extras switched off, the test's two extras are dropped |
| `TraitTests.TestValidateInputNoName` | evennia/contrib/test_traits.py:237-244 | The test's record without `name` is refused, naming `name` |
| `TraitTests.TestValidateInputMandatory` | evennia/contrib/test_traits.py:246-258 | With `value` made mandatory, the test's record without it is refused, naming `value` |

## Scenarios

Method bodies in `TraitTests` replay these tests with the model's operations
and assert what each test asserts:

- `TestAddTrait` replays `test_add_trait`.
- `TestCache` replays `test_cache`.
- `TestSetting` replays `test_setting`.
- `TestGetting` and `TestGettingUnknown` replay `test_getting`.
- `TestAll` replays `test_all`.
- `TestRemove` replays `test_remove`.
- `TestClear` replays `test_clear`.
- `TestTraitDbConnection` replays `test_trait_db_connection`.
- `TestInit` replays `test_init`.
- `TestTraitGetset` replays `test_trait_getset`.
- `TestTraitNumeric`, `TestTraitStatic`, `TestTraitCounter` and `TestTraitGauge` replay the four per-type tests.

A list- or dict-valued host object, such as the `value` of `test2`, appears as
an `Opaque` token.

## Left out

- These context files are not modelled: `evennia/server/portal/portal.py` (network service wiring and the event loop) and `evennia/web/webclient/static/webclient/js/plugins/dual_input.js` (browser UI glue).
- The commented-out tests (`test_traits.py:366-857`) are not modelled. They target an older interface: numeric operators, clamping, `percent`, `fill_gauge`, and `min`/`max` fields.
- The numeric, static, counter and gauge wrappers have no derived properties: no `actual`, no `value` computed as `base + mod`, no `percent`. Writing `current` (or any other field) is not clamped: `Trait.Set` stores the value as given.
- `repr` and `str` of a wrapper are not modelled, because the tests pin no output.
- Loading trait classes by dotted path (`_TRAIT_CLASS_PATHS`, `patch`) becomes the fixed table `SchemaOf`. The base `trait` type is in the table only because the tests patch `_TRAIT_CLASS_PATHS` to include it (`test_traits.py:34-45`). The tests that patch `data_keys` or `allow_extra_properties` are modelled by passing `ValidateInput` a different `Schema`.
- The host attribute store (`attributes.get`/`attributes.add` with their category check, `_MockObj`) becomes the handler's `store` field. Loading a handler on an object whose attribute is already populated is not modelled: every handler starts empty.
- `validate_input` returning, or filling in, its own argument is not modelled. `ValidateInput` is a function and returns a new record.
- Stored values are opaque. Nested lists and dicts, and any mutation of them from outside the record, are not modelled.
- The difference between `AttributeError` (attribute access) and `KeyError` (item access) is not modelled. Both are the single `NoSuchProperty` error. Attribute and item syntax map to the same operation on the handler and on the wrapper.
- Attribute names that collide with handler methods are not modelled.
- The following behaviour is not exercised by the tests, is chosen here, and is stated as a contract:
  - `trait_type` cannot be written;
  - `name` and `trait_type` cannot be deleted;
  - a write of an undeclared field is refused when the type allows no extras;
  - every type in the table allows extras;
  - `add` on an existing key replaces its record and drops its cached wrapper;
  - `add` with an unknown `trait_type` fails with `UnknownTraitType` and changes nothing;
  - deleting a field the record does not hold succeeds and changes nothing, as the commented-out `test_extra_props_del` (`test_traits.py:441-452`) expects of a second delete.
- `Traits.TraitHandler.Add` takes `name` and `trait_type` as given, as every test passes both. What `add` does when either is omitted is not modelled.
