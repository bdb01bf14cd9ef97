# AdapterTrait in Dafny

A model of `AdapterTrait`, the PHP trait in `src/AdapterTrait.php`. The trait
turns a raw associative array into an object. It copies values by a rename
table (`mapping`), runs optional per-property hooks named
`set<Studly>Attribute`, and unsets its own bookkeeping properties. It can also
wrap a list of records as a collection of such objects (`createCollection`)
and export the result (`toArray`).

Files:

- `wrappers.dfy`: `Option`.
- `php_array.dfy` (module `PhpArray`): PHP values, and PHP arrays as ordered association lists. It covers lookup with strict key comparison (Knapsack's `getOrDefault`), assignment, `array_merge`, `empty()`, and PHP's cast of numeric strings to int keys.
- `studly.dfy` (module `Studly`): `studly` as the three string stages the trait chains. It also proves a one-pass reading of the result.
- `mapping.dfy` (module `Mapping`): the rename table and the mapping loop of `create`.
- `hooks.dfy` (module `Hooks`): the declared properties and methods of the concrete class, case-insensitive method lookup, and the hook loop of `create`.
- `adapter.dfy` (module `TraitAdapter`): the class `Adapter`, which holds the instance state and implements the trait's methods. It also defines the custom data a collection item receives and the exported form.

The state of an instance is held in these fields:

- `originData` and `customData` stand for the private `arOriginData` and `arCustomData`. `None` means the property has been unset.
- `mappingList` stands for the dynamic `arMappingList`. It is `None` until `mapping` is called and again after the purge.
- `fields` holds the public and dynamic properties the adapter produces.
- `collection` stands for `arCollection`.

A concrete adapter class is an `AdapterType` value. It gives the declared public properties in declaration order (what reflection returns), their default values, and the class's methods. A hook is a function from origin data, custom data and current properties to new properties.

## Model

| member | source | states |
|---|---|---|
| `PhpArray.Get` | src/AdapterTrait.php:142 | a lookup finds a value exactly when the key is among the array's keys |
| `PhpArray.GetFindsFirst` | src/AdapterTrait.php:156 | lookup returns the value of the first entry whose key is strictly equal to the one asked for |
| `PhpArray.Set` | src/AdapterTrait.php:104-106 | assigning under a key makes that key read the new value, leaves every other key's value unchanged, keeps keys distinct, and either overwrites the entry in its own position, leaving every other entry where it was, or appends at the end |
| `PhpArray.ArrayMergeStringKey` | src/AdapterTrait.php:104-106 | for a string key, `array_merge` yields the second array's value when it has the key, otherwise the first array's |
| `PhpArray.ArrayMergeRenumbers` | src/AdapterTrait.php:104-106 | `array_merge` yields an array with distinct keys whose int keys are exactly 0..n-1, one per int-keyed entry of either argument |
| `PhpArray.ArrayKey` | src/AdapterTrait.php:67-69 | a string used as an array index becomes an int key exactly when it is a canonical decimal within the 64-bit int range; otherwise it stays the same string key |
| `PhpArray.ArrayKeyInjective` | src/AdapterTrait.php:67-69 | the numeric-string cast never sends two different source keys to the same array slot |
| `Studly.Studly` | src/AdapterTrait.php:225-231 | the result contains no '-', '_' or ' ' and is never longer than the input |
| `Studly.StudlyMeaning` | src/AdapterTrait.php:225-231 | `studly` equals the input with each character upper-cased when it starts the string or follows '-', '_' or whitespace, and with the separators dropped; every other character is kept in order |
| `Studly.HookName` | src/AdapterTrait.php:77 | the hook name is "set", then the studly form of the property name, then "Attribute" |
| `Hooks.FindMethod` | src/AdapterTrait.php:78-82 | a method is found exactly when some method's name equals the hook name ignoring ASCII case, and the one found is the first such |
| `Hooks.RunHooksInOrder` | src/AdapterTrait.php:76-83 | hooks run in declaration order: running them over a list of properties is running them over a prefix, then over the rest |
| `Hooks.RunHooksSkipsMissing` | src/AdapterTrait.php:78-80 | properties without a hook are skipped, with no error and no change |
| `Hooks.RunHooksOne` | src/AdapterTrait.php:76-83 | wherever a property with a hook stands in the declared list, the hook loop applies that hook exactly once, to the properties the earlier hooks left, and the later hooks continue from its result |
| `Hooks.RunHooksOnlyOne` | src/AdapterTrait.php:76-83 | when only one declared property has a hook, the hook loop's result is that hook applied once to the mapped properties |
| `Mapping.MappingKeys` | src/AdapterTrait.php:65-71 | the mapping loop adds exactly the table's destinations to the properties and removes none |
| `Mapping.MappingLastWriterWins` | src/AdapterTrait.php:65-71 | a destination holds the origin value at the source key of the last entry that writes it; the destination is the source key for an int-keyed entry and the entry's key otherwise |
| `Mapping.MappingLeavesOthers` | src/AdapterTrait.php:65-71 | a property no entry names keeps its value, or stays absent |
| `TraitAdapter.ChildCustomContents` | src/AdapterTrait.php:104-106 | item i's custom data is a valid array whose "item-index" is i unless the caller's custom data sets that key, in which case the caller's value wins; every other string key reads as in the caller's custom data |
| `TraitAdapter.ExportRows` | src/AdapterTrait.php:125 | each collection slot exports as its item's public properties, in order: its own properties plus `arMappingList` while the item holds a table. A null slot exports as null |
| `TraitAdapter.ItemReadsItsOwnEntry` | src/AdapterTrait.php:164-177 | inside collection item i, `getCustomByItemIndex(key)` returns entry i of the list the caller passed under key |
| `TraitAdapter.CollectionExportsEachRecord` | src/AdapterTrait.php:102-125 | after `createCollection`, `toArray` row i is null for an empty record and otherwise the properties `create` gave item i |
| `TraitAdapter.PositionalMappingExample` | src/AdapterTrait.php:65-67 | a table without keys, `['id', 'name']`, applied to `{id: 1, name: "a"}` gives properties `id = 1` and `name = "a"` |
| `TraitAdapter.TotalsExample` | src/AdapterTrait.php:164-177 | with `totals = [10, 20, 30]` and `item-index = 1`, `getCustomByItemIndex("totals")` returns 20 |
| `TraitAdapter.Adapter.Make` | src/AdapterTrait.php:22-25 | a new instance of the given type, with properties at their defaults, empty origin and custom data, no table and no collection |
| `TraitAdapter.Adapter.Mapping` | src/AdapterTrait.php:32-37 | stores the table and returns the same instance; nothing else changes |
| `TraitAdapter.Adapter.SetCustom` | src/AdapterTrait.php:44-49 | stores the custom data and returns the same instance; nothing else changes |
| `TraitAdapter.Adapter.UnsetAdapterProperty` | src/AdapterTrait.php:180-202 | the three bookkeeping properties are gone; on a collection wrapper every other property is gone too, leaving only the collection |
| `TraitAdapter.Adapter.Create` | src/AdapterTrait.php:56-89 | empty data returns null and changes nothing, even on a finalised instance. Otherwise it returns the same instance: the mapping loop ran over the stored table, then the hooks of the declared properties, then the bookkeeping was purged |
| `TraitAdapter.Adapter.MakeItem` | src/AdapterTrait.php:103-111 | item i is null exactly for an empty record; otherwise it is a fresh, finalised instance of the same type whose properties are those `create` gives it with item i's custom data and the wrapper's table |
| `TraitAdapter.Adapter.CreateCollection` | src/AdapterTrait.php:96-119 | an empty list returns null and changes nothing, even on a finalised wrapper. Otherwise it returns the same instance, holding only a collection with one slot per record, in order. Each slot is null for an empty record and otherwise a distinct fresh item built by `create` |
| `TraitAdapter.Adapter.ToArray` | src/AdapterTrait.php:122-129 | a collection wrapper exports its items in order with null items as null, each item that is not itself a wrapper exactly as its own export, that is, its public properties. Any other instance exports its public properties: its own properties plus, while the table is set, `arMappingList` holding the table; the private origin and custom data are never exported. The export is `[]` exactly when the collection is empty, or the properties are empty and no table is set |
| `TraitAdapter.Adapter.GetOrigin` | src/AdapterTrait.php:136-143 | an empty key (null, "" or "0") returns the whole origin data; otherwise the value under the key, or null when the key is absent |
| `TraitAdapter.Adapter.GetCustom` | src/AdapterTrait.php:150-157 | an empty key (null, "" or "0") returns the whole custom data; otherwise the value under the key, or null when the key is absent |
| `TraitAdapter.Adapter.GetCustomByItemIndex` | src/AdapterTrait.php:164-177 | returns null for an empty key or a non-int "item-index" (0 counts as an int). Any non-null result is the entry at that index in the array stored under the key. When that array has the index, the result is that entry |

## Left out

- Reflection and dynamic dispatch (`ReflectionClass::getProperties`, `method_exists`, `$this->$sMethod()`) are replaced by the `AdapterType` value. Hook bodies are subclass code and are not part of this model: a hook is any function from origin data, custom data and properties to properties, so it cannot change the bookkeeping or other objects.
- `ContainerHelper` is not part of this model. `ContainerHelper::make(static::class)` is taken to create a fresh default instance of the same type (`Adapter.Make`).
- Knapsack's `Collection` and `getOrDefault` are modelled as sequence and association-list operations.
- TraitAdapter.Adapter.ToArray: the JSON encode/decode round trip is not modelled. The export keeps property maps as they are, so JSON's conversions are not captured: float formatting, numeric-string keys, property order, nested objects, and failure on values JSON cannot encode. The `empty($data)` test before encoding changes nothing observable here, because an object is never empty.
- TraitAdapter.Adapter.Create: a mapping entry whose source key is missing from the data is excluded by a precondition. PHP would emit an undefined-index warning and assign null.
- TraitAdapter.Adapter.Create: calling `create` with non-empty data after the instance has been finalised is excluded by a precondition that the custom data is present. In PHP, `arOriginData` and `arCustomData` are typed properties (`private array`), so once unset the assignment in `create` recreates `arOriginData`, but reading `arCustomData` (in a hook, through `getCustom`) throws an `Error` for accessing a typed property before initialization. The model does not capture that error path.
- TraitAdapter.Adapter.CreateCollection: the table must have been set by `mapping` before a non-empty call. In the code, the undefined `arMappingList` reads as null and passing it to `mapping(array ...)` raises a `TypeError`, so an absent table does not default to an empty one here. In `create`, an absent table iterates as empty (`MappingOf`).
- TraitAdapter.Adapter.ToArray: an item of a collection that has itself been turned into a collection wrapper would export, in PHP, as its `arCollection` nested inside the row. `Exported` rows hold property maps and cannot nest, so for such an item the row gives its public properties (none, after its purge) rather than the nested list.
- TraitAdapter.Adapter.CreateCollection: a non-empty call on a finalised wrapper is excluded by a precondition that the custom data is present. In PHP, the closure's `getCustom()` reads the unset typed `arCustomData` and throws an `Error`; that error path is not modelled.
- TraitAdapter.Adapter.CreateCollection: the records are a list (keys 0..n-1). For other keys, PHP would pass the key itself as `item-index` and keep the keys in `arCollection`; that is not modelled.
- TraitAdapter.ChildCustomContents: the caller's `item-index` wins over the computed position, as `array_merge` makes it. The code's order is followed rather than the opposite precedence.
- Mapping values (source keys) are strings. A non-string value in the table is not modelled.
- A mapping destination or public property named like a bookkeeping property (`arMappingList`, `arOriginData`, `arCustomData`, `arCollection`) would alias that property in PHP. The model keeps them apart.
- Private and protected properties of the concrete class, and the name mangling of `(array)$this`, are not modelled.
- TraitAdapter.Adapter.GetCustomByItemIndex: a non-empty value under the key that is not an array gives null, which is what Knapsack's scan returns after PHP's `foreach` warning. The warning itself is not modelled.
- TraitAdapter.Adapter.GetOrigin: the accessors require the bookkeeping to be present, because they are only meaningful inside hooks. After the purge, the typed properties `arOriginData` and `arCustomData` are uninitialized, and reading them throws an `Error` in PHP. The same holds for `GetCustom` and `GetCustomByItemIndex`. The model does not capture that error path.
- PHP warnings and notices are not modelled.
