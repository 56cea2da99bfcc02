# ComponentStyle: compile-and-cache of component CSS

This project models `ComponentStyle`, the part of the styled-components engine
that turns a component's rule set into a class name and its CSS. One
`ComponentStyle` exists per styled component. Its job is:

- **Construction.** It stores the rule set and the component id, and sets
  `baseHash = hash(componentId)`. The component counts as static only in
  production mode and when `isStaticRules(rules)` holds. It registers the id
  with the master style sheet, which fixes the component's place in the CSS
  order.
- **`generateAndInjectStyles(ctx, styleSheet, stylis)`.** This returns the
  class name for the current execution context. It takes one of two paths.
  - *Static path*: the component is static and `stylis.hash` is empty. If the
    cached `staticRulesId` is still in the sheet, it is returned at once.
    Otherwise the name is `generateName(phash(baseHash, css.length) >>> 0)`,
    computed from the flattened rule set. The CSS is stringified and inserted
    if `(componentId, name)` is absent, and the name is cached.
  - *Dynamic path*: `produceDynamicCssRules` builds the CSS part by part and
    folds a hash over it. The name is `generateName(hash >>> 0)`. The CSS is
    inserted if absent. Then, for every registered realm, in insertion order,
    a block with selector `.realm .name` is inserted under `realm_name` if
    that key is absent.
- **`addRealmRuleSet(realm, rules)`.** This sets the realm's override rule set
  in the realm map.

The registry is a small `StyleSheet` class:

- `ids` is the registration order, and `registerId` is idempotent.
- `rules` maps `(componentId, name)` to CSS text.
- `hasNameForId` tests membership.
- `insertRules` updates the map.

## How it is modelled

- The helpers imported by `ComponentStyle` are values of type
  `ComponentStyleSpec.Env`. These are `hash`, `phash`, `generateName`,
  `flatten` and `isStaticRules`, plus the production-mode flag
  (`process.env.NODE_ENV === 'production'`). Their bodies are not part of this
  model; every property holds for any choice of them.
- `flatten` is called in two places. On one interpolation (line 54) it is
  the opaque `Env.flatten`. On the whole rule set (line 78) it is
  `FlattenRules`: the chunks of each part in order, a string part giving
  itself and an interpolation giving `Env.flatten` of it. So the static CSS
  is the dynamic CSS of the same rules (`FlattenRulesJoin`).
- The stringifier is `Stringifier(stringify, hash)`. `stylis.hash` is a
  string, and it is truthy when non-empty.
- A rule set is a `seq<Part>`, where `Part = Str(text) | Dyn(tag)`. A `Dyn`
  part is any interpolation; only `flatten` interprets it.
- JavaScript details are written out in module `Runtime`:
  - `x >>> 0` is reduction modulo 2^32, and `null >>> 0` is `0`.
  - `if (baseHash)` is an `Option<int>` test that treats `0` as falsy.
  - `str + i` renders `i` in decimal.
  - `join('')` concatenates.
- The realm `Map` is an insertion-ordered list with one entry per key
  (module `OrderedMap`). `set` replaces an entry in place or appends a new
  one. A `Realm` is a value `Realm(id, name)`, and two realms are the same key
  exactly when both `id` and `name` agree. When two realms share a name, the
  first one in map order fills the `name_…` key. The model states this
  exactly (`InjectRealmsText`).
- `ComponentStyleSpec.Generate` is the pure effect of one call. It gives the
  returned name, the registry afterwards and the fields afterwards.
  `ComponentStyle.GenerateAndInjectStyles` is proved equal to it.
  `ProduceDynamicCssRules` is proved equal to `DynamicCss` and `DynamicHash`
  through its loop invariants.
- Realm blocks are injected on the dynamic path only. The static branch
  returns at `ComponentStyle.js:89`, before the realm loop, and the realm
  part of `Generate`'s contract is stated for the dynamic path.
- String parts enter the dynamic hash only outside production
  (`ComponentStyle.js:52`); interpolations enter it in both modes when
  `baseHash` is truthy (`ProductionHashIgnoresLiterals`).

## Model

| member | source | states |
|---|---|---|
| `ComponentStyleModel.ComponentStyle.constructor` | packages/styled-components/src/models/ComponentStyle.js:30-40 | `staticRulesId` is `''` and the realm map is empty. `isStatic` holds exactly when in production and `isStaticRules(rules)`. `baseHash` is `hash(componentId)`. Afterwards the master sheet's id order contains the id: it is unchanged if the id was already there, otherwise the id is appended. Stored rules are untouched. |
| `StyleSheetModel.StyleSheet.RegisterId` | packages/styled-components/src/models/ComponentStyle.js:37-39 | Registering appends the id unless it is already present, and the order is then unchanged (idempotent). Ids stay distinct. |
| `StyleSheetModel.StyleSheet.InsertRules` | packages/styled-components/src/models/ComponentStyle.js:84 | The registry afterwards is the old one updated at `(id, name)` with the CSS, so `hasNameForId(id, name)` holds and reads back that CSS. |
| `ComponentStyleModel.ComponentStyle.ProduceDynamicCssRules` | packages/styled-components/src/models/ComponentStyle.js:42-62 | The CSS is the in-order concatenation of string parts and joined flattened interpolations (`DynamicCss`). The hash is `DynamicHash`: `null` exactly when `baseHash` is falsy, otherwise seeded with `phash(baseHash, stylis.hash)`. It folds `partString + i` for interpolations, and `part + i` for strings only outside production. |
| `ComponentStyleModel.ComponentStyle.GenerateAndInjectStyles` | packages/styled-components/src/models/ComponentStyle.js:69-115 | The returned name, the sheet's rules and the component's fields afterwards are those of `Generate` applied to the old state. The realm map keeps one entry per realm. |
| `ComponentStyleModel.ComponentStyle.InjectRealmBlocks` | packages/styled-components/src/models/ComponentStyle.js:101-111 | After the `forEach` over the realm map, the sheet's rules equal `InjectRealms` applied to the rules before the loop. |
| `ComponentStyleModel.ComponentStyle.AddRealmRuleSet` | packages/styled-components/src/models/ComponentStyle.js:117-123 | Afterwards `realm` maps to `rules` and every other realm's entry is unchanged. The map keeps one entry per realm. The other fields are unchanged. |
| `ComponentStyleSpec.Generate` | packages/styled-components/src/models/ComponentStyle.js:69-115 | Afterwards the sheet holds `(componentId, name)`, and on the dynamic path every realm key `realm_name`. Every earlier entry keeps its text. A new key is either the returned name or, on the dynamic path only, a realm key of that name. |
| `ComponentStyleSpec.GenerateStaticCached` | packages/styled-components/src/models/ComponentStyle.js:73-76 | Static path with a non-empty cached name still in the sheet: the call returns that name and changes neither the sheet nor any field. |
| `ComponentStyleSpec.GenerateStaticFresh` | packages/styled-components/src/models/ComponentStyle.js:78-89 | Otherwise on the static path the name is `generateName(phash(baseHash, len(css)) mod 2^32)` and `staticRulesId` becomes it. If the key was absent, exactly that key is added with `stylis(css, '.' + name, componentId)`; if present, the sheet is unchanged. |
| `ComponentStyleSpec.StaticNameByLength` | packages/styled-components/src/models/ComponentStyle.js:79 | The static name depends only on `baseHash` and the JavaScript length (UTF-16 code units) of the static CSS. |
| `ComponentStyleSpec.GeneratePluginForcesDynamic` | packages/styled-components/src/models/ComponentStyle.js:72-73 | With a non-empty `stylis.hash`, the name and the sheet are those of the dynamic path, whatever `isStatic` is. |
| `ComponentStyleSpec.GenerateDynamic` | packages/styled-components/src/models/ComponentStyle.js:90-99 | On the dynamic path no field changes and the name comes from the dynamic hash. A base key that was absent now holds `stylis(css, '.' + name, componentId)`. |
| `ComponentStyleSpec.FalsyBaseHashSharesName` | packages/styled-components/src/models/ComponentStyle.js:91-93 | A component id that hashes to 0 gets the dynamic hash `null` (the guard at line 44), so every context gets the same name `generateName(0)`. |
| `ComponentStyleSpec.GenerateRealmBlock` | packages/styled-components/src/models/ComponentStyle.js:101-110 | A realm key that was absent holds `stylis(realmCss, '.' + realm.name + ' .' + name, componentId)` for the first realm with that name, where `realmCss` is that realm's rule set flattened. |
| `ComponentStyleSpec.GenerateIdempotent` | packages/styled-components/src/models/ComponentStyle.js:74-109 | A second call with the same context on the resulting state returns the same name and changes neither the sheet nor the fields. |
| `ComponentStyleSpec.InsertIfAbsentKeeps` | packages/styled-components/src/models/ComponentStyle.js:104-108 | An entry already present keeps its text after any guarded insertion. |
| `ComponentStyleSpec.InjectRealms` | packages/styled-components/src/models/ComponentStyle.js:101-111 | The realm loop keeps every entry that was there before it, with the same text. |
| `ComponentStyleSpec.InjectRealmsStep` | packages/styled-components/src/models/ComponentStyle.js:102-109 | One turn of the loop for the realm at position `i` is the guarded insertion of that realm's block into the registry left by the earlier turns. |
| `ComponentStyleSpec.InjectRealmsContains` | packages/styled-components/src/models/ComponentStyle.js:101-111 | After the loop, every realm's `realm_name` key is present. |
| `ComponentStyleSpec.InjectRealmsAddsOnly` | packages/styled-components/src/models/ComponentStyle.js:101-111 | After the loop, every key was there before or is the `realm_name` key of some realm. |
| `ComponentStyleSpec.RealmKeyAbsent` | packages/styled-components/src/models/ComponentStyle.js:103-104 | A `realm_name` key that was absent, for a name no realm carries, is still absent after the loop. |
| `ComponentStyleSpec.InjectRealmsFirst` | packages/styled-components/src/models/ComponentStyle.js:103-108 | The turn for the first realm carrying a name inserts that realm's block under its key, if the key was absent. |
| `ComponentStyleSpec.InjectRealmsKeepsFrom` | packages/styled-components/src/models/ComponentStyle.js:102-110 | Later turns of the loop keep every entry an earlier turn left, with the same text. |
| `ComponentStyleSpec.InjectRealmsText` | packages/styled-components/src/models/ComponentStyle.js:103-108 | A realm key that was absent holds that realm's stringified CSS, taken from the first realm in loop order with that name. |
| `ComponentStyleSpec.InjectRealmsPresent` | packages/styled-components/src/models/ComponentStyle.js:104 | If every realm key is already present, the loop changes nothing. |
| `ComponentStyleSpec.RealmScopeNameDistinct` | packages/styled-components/src/models/ComponentStyle.js:103 | `realm_name` never equals `name`, and different realm names give different keys. |
| `ComponentStyleSpec.DynamicCssAppend` | packages/styled-components/src/models/ComponentStyle.js:47-58 | The CSS of `a + b` is the CSS of `a` followed by the CSS of `b` (in-order concatenation). |
| `ComponentStyleSpec.DynamicCssLiteral` | packages/styled-components/src/models/ComponentStyle.js:49-50 | A rule set of strings only gives the same CSS under every context and every `flatten`. |
| `ComponentStyleSpec.ProductionHashIgnoresLiterals` | packages/styled-components/src/models/ComponentStyle.js:52 | In production, rule sets that differ only in the text of string parts hash alike. |
| `ComponentStyleSpec.ProductionHashOfLiterals` | packages/styled-components/src/models/ComponentStyle.js:52 | In production, string parts leave the running hash at its seed. |
| `ComponentStyleSpec.AddRealm` | packages/styled-components/src/models/ComponentStyle.js:117-123 | After setting, `realm` maps to `rules`, other realms map as before, and no other field changes. |
| `OrderedMap.Set` | packages/styled-components/src/models/ComponentStyle.js:122 | `Map.set` keeps every key in its position and every other entry as it was. It adds exactly one entry, at the end, when the key is new. |
| `OrderedMap.GetSetSame` | packages/styled-components/src/models/ComponentStyle.js:122 | After `set(k, v)`, `get(k)` is `v`. |
| `OrderedMap.GetSetOther` | packages/styled-components/src/models/ComponentStyle.js:122 | After `set(k, v)`, `get(k')` for any other `k'` is unchanged. |
| `OrderedMap.SetDistinct` | packages/styled-components/src/models/ComponentStyle.js:119-122 | `set` keeps one entry per key. |
| `Runtime.ToUint32` | packages/styled-components/src/models/ComponentStyle.js:79 | `x >>> 0` lies in `[0, 2^32)`, is congruent to `x` modulo 2^32, and is `x` itself when `x` is already in range. |
| `Runtime.NullableToUint32` | packages/styled-components/src/models/ComponentStyle.js:93 | `null >>> 0` is 0; any value lies in `[0, 2^32)`. |
| `Runtime.NumberToString` | packages/styled-components/src/models/ComponentStyle.js:52-56 | The index in `part + i` is rendered as non-empty decimal digits with no leading zero. |
| `Runtime.ParseNumberToString` | packages/styled-components/src/models/ComponentStyle.js:52-56 | Reading the decimal text of an index gives back the index. |
| `Runtime.NumberToStringInjective` | packages/styled-components/src/models/ComponentStyle.js:52-56 | Different indices give different texts. |
| `Runtime.JoinAppend` | packages/styled-components/src/models/ComponentStyle.js:55 | `join('')` over two runs of chunks is the concatenation of the two joins. |
| `ComponentStyleSpec.StaticName` | packages/styled-components/src/models/ComponentStyle.js:79 | The static name is `generateName` of a value in `[0, 2^32)`. |
| `ComponentStyleSpec.DynamicName` | packages/styled-components/src/models/ComponentStyle.js:91-93 | The dynamic name is `generateName` of a value in `[0, 2^32)`, and `generateName(0)` when the component id hashes to 0. |
| `ComponentStyleSpec.FlattenRulesJoin` | packages/styled-components/src/models/ComponentStyle.js:78 | Flattening the whole rule set and joining gives the same CSS as the part-by-part loop of `produceDynamicCssRules`. |
| `ComponentStyleSpec.StaticNameOfLiterals` | packages/styled-components/src/models/ComponentStyle.js:78-79 | A static rule set of strings only gets the same static name under every context. |
| `ComponentStyleSpec.RealmScopeName` | packages/styled-components/src/models/ComponentStyle.js:103 | The realm key is the realm name, then `_`, then the base name. |
| `ComponentStyleSpec.RealmSelector` | packages/styled-components/src/models/ComponentStyle.js:106 | The realm selector is `.`, the realm name, ` .`, then the base name. |
| `Runtime.Join` | packages/styled-components/src/models/ComponentStyle.js:55 | `join('')` of no chunks is `''`, of one chunk is that chunk, and is never shorter than any chunk. |
| `Runtime.Utf16Length` | packages/styled-components/src/models/ComponentStyle.js:79 | A string's `length` lies between its count of characters and twice it, and equals that count when no character is above U+FFFF. |

## Left out

- The bodies of `flatten`, `hash`/`phash`, `generateAlphabeticName`,
  `isStaticRules` and the real `StyleSheet` are not modelled. The first four
  are arbitrary functions in `Env`; the sheet is the minimal registry class.
  So the model proves no concrete hash values, no name alphabet and no
  collision freedom.
- `flatten` is modelled as pure. The style sheet it receives, and any
  injection it does there (for example keyframes), are not modelled.
- `flatten` returning a plain string instead of an array is covered by a
  one-chunk sequence.
- The stylis stringifier is an opaque, deterministic function. Its
  exceptions, and its unused third argument (`undefined`), are not modelled.
- `process.env.NODE_ENV` is the boolean `Env.production`. It is read at
  construction and in `produceDynamicCssRules`, as in the code.
- The `if (!this.realmRules)` lazy creation of the realm map is replaced by
  an empty map from construction. Both behave the same in every call.
- JavaScript truthiness is modelled only where the code relies on it:
  `baseHash` (null or 0), `stylis.hash` (empty string) and `staticRulesId`
  (empty string). JavaScript numbers are unbounded integers here; the hash
  values are never rounded as doubles.
- `cssStatic.length` is `Utf16Length(css)`: a `char` is a Unicode scalar
  value, and one above U+FFFF counts as two UTF-16 code units, as in
  JavaScript. Lone surrogates, which a JavaScript string can hold, cannot
  occur in a Dafny string and are not modelled.
- `FlattenRules` assumes `flatten` on a rule set flattens each part in order
  and keeps a string part as it is; `flatten.js` is not part of this model.
  Empty chunks it skips join to the same text.
- JavaScript's `Map` compares realm objects by reference. A realm object
  renamed after `addRealmRuleSet` is one key there; here the renamed value is
  a second key. Renaming a realm in place is not modelled.
- `StyleSheet.registerId` acts on the master sheet, which the constructor
  receives as a parameter instead of reaching a global.
- The sandbox demo application is UI code with no engine logic.
