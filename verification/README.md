# jss core utilities and instance bookkeeping, in Dafny

This project models part of jss, a library that compiles nested JavaScript style objects into
CSS rules. It covers:

- the style-value utilities: the deep clone `cloneStyle`, the function-value extractor
  `getDynamicStyles`, and the fallback class-name escaper;
- the keyframe-step rule plugin: its creation hook and its `toString`;
- the bookkeeping of a `Jss` instance: construction, `setup`, `use`, the index of a new style
  sheet, and the deprecated `createRule`.

Style values are an inductive datatype (`StyleValues.Value`). It has five cases: primitive,
function, array, plain object and non-plain object. Each object and function carries a
reference, its identity. Operations that allocate objects take the next unused reference and
return the next unused one afterwards. This lets the contracts tell a fresh copy from a shared
reference. `Shape` forgets the identity of arrays and plain objects, so two values are deep-equal
copies exactly when their shapes are equal. Functions and non-plain objects keep their identity
under `Shape`.

A `Jss` instance is an immutable record: its options, its id generator, and the log of plugin
registrations, that is, the `plugins.use(plugin, {queue})` calls made so far. Each operation
returns the updated record. The internal and external registrations are read from that log.

Collaborators outside these files appear only through what is handed to them:

- `KeyframeRule.ToString` returns the request the serializer `toCss` receives.
- `Jss.CreateRule` takes the rule factory as a function parameter. It reports the rules that
  reach `onProcessRule`.

Modules: `Wrappers` (Option, JavaScript property presence), `StyleValues`, `CloneStyle`,
`DynamicStyles`, `Escape`, `JssTypes` (the option records), `KeyframeRule`, `Jss`, and the lemma
modules `CloneLemmas`, `DynamicStylesLemmas` and `JssLemmas`.

## Model

| member | source | states |
|---|---|---|
| CloneStyle.Clone | packages/jss/src/utils/cloneStyle.ts:5-21 | Falsy and non-object values come back unchanged, and so does a non-plain object (by reference). An array becomes a new array of the same length whose elements are clones. A plain object becomes a new object with the same keys in the same order and cloned values. The result is deep-equal to the input. Every array and plain object on the result's spine is freshly allocated, and no two of them are the same object. |
| CloneStyle.CloneItems | packages/jss/src/utils/cloneStyle.ts:7-11 | `style.map(cloneStyle)`: same length, each element deep-equal to the original, all copied containers fresh and distinct. |
| CloneStyle.CloneEntries | packages/jss/src/utils/cloneStyle.ts:14-20 | The property-copy loop keeps the key sequence exactly. Each value is deep-equal to the original, and every copied container is fresh and distinct. |
| CloneLemmas.CloneIdempotent | packages/jss/src/utils/cloneStyle.ts:5-21 | A clone of a clone is deep-equal to the first clone, and to the input. |
| CloneLemmas.CloneSharesNoSpine | packages/jss/src/utils/cloneStyle.ts:14-20 | Suppose every object of the input was allocated before the clone started. Then the clone shares no array or plain object with the input. |
| CloneLemmas.CloneKeepsUniqueKeys | packages/jss/src/utils/cloneStyle.ts:14-19 | A cloned plain object has duplicate-free keys exactly when the original does. |
| DynamicStyles.Kept | packages/jss/src/utils/getDynamicStyles.ts:9-23 | The loop keeps nothing exactly when no function is reachable through non-array objects. In that case it allocates nothing. Kept keys form a subsequence of the input keys. Every kept value is a function or a non-empty plain object with functions at its leaves. The kept objects are fresh and distinct. |
| DynamicStyles.GetDynamicStyles | packages/jss/src/utils/getDynamicStyles.ts:6-26 | The result is `null` exactly when no function is reachable through non-array objects. Nothing is allocated in that case. Otherwise the result is a fresh plain object whose keys are a subsequence of the input's keys and whose leaves are all functions. |
| DynamicStylesLemmas.ExtractedProperty | packages/jss/src/utils/getDynamicStyles.ts:9-21 | Key by key, for a well-formed object: a function is kept by reference under the same key. A non-null, non-array object is kept exactly when a function is reachable inside it, and then as its own extraction. Strings, numbers, booleans, null, undefined and arrays are dropped. A key the input lacks is absent from the result. |
| DynamicStylesLemmas.DynamicShapeIndependent | packages/jss/src/utils/getDynamicStyles.ts:16-21 | Whether a nested extraction is null, and what it holds, does not depend on where allocation starts. |
| DynamicStylesLemmas.ExtractNestedFunction | packages/jss/src/utils/getDynamicStyles.ts:6-26 | `{a: {color: fn}, b: 'red'}` extracts to `{a: {color: fn}}` with `fn` shared. |
| DynamicStylesLemmas.ExtractStaticIsNull | packages/jss/src/utils/getDynamicStyles.ts:7-25 | `{a: 'red'}` extracts to `null` and allocates nothing. |
| DynamicStylesLemmas.ExtractSkipsArrays | packages/jss/src/utils/getDynamicStyles.ts:16 | An array of functions is skipped as a whole, so the result is `null`. |
| Escape.EscapeChar | packages/jss/src/utils/escape.ts:1-5 | The replacement of one character is two characters long exactly when the character is in the pattern's class (the listed punctuation and JavaScript whitespace), and one otherwise. It always ends in the character itself, and a two-character replacement starts with a backslash. Unescaping the replacement gives back the character. |
| Escape.Escape | packages/jss/src/utils/escape.ts:5 | The output is as long as the input plus the number of special characters. |
| Escape.EscapePlain | packages/jss/src/utils/escape.ts:5 | A string without special characters comes back unchanged. |
| Escape.EscapeAppend | packages/jss/src/utils/escape.ts:1-5 | The global replace works character by character: escaping a concatenation is the concatenation of the escapes. |
| Escape.UnescapeEscape | packages/jss/src/utils/escape.ts:1-5 | Dropping each backslash that immediately precedes a special character recovers the input. |
| Escape.EscapeInjective | packages/jss/src/utils/escape.ts:1-5 | Two strings with the same escape are equal. |
| Escape.EscapeString | packages/jss/src/utils/escape.ts:5 | The single left-to-right replace pass produces exactly the per-character escape, which unescapes back to the input. |
| KeyframeRule.ForceAllowEmpty | packages/jss/src/plugins/keyframeRule.ts:14 | `{...options, allowEmpty: true}` sets `allowEmpty` and keeps `indent` and `children`. Spreading `undefined` yields no other option. |
| KeyframeRule.ToString | packages/jss/src/plugins/keyframeRule.ts:11-15 | The serializer gets the rule's own key, unscoped, as selector, together with the rule's style. In link mode `allowEmpty` is true whatever the caller passed, and `indent` and `children` are kept. Without a sheet, or with link off, the caller's options pass through as given. |
| KeyframeRule.OnCreateRule | packages/jss/src/plugins/keyframeRule.ts:20-25 | A rule is created exactly when the parent exists and is a container of type `keyframes`. It is built from exactly the given key, style and options. Otherwise the result is `null`. A style sheet parent has no `type`, so it never matches. |
| KeyframeRule.LinkModeIgnoresAllowEmpty | packages/jss/src/plugins/keyframeRule.ts:13-14 | In link mode, two calls that differ only in `allowEmpty` send the same request to the serializer. |
| KeyframeRule.ToStringStable | packages/jss/src/plugins/keyframeRule.ts:12-15 | Passing the serializer's options back in changes nothing. |
| KeyframeRule.CreatedRuleSerializesItsKey | packages/jss/src/plugins/keyframeRule.ts:11-22 | A rule created under a `keyframes` container serializes with its creation key and style. When its sheet is in link mode, `allowEmpty` is forced. |
| Jss.RegisterAll | packages/jss/src/Jss.ts:44-46 | Registering a list logs one `plugins.use` call per plugin, in list order, naming the given queue. The rest of the instance is unchanged. |
| Jss.Use | packages/jss/src/Jss.ts:155-161 | `use(...plugins)` calls `plugins.use` once per argument, in argument order, duplicates included, so the log of external registrations grows by exactly the arguments. The internal registrations and every option are unchanged. |
| Jss.Setup | packages/jss/src/Jss.ts:55-80 | The id options are merged, with the caller's keys winning. When `createGenerateId` or `id` is given, the factory is called again: the instance gets the result of a new factory call, numbered after every earlier one, made from the updated factory and id options. Otherwise the generator and the id options are kept. For an instance that owns its generator, the generator is the result of a new call exactly when one of those two keys is given. The insertion point is replaced only by a non-null value. The renderer is replaced whenever the key is present, even with `null` or `undefined`. `plugins.use` is called for each given plugin, in order. |
| Jss.New | packages/jss/src/Jss.ts:32-48 | The instance starts from id options `{minify: false}`, the default factory, a generator built from them, and the DOM renderer in a browser or `null` elsewhere; the given options then apply as `setup` applies them. So the id options are `{minify: false}` overlaid with the caller's, the renderer is the caller's whenever the key is present, the insertion point is the caller's non-null one or none, and the generator is the instance's own, built from the final factory and id options. The log of internal registrations is the built-in plugin list in array order, and the log of external registrations holds exactly the user plugins. Every built-in registration comes before every user registration. |
| Jss.SheetIndex | packages/jss/src/Jss.ts:89-92 | A numeric requested index is used as given. Otherwise the index is 0 while the registry index is 0, and one past the registry index when that is not 0, so never below the registry index. |
| Jss.CreateStyleSheetOptions | packages/jss/src/Jss.ts:89-101 | The new sheet gets the computed index and the instance identity. Its `generateId` is the caller's when given, else the instance's. It gets the instance's insertion point and renderer. The caller's `media`, `meta`, `link` and `classNamePrefix` pass through unchanged, and are absent when no options are given. |
| Jss.RuleOptionsFor | packages/jss/src/Jss.ts:134-143 | `name`, `jss` and `Renderer` are always overwritten. `generateId`, `classes` and `keyframes` are filled in only when absent. Every other caller option is kept. |
| Jss.CreateRule | packages/jss/src/Jss.ts:120-150 | With a first argument of type `object` (including `null`), the name is undefined and that argument is the style; a string or `undefined` first argument is the name. A style left out or passed as `undefined` becomes a new empty plain object; any other style is passed on as given. The factory receives the assembled options. `onProcessRule` sees the rule exactly when the factory returned one. |
| JssLemmas.SetupTwice | packages/jss/src/Jss.ts:50-80 | A second `setup` with the same options leaves every option unchanged. When `createGenerateId` or `id` is given, it replaces the generator by the result of another factory call, numbered after the first, with the same factory and id options; otherwise the generator is kept. It calls `plugins.use` again for each given plugin, so the log holds each of them one more time. |
| JssLemmas.SetupWithoutOptions | packages/jss/src/Jss.ts:55-80 | `setup()` and `setup({})` change nothing. |
| JssLemmas.SetupNullRendererButNotInsertionPoint | packages/jss/src/Jss.ts:71-74 | `Renderer: null` and `Renderer: undefined` replace the renderer. `insertionPoint: null` is ignored. |
| JssLemmas.UseComposes | packages/jss/src/Jss.ts:155-161 | Two `use` calls equal one call with both argument lists, in order. |
| JssLemmas.UseKeepsDuplicates | packages/jss/src/Jss.ts:155-161 | `use(p, p)` calls `plugins.use` once per argument, duplicates included, so the log holds two more registrations of `p`. |
| JssLemmas.CreateRuleShiftsArguments | packages/jss/src/Jss.ts:126-131 | When the first argument's `typeof` is `object`, `createRule(obj, opts)` is `createRule(undefined, obj, opts)`. |
| JssLemmas.CreateRuleUndefinedStyle | packages/jss/src/Jss.ts:122 | An explicit `undefined` style takes the default, exactly like a style left out: a new empty plain object. |
| JssLemmas.CreateRuleKeepsCallerOptions | packages/jss/src/Jss.ts:134-143 | The defaults never override the caller's `generateId`, `classes` or `keyframes`, and the caller's other options reach the factory unchanged. `name`, `jss` and `Renderer` come from the call and the instance. |

A new sheet without a numeric index gets index 0 whenever the registry's index is 0, even when
a sheet with index 0 is already registered, and one past the registry's index otherwise
(`Jss.SheetIndex`).

## Left out

- The native `CSS.escape` branch of the escaper is a browser API call. Only the regular-expression fallback is modelled.
- `toCss`, `StyleSheet`, the rule factory in utils/createRule.ts, `BaseStyleRule` and the sheets registry are not part of this model. They appear only as the arguments handed to them, or as parameters: the rule factory and the registry's current index.
- PluginsRegistry.ts is not part of this model. The model keeps the log of `plugins.use(plugin, {queue})` calls, not what the registry stores or the order in which it invokes hooks.
- `onProcessSheet` in `createStyleSheet`, the construction of the `StyleSheet`, and the `element` option are left out, because they are DOM and registry work.
- `removeStyleSheet` is left out, because it is DOM detachment plus registry I/O.
- The instance counter (`id`) and `version` are left out, because they are process-global values. The instance identity is a parameter of `Jss.New`.
- The detection `isInBrowser` is a parameter of `Jss.New`.
- `setup(null)` is left out. The types exclude it, and the code would throw on it.
- Jss.Setup: treats the results of two factory calls as different generators, and so does `JssLemmas.SetupTwice`. That holds for a factory that returns a new function on every call. A caller's factory that returns one fixed function (`() => myGenerateId`) makes the "new" generator the same function as the old one; the model does not represent that case. The default factory in utils/createGenerateId.ts is not part of this model.
- Strings are sequences of Unicode code points, not of UTF-16 code units. Lengths count code points, so `Escape.Escape`'s length claim counts an astral character once where JavaScript's `length` counts two. Lone surrogates are not modelled. Every character the escaper's pattern matches lies in the Basic Multilingual Plane, so the escapes agree on every string the model can represent.
- Numbers are integers. Floating point, `NaN` and `-0` are not modelled.
- The classes and keyframes maps that `createRule` creates by default are values, without an object identity.
- An own enumerable `__proto__` key (as `JSON.parse` can create) is not modelled: `cloneStyle` and `getDynamicStyles` assign it with `obj[key] = …`, which sets the new object's prototype instead of creating the key, whereas the model copies it as an ordinary entry. The rows on `CloneStyle.Clone`, `CloneStyle.CloneEntries`, `DynamicStyles.Kept` and `DynamicStyles.GetDynamicStyles` hold for objects without such a key.
- Objects are trees. Cycles, inherited enumerable properties, array holes, and the JavaScript rule that integer-like keys enumerate first are not modelled.
- The source never writes to its inputs. In the model this holds by construction, because all values are immutable, so it is not stated as a contract. It covers the style passed to `cloneStyle` and `getDynamicStyles`, and the options object that the keyframe `toString` spreads into a new one.
- `getDynamicStyles` allocates its result object only after visiting every property, whereas the code allocates it at the first hit. Only the numbering of fresh references differs; what is allocated, and when nothing is, is the same.
- The `createRule` argument shift is modelled for calls that pass an options object or nothing in second position. A call passing a non-object there is outside the declared types.
- A `createRule` first argument that is a number, a boolean or a function is outside the declared types (`string | undefined`, or an object for the shift) and is not modelled.
- A plain object is one whose `constructor` reads as `Object`. An object literal that defines its own `constructor` key fails the test in cloneStyle.ts:12 and is returned by reference; the model encodes such an object as `Opaque`, so it is not a separate case. The datatype does not itself forbid a `Plain` value with a `constructor` entry; such a value stands for an object whose own `constructor` is `Object`.
- `typeof index !== 'number'` is modelled for a numeric index or an absent one. Non-numeric values are outside the declared types.
