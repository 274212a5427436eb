# eslint-plugin-vue config generator, modelled in Dafny

This project models the category-to-configuration compiler of
eslint-plugin-vue, `tools/update-lib-configs.js`. The compiler turns each rule
category into the text of an ESLint config module. A category is a tier such
as `base`, `essential` or `vue3-recommended`. Each module comes in two shapes:
the legacy shape (`lib/configs/<id>.js`) and the flat shape
(`lib/configs/flat/<id>.js`).

The model is pure, as the source is. It has five files.

- `categories.dfy`: module `Categories` holds the two constant tables.
  `ErrorCategories` is the tiers whose rules are errors. `ExtendsCategories`
  is the parent-tier graph, with `None` for `null`. `ParentOf` is the
  `extendsCategories[id] == null` lookup, where a missing key reads as null.
  `IsVue3` is `startsWith('vue3')`. `Chain` lists the tiers met by following
  parents. Module `CategoryGraph` proves the graph's properties.
- `jsobject.dfy`: module `JsObject` holds the two JavaScript built-ins the
  generator relies on. `FromEntries` is `Object.fromEntries`. An object is its
  properties in insertion order, and a repeated key keeps its first position
  but takes the later value. `Stringify` is a compact, deterministic stand-in
  for `JSON.stringify`.
- `rules.dfy`: module `RuleEntries` models `formatRules`. `SeverityOf` picks the
  severity. `VersionTag` picks the `vue3` or `vue2` tag. `FormatRule` builds
  one rule's entry: the bare severity, or `[severity, ...options]`.
  `RuleMapping` folds the entries into an id-to-entry object, and
  `FormatRules` prints it. Module `RuleEntryProperties` proves what these
  promise.
- `configs.dfy`: module `ConfigModules` models `formatCategory`. It has the
  four templates (root or extension, legacy or flat), each written as its
  lines. A line is an indentation and a text. `Render` joins the lines with
  newline terminators, which gives the template's exact characters.
  `ModuleLines` picks the template, and `FormatCategory` is its rendered text.
  Module `ConfigModuleProperties` reads a module back. `ParentReference` finds
  the `./<parent>` reference, `HasWiring` and `HasLine` find the engine
  wiring, and `EmbeddedRules` finds the rules text. It then proves how these
  depend on the tier.
- `wrappers.dfy`: the `Option` type.

Three behaviours of the code that the model keeps:
- A category id missing from the graph is rendered as a root module. The code
  does not fail fast on it, because `== null` also matches `undefined`
  (`UnknownTierIsRoot`).
- The header comment is not the same literal in every template. In the flat
  root and the legacy extension templates its lines after `/*` start with one
  space. In the other two they start with none. Each template keeps its own
  header.
- The longest parent chain, from `use-with-caution` or
  `vue3-use-with-caution`, holds five tiers. That is four parent edges to
  `base`, and the `null` is read at `base`, the fifth lookup.

## Model

| member | source | states |
|---|---|---|
| Categories.ParentOf | tools/update-lib-configs.js:51-52 | `extendsCategories[category.categoryId]` read by `== null`; its contract is stated by `CategoryGraph.RootsOfGraph`, `CategoryGraph.ParentsAreTiers` and `CategoryGraph.ParentsOfTiers` |
| Categories.IsVue3 | tools/update-lib-configs.js:38 | `categoryId.startsWith('vue3')`; its contract is stated by `CategoryGraph.FamilyOfTiers` and `RuleEntries.VersionTag` |
| Categories.Chain | tools/update-lib-configs.js:19-29 | the tiers met by following parents; its contract is stated by `CategoryGraph.ChainFollowsParents`, `CategoryGraph.ChainReachesRoot` and the chain lemmas below |
| CategoryGraph.ErrorTiers | tools/update-lib-configs.js:17 | the error tiers are exactly `base`, `essential` and `vue3-essential` |
| RuleEntries.SeverityOf | tools/update-lib-configs.js:34 | the severity is `error` exactly for `base`, `essential` and `vue3-essential`, and `warn` for every other id |
| RuleEntries.VersionTag | tools/update-lib-configs.js:38-39 | the tag is `vue3` exactly when the id starts with `vue3`, and `vue2` exactly when it does not |
| RuleEntries.DefaultOptions | tools/update-lib-configs.js:35-36 | `rule.meta && rule.meta.docs && rule.meta.docs.defaultOptions`; its contract is stated by `RuleEntries.FormatRule` and `RuleEntryProperties.NoOptionsGiveBareSeverity` |
| RuleEntries.SelectedOptions | tools/update-lib-configs.js:37-40 | `defaultOptions[vue${v}]`; its contract is stated by `RuleEntries.FormatRule` and `RuleEntryProperties.OptionsFollowVersion` |
| RuleEntries.FormatRule | tools/update-lib-configs.js:33-45 | the entry carries the tier's severity; it is an array exactly when the rule has `meta.docs.defaultOptions` with an entry for the tier's tag, and then its options are that entry |
| RuleEntryProperties.OptionsFollowVersion | tools/update-lib-configs.js:37-42 | a Vue 3 tier's entry depends only on the `vue3` options and any other tier's only on the `vue2` options, in both directions |
| RuleEntryProperties.NoOptionsGiveBareSeverity | tools/update-lib-configs.js:34-44 | with no default options, or none for the tier's tag, the entry is the bare severity, printed as a JSON string |
| RuleEntryProperties.EmptyOptionsGiveSingletonArray | tools/update-lib-configs.js:40-42 | an empty options array for the tier's tag passes the truthiness test, whatever the other tag holds: the entry is `[severity]`, printed `["<severity>"]`, not the bare severity |
| RuleEntries.EntryJson | tools/update-lib-configs.js:41-44 | the printed entry; its contract is stated by `RuleEntryProperties.NoOptionsGiveBareSeverity`, `RuleEntryProperties.ArrayEntryJson`, `RuleEntryProperties.OptionsJsonInOrder` and `RuleEntryProperties.OptionsJsonAppend` |
| RuleEntryProperties.OptionsJsonInOrder | tools/update-lib-configs.js:41 | every option is printed after the severity, comma-separated |
| RuleEntryProperties.OptionsJsonAppend | tools/update-lib-configs.js:41 | printing two runs of options one after the other is the first run's print followed by the second's, so the spread keeps the declared order |
| RuleEntryProperties.ArrayEntryJson | tools/update-lib-configs.js:41 | an entry with one option prints as `["<severity>", <option>]` |
| RuleEntries.MappedRules | tools/update-lib-configs.js:33-45 | the mapped pairs are one per rule, in rule order, each `[ruleId, entry]` |
| RuleEntries.RuleMapping | tools/update-lib-configs.js:32-46 | `Object.fromEntries(rules.map(...))`; its contract is stated by `RuleEntryProperties.RuleMappingContents`, `RuleEntryProperties.MappingSeverity` and `RuleEntryProperties.DistinctRulesInOrder` |
| RuleEntries.FormatRules | tools/update-lib-configs.js:31-48 | `formatRules`, the printed rule mapping; its contract is stated by `RuleEntryProperties.RuleMappingContents`, `JsObject.StringifyPrintsEveryMember` and `RuleEntryProperties.EssentialNoFoo` |
| JsObject.Stringify | tools/update-lib-configs.js:47 | `JSON.stringify(obj)` in a compact layout; its contract is stated by `JsObject.StringifyPrintsEveryMember` |
| JsObject.Get | tools/update-lib-configs.js:32 | an object has a value for a key exactly when the key is among its property names |
| JsObject.Put | tools/update-lib-configs.js:32 | assigning a key keeps the property names when the key is present and appends the key when it is new |
| JsObject.PutReadsBack | tools/update-lib-configs.js:32 | after assigning `k`, `k` reads as the new value and every other key reads as before |
| JsObject.PutKeepsKeysDistinct | tools/update-lib-configs.js:32 | assignment keeps property names distinct |
| JsObject.FromEntries | tools/update-lib-configs.js:32 | `Object.fromEntries` yields distinct keys, exactly the entries' keys, each holding the value of the last entry with that key |
| JsObject.FromDistinctEntries | tools/update-lib-configs.js:32 | with distinct keys, `Object.fromEntries` keeps every entry, in order |
| JsObject.AppendNewKey | tools/update-lib-configs.js:32 | assigning a new key appends it as the last property |
| JsObject.StringifyPrintsEveryMember | tools/update-lib-configs.js:47 | every property of the mapping is printed as `"id": entry` |
| RuleEntryProperties.LastEntryIsLastRule | tools/update-lib-configs.js:32-46 | the last mapped pair for an id is the entry of the last rule with that id |
| RuleEntryProperties.RuleMappingContents | tools/update-lib-configs.js:32-46 | the mapping's keys are exactly the rules' ids, each once, and a repeated id takes the last rule's entry |
| RuleEntryProperties.MappingSeverity | tools/update-lib-configs.js:34 | every entry in a tier's mapping has that tier's severity |
| RuleEntryProperties.DistinctRulesInOrder | tools/update-lib-configs.js:32-46 | with distinct rule ids, the mapping is every rule's entry, in rule order |
| RuleEntryProperties.RecommendedTakesVue2Options | tools/update-lib-configs.js:33-45 | `recommended` with `vue2` options `["always"]` gives `["warn", "always"]` |
| RuleEntryProperties.Vue3EssentialTakesVue3Options | tools/update-lib-configs.js:33-45 | `vue3-essential` gives `["error", "never"]` from the `vue3` options, not the `vue2` ones |
| RuleEntryProperties.EssentialNoFoo | tools/update-lib-configs.js:31-48 | `essential` with the one rule `no-foo` prints `{"no-foo": "error"}` |
| CategoryGraph.KnownTiers | tools/update-lib-configs.js:19-29 | an id is a key of the graph exactly when it is one of the nine tiers |
| CategoryGraph.ParentsAreTiers | tools/update-lib-configs.js:19-29 | every non-null parent is itself a key of the graph |
| CategoryGraph.RootsOfGraph | tools/update-lib-configs.js:19-29 | a parent reads as null exactly for `base` and for ids outside the graph, so `base` is the only root |
| CategoryGraph.FamilyOfTiers | tools/update-lib-configs.js:19-29 | the four `vue3-*` tiers are Vue 3 tiers and the other five are not |
| CategoryGraph.ParentStaysInFamily | tools/update-lib-configs.js:19-29 | a parent is `base` or a tier of the child's own version family |
| CategoryGraph.ChainFollowsParents | tools/update-lib-configs.js:19-29 | a chain starts at its tier, each step goes to the parent, and it is no longer than its bound |
| CategoryGraph.ChainStaysInFamily | tools/update-lib-configs.js:19-29 | following parents never leaves the starting tier's family, except to reach `base` |
| CategoryGraph.ChainStaysInGraph | tools/update-lib-configs.js:19-29 | following parents from a tier of the graph meets only tiers of the graph |
| CategoryGraph.ParentsOfTiers | tools/update-lib-configs.js:19-29 | the parent of each of the nine tiers, as the table lists it |
| CategoryGraph.Vue2Chains | tools/update-lib-configs.js:19-29 | the chains of the five tiers outside the Vue 3 family, written out, each ending at `base` |
| CategoryGraph.Vue3Chains | tools/update-lib-configs.js:19-29 | the chains of the four `vue3-*` tiers, written out, each ending at `base` |
| CategoryGraph.ChainEndsAtBase | tools/update-lib-configs.js:19-29 | every tier's chain holds one to five tiers and ends at `base` |
| CategoryGraph.ChainReachesRoot | tools/update-lib-configs.js:19-29 | from every tier, following parents reaches `base`, whose parent is null, passing at most five of the nine tiers |
| ConfigModules.RootFlatLines | tools/update-lib-configs.js:54-75 | the flat root template, line by line; its contract is stated by the `RootFlat*` lemmas below |
| ConfigModules.RootLegacyLines | tools/update-lib-configs.js:76-96 | the legacy root template, line by line; its contract is stated by the `RootLegacy*` lemmas below |
| ConfigModules.ExtensionFlatLines | tools/update-lib-configs.js:99-109 | the flat extension template, line by line; its contract is stated by the `ExtensionFlat*` lemmas below |
| ConfigModules.ExtensionLegacyLines | tools/update-lib-configs.js:110-119 | the legacy extension template, line by line; its contract is stated by the `ExtensionLegacy*` lemmas below |
| ConfigModules.TemplateLines | tools/update-lib-configs.js:52-119 | the choice among the four templates by parent and shape; its contract is stated by the `Template*` lemmas below |
| ConfigModules.ModuleLines | tools/update-lib-configs.js:50-120 | the lines of the module `formatCategory` returns; its contract is stated by `ModuleRefersToParent`, `WiringOnlyInRootModules` and `SameRulesInBothShapes` |
| ConfigModules.FormatCategory | tools/update-lib-configs.js:50-120 | `formatCategory(category, flat)`, the module's text; its contract is stated by `ModuleStartsWithHeader`, `ModuleEndsWithRules` and the `ModuleLines` lemmas |
| ConfigModuleProperties.HeaderIsPlain | tools/update-lib-configs.js:54-58 | the generated-file comment, with either indentation, refers to no tier and holds no `rules` line |
| ConfigModuleProperties.HeaderHasNoWiring | tools/update-lib-configs.js:54-58 | the generated-file comment holds no wiring line |
| ConfigModuleProperties.RulesLinesEmbedRules | tools/update-lib-configs.js:73-74 | the closing `rules: <text>` and `}` lines embed exactly the rules text |
| ConfigModuleProperties.RulesLinesHaveNoWiring | tools/update-lib-configs.js:73-74 | the closing lines hold no wiring line |
| ConfigModuleProperties.ParserOptionsDeclared | tools/update-lib-configs.js:68-71 | the parser options block declares `parserOptions`, `ecmaVersion: 2020` and `sourceType: 'module'` |
| ConfigModuleProperties.FlatLanguageOptionsDeclared | tools/update-lib-configs.js:61-63 | the flat root sets `parser: vueEslintParser`, the binding of `vue-eslint-parser` |
| ConfigModuleProperties.FlatGlobalsDeclared | tools/update-lib-configs.js:64-67 | the flat root spreads the browser and ES2015 globals |
| ConfigModuleProperties.RootFlatBodyIsPlain | tools/update-lib-configs.js:59-72 | the flat root's lines between the comment and `rules` refer to no tier and hold no `rules` line |
| ConfigModuleProperties.RootFlatBodyDeclared | tools/update-lib-configs.js:59-72 | those lines declare the parser, the ECMAScript 2020 module options and the two globals |
| ConfigModuleProperties.LegacyParserDeclared | tools/update-lib-configs.js:81-82 | the legacy root names `vue-eslint-parser` through `require.resolve` |
| ConfigModuleProperties.LegacyEnvDeclared | tools/update-lib-configs.js:87-90 | the legacy root enables the `browser` and `es6` environments |
| ConfigModuleProperties.RootLegacyBodyIsPlain | tools/update-lib-configs.js:81-93 | the legacy root's lines between the comment and `rules` refer to no tier and hold no `rules` line |
| ConfigModuleProperties.RootLegacyBodyDeclared | tools/update-lib-configs.js:81-93 | those lines declare the parser, the ECMAScript 2020 module options and the two environments |
| ConfigModuleProperties.ExtensionFlatBodyRefersToParent | tools/update-lib-configs.js:104-106 | the flat extension's lines between the comment and `rules` refer to exactly `./<parent>` |
| ConfigModuleProperties.ExtensionFlatBodyHasNoRules | tools/update-lib-configs.js:104-106 | those lines hold no `rules` line |
| ConfigModuleProperties.ExtensionFlatBodyHasNoWiring | tools/update-lib-configs.js:104-106 | those lines hold no wiring line, whatever the parent |
| ConfigModuleProperties.ExtensionLegacyBodyRefersToParent | tools/update-lib-configs.js:115-116 | the legacy extension's lines between the comment and `rules` refer to exactly `./<parent>` |
| ConfigModuleProperties.ExtensionLegacyBodyHasNoRules | tools/update-lib-configs.js:115-116 | those lines hold no `rules` line |
| ConfigModuleProperties.ExtensionLegacyBodyHasNoWiring | tools/update-lib-configs.js:115-116 | those lines hold no wiring line, whatever the parent |
| ConfigModuleProperties.RootFlatRefersToNoTier | tools/update-lib-configs.js:54-75 | the flat root template refers to no parent module |
| ConfigModuleProperties.RootFlatEmbedsRules | tools/update-lib-configs.js:73 | the flat root template embeds the given rules text |
| ConfigModuleProperties.RootFlatWiresEngine | tools/update-lib-configs.js:59-72 | the flat root template declares the parser, ECMAScript 2020 module options, and browser and ES2015 globals |
| ConfigModuleProperties.RootLegacyRefersToNoTier | tools/update-lib-configs.js:76-96 | the legacy root template refers to no parent module |
| ConfigModuleProperties.RootLegacyEmbedsRules | tools/update-lib-configs.js:94 | the legacy root template embeds the given rules text |
| ConfigModuleProperties.RootLegacyWiresEngine | tools/update-lib-configs.js:82-90 | the legacy root template declares the parser, ECMAScript 2020 module options, and the browser and ES6 environment |
| ConfigModuleProperties.ExtensionFlatRefersToParent | tools/update-lib-configs.js:104 | the flat extension template refers to exactly `./<parent>` |
| ConfigModuleProperties.ExtensionFlatEmbedsRules | tools/update-lib-configs.js:107 | the flat extension template embeds the given rules text |
| ConfigModuleProperties.ExtensionFlatHasNoWiring | tools/update-lib-configs.js:99-109 | the flat extension template has no parser, options, globals or environment line |
| ConfigModuleProperties.ExtensionLegacyRefersToParent | tools/update-lib-configs.js:116 | the legacy extension template refers to exactly `./<parent>` |
| ConfigModuleProperties.ExtensionLegacyEmbedsRules | tools/update-lib-configs.js:117 | the legacy extension template embeds the given rules text |
| ConfigModuleProperties.ExtensionLegacyHasNoWiring | tools/update-lib-configs.js:110-119 | the legacy extension template has no parser, options or environment line |
| ConfigModuleProperties.TemplateRefersToParent | tools/update-lib-configs.js:52-119 | each of the four templates refers to exactly the parent it is given: none for a root, `./<parent>` for an extension |
| ConfigModuleProperties.TemplateWiring | tools/update-lib-configs.js:52-119 | a template has wiring exactly when it is a root template, and a root template declares the ECMAScript 2020 module options |
| ConfigModuleProperties.TemplateEmbedsRules | tools/update-lib-configs.js:52-119 | every template embeds exactly the rules text it is given |
| ConfigModuleProperties.TemplateStartsWithHeader | tools/update-lib-configs.js:52-119 | every template's text begins with the generated-file comment, indented as that template indents it |
| ConfigModuleProperties.TemplateEndsWithRules | tools/update-lib-configs.js:52-119 | every template's text ends with `rules: <text>`, a newline, `}` and a newline |
| ConfigModuleProperties.ModuleRefersToParent | tools/update-lib-configs.js:50-120 | in both shapes, the module's parent reference is exactly the tier's parent: none when it reads as null, `./<parent>` otherwise |
| ConfigModuleProperties.WiringOnlyInRootModules | tools/update-lib-configs.js:50-120 | a module has engine wiring exactly when the tier's parent reads as null, and a root module declares parserOptions with ECMAScript 2020 modules |
| ConfigModuleProperties.SameRulesInBothShapes | tools/update-lib-configs.js:50-119 | the legacy and flat modules embed the same text, `formatRules(category.rules, category.categoryId)` |
| ConfigModuleProperties.ModuleStartsWithHeader | tools/update-lib-configs.js:50-120 | every module's text begins with the generated-file comment that names `npm run update`, its later lines led by one space in the flat root and legacy extension modules and by none in the other two |
| ConfigModuleProperties.ModuleEndsWithRules | tools/update-lib-configs.js:50-120 | every module's text ends with `rules: `, the rules text, and the closing brace |
| ConfigModuleProperties.ReferencedParentIsTier | tools/update-lib-configs.js:104 | a referenced parent is a tier of the graph, of the same family unless it is `base` |
| ConfigModuleProperties.UnknownTierIsRoot | tools/update-lib-configs.js:51-52 | an id missing from the graph gets a root module: no parent reference, with wiring |
| ConfigModuleProperties.EssentialFlatModule | tools/update-lib-configs.js:98-109 | the flat `essential` module refers to `./base` and embeds `{"no-foo": "error"}` |

## Left out

- The file-writing loop and its paths (lines 122-134) are not modelled. They are filesystem I/O; `FormatCategory` is what that loop writes.
- The `FlatESLint` auto-fix pass (lines 136-143) is not modelled. It is an asynchronous call into ESLint.
- Loading `./lib/categories` (line 15) is not modelled. Categories and rules are parameters (`Category`, `Rule`).
- `require('globals')`, `require('vue-eslint-parser')` and `require.resolve` are not interpreted. They are literal template text.
- `JSON.stringify(obj, null, 2)` is modelled as a compact printer. The model does not reproduce its two-space indentation or its escaping of quotes and control characters. Option values are opaque JSON texts.
- JavaScript orders integer-like property keys first. The model keeps insertion order for every key, because rule ids are never integer-like.
- A category id that names an inherited `Object.prototype` property (such as `constructor`) would read a function, not `undefined`. The model treats every id outside the nine keys as missing.
- A `defaultOptions` entry is modelled as an array. A value that is present but falsy (`null`, `0`, `''`) is not represented, and neither is a truthy non-array that would be spread. Only present arrays and missing keys are modelled.
- `Chain` takes a bound on the number of tiers it visits. `ChainReachesRoot` shows that the bound of nine tiers is never reached.
