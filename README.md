# Animation linter core, modelled in Dafny

This project models the logic of a small ESLint plugin for React Native.
The plugin is meant to catch animated values (`new Animated.Value(...)`) that a
component never stops when it unmounts. It has three parts, each in its own module:

- `Animation` (`animation.dfy`, for `lib/util/animation.js`):
  - The bookkeeping classes `AnimatedVariables` and `Teardowns`. Each is a map from a component id to a list of names, and `register` appends to one component's list in place.
  - The `astHelpers` predicates over syntax-tree nodes: `_containsAnimate`, `_containsAnimateValue`, `isAnimationDeclaration`, `isAnimationTeardown`, and the extractor `getAnimationVariable`.
  - A node is a closed record of the five properties the helpers read. `None` stands for JavaScript `undefined`/`null`.
  - Each predicate is proved equal to a reference reading: `Follow` / `NameAt` step through an explicit list of fields and stop at the first missing link.
- `MustTearDownAnimations` (`rule.dfy`, for `lib/rules/must-tear-down-animations.js`):
  - The rule's visitor holds an `errorNodes` list.
  - On `Program:exit` it calls `context.report` once per entry, in order, with the fixed message `Must tear down animation on unmount`.
  - `context.report` appends to a ghost log of `(node, message)` descriptors.
  - No handler adds to `errorNodes`, so a whole traversal reports nothing.
- `Plugin` (`plugin.dfy`, for `index.js`):
  - `configureAsError` walks the keys a `for…in` loop visits and skips inherited ones. It maps each own key `k` to `react-native-animation-linter/k` with severity `2`.
  - The loop is proved equal to a declarative map comprehension. Lemmas about that map cover its keys, its values and its size.
  - `allRules` is empty, so `configs.all.rules` is empty.
- `Wrappers` (`wrappers.dfy`) holds `Option` and `Result`.

The repository's own test at tests/index.js:11-20 expects `plugin.rules['must-tear-down-animations']` to be the rule module. `allRules` at index.js:5-7 is empty, so that expectation fails against the code as written. The model follows the code: `Plugin.ModuleExports` exports no rules.

Where the code and its test fixtures disagree, the model follows the code:

- The rule is a stub. The teardown tracking described by the test fixtures is not implemented, so there is no tracking to model: no `this.state` or `setState` slots, no `componentWillUnmount` scan.
- The rule's message is `Must tear down animation on unmount`. The fixtures expect `Must tear down animations when component unmounts`.
- A valid fixture (tests/lib/rules/must-tear-down-animations.js:178-195) tears a slot down through a destructured alias: `const {color} = this.state; color.stopAnimation();`. The code's `isAnimationTeardown` accepts `color.stopAnimation();`. However, `getAnimationVariable` throws a `TypeError` on it, because the identifier `color` has no `property`. `Animation.AliasTeardownThrows` states this.

## Model

| member | source | states |
|---|---|---|
| `Animation.ContainsAnimate` | lib/util/animation.js:42-48 | true exactly when the node exists and the name at its `object` link is `Animated` |
| `Animation.ContainsAnimateValue` | lib/util/animation.js:50-56 | true exactly when the node exists and the name at its `property` link is `Value` |
| `Animation.IsAnimationDeclaration` | lib/util/animation.js:58-63 | true exactly when the node's object is named `Animated` and its property is named `Value`; an absent node gives false |
| `Animation.IsAnimationTeardown` | lib/util/animation.js:65-72 | true exactly when the name at `expression.callee.property` is `stopAnimation`; any missing link gives false |
| `Animation.GetAnimationVariable` | lib/util/animation.js:73-75 | succeeds exactly when `expression.callee.object.property` exists, and then yields that node's name (possibly `undefined`); otherwise it is the `TypeError` JavaScript throws |
| `Animation.FollowAppend` | lib/util/animation.js:65-75 | reading a chain of properties `p + q` is reading `p` and then `q` from where `p` ended |
| `Animation.TeardownSlotDefined` | lib/util/animation.js:65-75 | on a statement accepted as a teardown, `expression` and `callee` exist, and the slot read succeeds exactly when the callee's object exists and has a `property`, yielding that property's name |
| `Animation.DeclarationExamples` | tests/lib/util/animation_test.js:32-45 | `Animated.Value` is a declaration; `Animated.OtherThing`, with or without its statement wrapper, and an absent node are not |
| `Animation.StateSlotTeardown` | tests/lib/util/animation_test.js:46-59 | `<owner>.<slot>.stopAnimation();` is a teardown whose variable is `slot` (`this.state.color…` gives `color`); `var stopAnimation = 1;` is not a teardown |
| `Animation.AliasTeardownThrows` | lib/util/animation.js:65-75 | `alias.stopAnimation();` is accepted as a teardown, but reading its variable throws |
| `Animation.Registered` | lib/util/animation.js:15-19 | after registering, the component's list is its old list (empty if none) with the name appended; every other component's list is unchanged; the key count grows by one exactly when the component was new |
| `Animation.RegisterKeepsDuplicates` | lib/util/animation.js:17 | registering the same name twice for a component leaves two entries |
| `Animation.AnimatedVariables.constructor` | lib/util/animation.js:8-10 | a new collection has no component keys |
| `Animation.AnimatedVariables.Register` | lib/util/animation.js:15-19 | `variables` becomes `Registered(old variables, componentId, variableName)` |
| `Animation.Teardowns.constructor` | lib/util/animation.js:24-26 | a new collection has no component keys |
| `Animation.Teardowns.Register` | lib/util/animation.js:31-35 | `teardowns` becomes `Registered(old teardowns, componentId, key)`, the same semantics as `AnimatedVariables.Register` |
| `Animation.RegisterTwoComponents` | tests/lib/util/animation_test.js:12-27 | registering two distinct components on a fresh collection gives 0, then 1, then 2 keys, for both classes |
| `MustTearDownAnimations.ReportsFor` | lib/rules/must-tear-down-animations.js:11-20 | one report per error node, in list order, each carrying that node and the fixed message |
| `MustTearDownAnimations.Context.Report` | lib/rules/must-tear-down-animations.js:15-18 | `context.report` appends its descriptor to the log and does nothing else |
| `MustTearDownAnimations.TeardownRule.Create` | lib/rules/must-tear-down-animations.js:5-22 | `create(context)` keeps the context and starts with an empty `errorNodes` |
| `MustTearDownAnimations.TeardownRule.ReportMissingTeardowns` | lib/rules/must-tear-down-animations.js:11-20 | the log grows by exactly `ReportsFor(nodes)` |
| `MustTearDownAnimations.TeardownRule.HandleEvent` | lib/rules/must-tear-down-animations.js:23-28 | only `Program:exit` reports, and it reports `ReportsFor(errorNodes)`; any other event leaves the log unchanged; `errorNodes` never changes |
| `MustTearDownAnimations.Lint` | lib/rules/must-tear-down-animations.js:5-28 | a fresh rule driven through any sequence of events, exit included, reports nothing |
| `Plugin.NamespacedRoundTrip` | index.js:16 | a prefixed key starts with `react-native-animation-linter/` and stripping the prefix gives back the rule name |
| `Plugin.NamespacedSetSize` | index.js:16 | prefixing a set of distinct names gives as many distinct keys |
| `Plugin.ErrorConfigEntries` | index.js:10-19 | every configured key is the prefix plus an own key of the input, with value `2`; every own key appears prefixed; an inherited-only key does not appear |
| `Plugin.ErrorConfigSize` | index.js:16 | the configuration has exactly as many entries as the input has own keys |
| `Plugin.ErrorConfigEmpty` | index.js:5-7 | an object with no own keys configures nothing |
| `Plugin.ConfigureAsError` | index.js:10-19 | the loop's result is exactly `ErrorConfig(rules)`; the input is a value and only read |
| `Plugin.ModuleExports` | index.js:21-34 | the exports carry `allRules`, enable JSX, and `configs.all.rules` is `configureAsError(allRules)`, which is empty |

## Left out

- `ComponentAnimations` is listed in `lib/util/animation.js`'s exports but is never defined, so loading that module as written would throw a `ReferenceError`. The model defines only the module's functions and constructors.
- Prototype mechanics: a component id that names an inherited property of `Object.prototype` (`toString`, `__proto__`, …) makes `register` read that property instead of `undefined`. The model treats every id as a plain own key.
- `Animation.IsAnimationTeardown`: called on `undefined` or `null`, the JavaScript throws a `TypeError`. The model's parameter is always a node object.
- `Animation.GetAnimationVariable`: also throws on `undefined`/`null`; as above, the parameter is a node.
- Node `name` values other than strings are not represented. Parsers only put identifier strings there.
- `Plugin.ConfigureAsError`: an input whose own `hasOwnProperty` key shadows `Object.prototype.hasOwnProperty` is not modelled. Rule objects themselves are represented only by their keys.
- ESLint's machinery is not part of this model: `RuleTester`, the `espree` and `babel-eslint` parsers, `parserOptions`, and the real `context.report` (here a ghost log). Parsed nodes are given values.
- The file-system listing of rule files in `tests/index.js` is I/O and is not modelled.
- The teardown tracking the test fixtures describe is left out because the code does not implement it. This covers class-field, constructor, `getInitialState` and `setState` slot tracking, and the `componentWillUnmount` scan.
