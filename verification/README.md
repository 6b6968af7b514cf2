# Theming core of the MTS design system, in Dafny

This project models the logic-bearing core of a React design-system package: the
light/dark theming layer and the design-token conversion of its utility-class
configuration generator. The presentational components are not part of it.

- **ThemeMerge** (`theme_merge.dfy`, from `src/theme/mergeTheme.ts`): a theme is a JSON
  object tree (`Value`). `MergeTheme` walks a partial override tree over the base. Where
  both sides are plain objects it recurses. Anywhere else the override value replaces the
  base value wholesale: scalars, arrays, null, an object over a scalar, or a key the base
  lacks. `GetDarkTheme` is the same merge under the name used for the dark theme. `Lookup`
  follows a key path, and `Untouched` says that an override never reaches a path. The
  lemmas state the merge's promises over every path at every depth.
- **DomTheme** (`dom_theme.dfy`, from `src/theme/web/applyThemeToDom.ts`): the DOM sink.
  It is the `data-mts-theme` attribute of the root element: `"dark"` for the dark theme,
  absent for the light theme. A `hasWindow` flag stands for server-side rendering, where
  writing does nothing and reading gives light.
- **ThemeRuntime** (`theme_runtime.dfy`, from `src/theme/web/ThemeProvider.tsx`): the
  provider as a `Runtime` record with pure transitions. `Initial` is the first render.
  `Mount` is the initialisation effect. `SetPreference` is the setter. `SystemChange` is
  the `prefers-color-scheme` signal taking a new value. Local storage is a
  `map<string, string>`, `matchMedia` is a boolean, the listener is a `subscribed` flag,
  and the DOM is a `Document`. React's re-render-then-effects cycle is the helper `Commit`.
  Setting state to its current value runs no effect. Otherwise the resolve-and-apply effect
  and the subscription effect both run. `Coherent` is the invariant that every transition
  keeps: the resolved theme matches the preference, the DOM shows it, and a listener exists
  exactly while the preference is `system`. `Run` applies a sequence of events. The default
  configuration is `DefaultConfig`: key `"mts-theme"`, default preference `system`.
- **TailwindTokens** (`tailwind_tokens.dfy`, from `scripts/generate-tailwind-config.ts`
  and `src/tokens/types.ts`): px token scales become CSS lengths. A rem length is kept as
  the exact rational px/16.
- **ThemeTypes**, **Wrappers**: the preference and resolved-theme names
  (`src/theme/types.ts`), and `Option`.

Two behaviours of the source that the model keeps:
- A key present only in the overrides is added to the merged theme. `targetValue` is
  undefined there, so the guard fails and the override value is assigned
  (src/theme/mergeTheme.ts:24-38).
- Setting the preference to the value it already holds changes no React state. Both
  effects depend only on `[preference, isClient]`, so neither re-runs: nothing is
  re-resolved, re-applied or re-subscribed, and only the store is written
  (src/theme/web/ThemeProvider.tsx:78, 101, 104-116). `Commit` models this bail-out.
  While the runtime is `Coherent`, the resolved theme is the same as a re-resolution
  would give, and `SetPreference`'s contract says so.

## Model

| member | source | states |
|---|---|---|
| ThemeTypes.ParsePreference | src/theme/web/ThemeProvider.tsx:62-67 | a stored string is accepted iff it is exactly `light`, `dark` or `system`, and then names the preference read |
| ThemeTypes.PreferenceNameRoundTrip | src/theme/web/ThemeProvider.tsx:60-67 | a preference written under its name is read back as itself |
| ThemeTypes.PreferenceNameInjective | src/theme/types.ts:38 | the three preferences are persisted as three distinct strings |
| ThemeMerge.MergeValue | src/theme/mergeTheme.ts:20-43 | the result is an object iff the override is; when the override is not an object or the base is not, the override replaces the base; when both are objects, the key set is the union |
| ThemeMerge.MergeTheme | src/theme/mergeTheme.ts:15-46 | key set is base ∪ overrides; keys absent from the overrides keep the base value; keys only in the overrides are added; both-object keys recurse; every other override value replaces the base value wholesale |
| ThemeMerge.GetDarkTheme | src/theme/mergeTheme.ts:51-53 | the dark theme is the merge of the light theme with the dark overrides |
| ThemeMerge.MergeValueLeafWins | src/theme/mergeTheme.ts:20-43 | every non-object value reached by a path in the override is found at that same path in the result |
| ThemeMerge.MergeValueUntouchedPath | src/theme/mergeTheme.ts:20-43 | a base value at a path the override never reaches is found unchanged in the result |
| ThemeMerge.MergeThemeLeafWins | src/theme/mergeTheme.ts:20-45 | every leaf path present in the theme overrides holds exactly the override's value in the merged theme |
| ThemeMerge.MergeThemeUntouchedPath | src/theme/mergeTheme.ts:20-45 | a key absent from the theme overrides, at any depth, keeps its base value in the merged theme |
| ThemeMerge.MergeThemeEmpty | src/theme/mergeTheme.ts:15-46 | an empty override object gives back the base theme |
| ThemeMerge.MergeValueSelf | src/theme/mergeTheme.ts:20-43 | merging a value onto itself gives that value |
| ThemeMerge.MergeValueIdempotent | src/theme/mergeTheme.ts:20-43 | applying the same overrides twice gives the same result as applying them once |
| ThemeMerge.GetDarkThemeIdempotent | src/theme/mergeTheme.ts:51-53 | deriving the dark theme again from a dark theme changes nothing |
| ThemeMerge.DarkThemeExample | src/theme/darkOverrides.ts:8-71 | a palette shade named by the dark overrides is replaced, an unnamed shade and other categories keep their light values |
| DomTheme.ApplyThemeToDom | src/theme/web/applyThemeToDom.ts:12-26 | dark sets `data-mts-theme` to `"dark"`, light removes it, no other attribute changes, and without a window nothing changes |
| DomTheme.GetThemeFromDom | src/theme/web/applyThemeToDom.ts:31-40 | reads dark iff a window exists and the attribute is exactly `"dark"`; missing or any other value reads light |
| DomTheme.ApplyThenGet | src/theme/web/applyThemeToDom.ts:12-40 | reading after applying a theme returns that theme |
| DomTheme.ApplyIdempotent | src/theme/web/applyThemeToDom.ts:20-25 | applying a theme twice equals applying it once |
| DomTheme.ApplyLastWins | src/theme/web/applyThemeToDom.ts:20-25 | applying two themes in a row equals applying only the second |
| DomTheme.GetThenApply | src/theme/web/applyThemeToDom.ts:12-40 | writing back what was read leaves a sink-produced document unchanged |
| ThemeRuntime.ResolveTheme | src/theme/web/ThemeProvider.tsx:41-53 | dark resolves to dark, light to light, system to dark iff a window exists and the signal reports dark |
| ThemeRuntime.StoredPreference | src/theme/web/ThemeProvider.tsx:60-67 | the stored value is adopted iff it is exactly one of the three names; a missing key or other value yields the configured default |
| ThemeRuntime.Initial | src/theme/web/ThemeProvider.tsx:31-38 | the first render holds the given configuration props, store, system signal and document, the configured default preference and the light theme, with no listener and no effect run |
| ThemeRuntime.Commit | src/theme/web/ThemeProvider.tsx:72-101 | setting state to its current values changes nothing; otherwise, on the client, the resolved theme is the new preference's resolution, the DOM is the prior document with the sink applied for it, and a listener exists iff the preference is system; before initialisation neither effect acts and no listener exists; the store is never touched |
| ThemeRuntime.Mount | src/theme/web/ThemeProvider.tsx:56-101 | after initialisation the preference is the stored one (or the default), the resolved theme is its resolution, the DOM is the prior document with the sink applied for it, a listener exists iff the preference is system, and the store is only read |
| ThemeRuntime.Persist | src/theme/web/ThemeProvider.tsx:107-115 | choosing the default removes the storage key, any other choice writes its name, no other key changes, and nothing is written without a window |
| ThemeRuntime.SetPreference | src/theme/web/ThemeProvider.tsx:104-116 | the preference becomes the choice, the store is persisted as above, choosing the current preference changes nothing else, a changed preference on the client applies the sink to the prior document, and from a coherent state the resolved theme, the DOM and the subscription follow the new preference |
| ThemeRuntime.SystemChange | src/theme/web/ThemeProvider.tsx:81-101 | a subscribed runtime resolves to the new signal value and applies the sink for it to the prior document; an unsubscribed one ignores it; the preference and store never change |
| ThemeRuntime.PersistedPreferenceReloads | src/theme/web/ThemeProvider.tsx:104-116 | the preference a later load adopts from the store is the one last chosen, whether the key was removed or written |
| ThemeRuntime.LeavingSystemIgnoresSignal | src/theme/web/ThemeProvider.tsx:81-101 | after leaving system there is no listener, and a later signal change moves neither the resolved theme nor the DOM |
| ThemeRuntime.RunKeepsCoherent | src/theme/web/ThemeProvider.tsx:56-116 | from the first render, every sequence of mounts, preference changes and signal changes keeps resolved theme, DOM and subscription consistent with the preference |
| ThemeRuntime.RunTouchesOnlyStorageKey | src/theme/web/ThemeProvider.tsx:104-116 | no sequence of events changes the configuration or any store key other than the configured one |
| ThemeRuntime.RunFramesDocument | src/theme/web/applyThemeToDom.ts:12-26 | no sequence of events changes whether a window exists or any root attribute other than `data-mts-theme` |
| ThemeRuntime.InitialisationExamples | src/theme/web/ThemeProvider.test.tsx:130-182 | under a light signal a stored `"dark"` is adopted and shown, and a stored `"nope"` falls back to system and resolves light; under a dark signal a stored `"light"` is adopted and leaves no `data-mts-theme` attribute, while a stored `"system"` and a missing key both give system, resolved and shown dark |
| ThemeRuntime.EndToEndScenario | src/theme/web/ThemeProvider.test.tsx:184-226 | under a light signal, choosing dark stores `mts-theme = "dark"` and shows dark, and choosing system again removes the key; initialising under a light signal subscribes, resolves light and leaves no `data-mts-theme` attribute, the signal turning dark shows dark with the preference unchanged, and choosing light then leaves no listener, so later signal changes move nothing |
| TailwindTokens.PxToRem | scripts/generate-tailwind-config.ts:15-17 | the result is a rem length denoting exactly the given px |
| TailwindTokens.SixteenPxIsOneRem | scripts/generate-tailwind-config.ts:12-17 | 16px converts to exactly 1rem |
| TailwindTokens.PxToRemMonotone | scripts/generate-tailwind-config.ts:15-17 | the conversion preserves strict order and equality of px values |
| TailwindTokens.TransformSpacing | scripts/generate-tailwind-config.ts:22-28 | same key set; each value is a rem length denoting the token's px |
| TailwindTokens.TransformFontSize | scripts/generate-tailwind-config.ts:33-39 | same key set; each value pairs a rem length denoting the token's px with line height `1.5` |
| TailwindTokens.TransformBreakpoints | scripts/generate-tailwind-config.ts:44-50 | same key set; each value is a px length equal to the token |
| TailwindTokens.TransformBorderRadius | scripts/generate-tailwind-config.ts:55-65 | same key set; `full` becomes 9999px; every other key is a rem length denoting the token's px |
| TailwindTokens.BorderRadiusIgnoresFullValue | scripts/generate-tailwind-config.ts:58-59 | the numeric value of the `full` token has no effect on the output |
| TailwindTokens.BorderRadiusRoundTrip | scripts/generate-tailwind-config.ts:55-65 | reading every non-`full` radius back in px gives the token scale |
| TailwindTokens.TransformShadows | scripts/generate-tailwind-config.ts:70-76 | same key set; each value is exactly the shadow's web string |
| TailwindTokens.GenerateTokensJSON | scripts/generate-tailwind-config.ts:122-138 | every shadow keeps both its web and rn parts, and every other category passes through unchanged |
| TailwindTokens.GenerateTokensJSONLossless | scripts/generate-tailwind-config.ts:122-138 | the token JSON equals the token set |
| TailwindTokens.ShadowsAgreeWithTokensJSON | scripts/generate-tailwind-config.ts:70-138 | the configuration's shadow strings are the web parts of the token JSON's shadows |
| TailwindTokens.SpacingRoundTrip | scripts/generate-tailwind-config.ts:22-28 | reading the spacing configuration back in px gives the token scale |
| TailwindTokens.FontSizeRoundTrip | scripts/generate-tailwind-config.ts:33-39 | reading the font-size configuration back in px gives the token sizes, and every size carries the same line height |
| TailwindTokens.BreakpointsRoundTrip | scripts/generate-tailwind-config.ts:44-50 | reading the breakpoint configuration back gives the token breakpoints |
| TailwindTokens.FontSizeExample | src/tokens/typography.ts:7-16 | the repository's 12, 16 and 36 px font sizes become 0.75, 1 and 2.25 rem at line height 1.5 |

## Left out

- The base is never mutated: the source merges into a deep copy of it (src/theme/mergeTheme.ts:16), and Dafny values are immutable, so no merge can alter its arguments here either.
- Sharing of override subtrees: where an override value is assigned rather than merged (a key the base lacks, an object over a non-object, every array), the source puts the override's own object or array into the result (src/theme/mergeTheme.ts:38). The result therefore aliases `overrides`, and two merges with the same overrides share those subtrees. A value-semantics model cannot express aliasing, so it does not promise an independent deep copy; it promises only equality of values.
- Override keys holding `undefined`, inherited enumerable properties and the `__proto__` key are not modelled. Overrides are JSON objects here.
- The static typing of `Theme` and `DeepPartial<Theme>` (fixed category and shade keys) is not modelled. The merge works on any JSON object tree, as the source's runtime walk does.
- React mechanics (batching, render scheduling, context, `useTheme`'s outside-provider error): initialisation is one synchronous step (`Mount`), and "the runtime must exist before use" is the `Runtime` value itself.
- ThemeRuntime.Mount: requires the runtime not to be initialised yet. The initialisation effect depends only on the configuration props, which are fixed for the runtime's lifetime here. A changing `storageKey` or `defaultPreference` prop, which would re-run it, is not modelled.
- The `addEventListener` / `addListener` compatibility branch: the listener is one subscribe/unsubscribe pair, the `subscribed` flag.
- `typeof localStorage === 'undefined'` while a window exists: local storage is assumed present whenever a window is.
- Storage failures: `getItem`, `removeItem` and `setItem` (src/theme/web/ThemeProvider.tsx:61, 111, 113) can throw, for example when storage is blocked or its quota is exceeded, and the source catches none of these errors. A throwing `setItem` would leave the new preference queued (line 105) with nothing persisted, and the exception would reach the caller. The store here is a total map whose reads and writes always succeed, so `StoredPreference`, `Persist` and `SetPreference` do not model this error path.
- Runtime teardown (unmount) is not modelled. Its only effect would be removing the listener.
- JavaScript number-to-string formatting: rem and px lengths are exact numbers (`CssLength`), not the strings `${px / 16}rem` and `${value}px`. Non-integer px tokens are not modelled.
- `generateTailwindConfig`'s text template and `JSON.stringify` layout, `generateAll` and `scripts/build-tokens.ts` (file writes, console output, process exit), and `scripts/build-css.mjs`: I/O only.
- The token constant files: only as concrete example inputs.
- The components, stories and configuration files: presentational or build configuration.
