# Cookie-consent banner and tag-dispatch bridge, modelled in Dafny

This project models the logic inside a Next.js cookie-consent banner. The rest of the
repository only renders markup. Four source files are modelled:

- **The tag-dispatch bridge** (`components/consent/utils/gtag.ts`), module `Gtag`.
  The browser's global `window` is a `Window` object with a map from property names to
  slots. `GtagFn` returns whatever truthy value is already stored under the dispatch
  function's name. Otherwise it installs a fresh `GtagFunction` there and returns it.
  Each call of that function appends its argument list to the data-layer queue,
  creating the queue first when the property is missing or falsy. The function keeps
  the queue name it was given at installation. The pure function `AfterPush` states
  the effect of one call. `PushAllAccumulates` proves that successive calls queue
  their arguments in call order and change nothing else.
- **The consent registry** (`components/consent/utils/constants.ts`), module
  `ConsentConstants`. It holds the cookie name, the data-layer name, the tag-manager
  name, the one-week expiry, the necessary and analytics tag lists, the label and
  description of each tag, and the pro flag. `GroupOf` and `TagsOf` look up groups
  over the two lists. The lemmas state that the lists are disjoint and have no
  duplicates, and that the details table covers exactly their union.
- **The grouped options** (`components/cookies/banner-options.tsx`), module
  `CookieOptions`. A category switch starts checked exactly when every tag in its
  group is checked. There is one row per tag, in group order, and every row is enabled.
  A row toggle sends the single-key update `{ [tag]: checked }`. The category switch
  sends nothing. `handleConsentUpdate` is a `ConsentDispatch` object that records the
  updates it receives.
- **The banner** (`components/cookies/banner.tsx`), module `Banner`. `BannerTriggers`
  uses the two default buttons when none are given. It cuts a longer list to two
  *in place*, so the caller's own array changes. In pro mode it wraps index 0 in a
  popover. `BannerOptions` disables only the first option and renders nothing for a
  missing or empty list. `BannerContent` fills in default text for missing props.

Conventions: a TypeScript value that may be `undefined` is an `Option` (module
`Maybe`). `window[undefined]` reads the property `"undefined"` (`Gtag.Key`). That
property is the read-only global `undefined`, and the module code runs in strict
mode, so assigning to it throws: `GtagFn` and `AfterPush` report that as a failure. The
`NEXT_PUBLIC_FEATURE_PRO` environment variable is an `Option<string>` parameter.

Behaviour of the code worth noting:

- Looking up an unknown tag does not raise an error. It yields `undefined`, modelled
  as `None` in `GroupOf` and `DetailOf`.
- The installed dispatch function can throw. If the data-layer property holds a
  truthy value that is not an array, `push` fails. One example is when both names are
  the same. `AfterPush` yields `None` there and the namespace is unchanged.
- The two files compute the pro flag with opposite polarity. `constants.ts:33` sets it
  when the variable is *not* `"true"`. `banner.tsx:95` sets it when the variable *is*
  `"true"`. `Banner.ProFlagsDisagree` states this.
- Necessary tags are not locked in the grouped view: no option row there is ever
  disabled. The category switch follows `isDisabled`. `BannerOptions` disables its
  first entry.

## Model

| member | source | states |
|---|---|---|
| `ConsentConstants.IsPro` | components/consent/utils/constants.ts:33 | the flag is set exactly when the environment value is not `"true"` (including when it is unset) |
| `ConsentConstants.GroupOf` | components/consent/utils/constants.ts:11-22 | a tag is necessary iff it is in the necessary list, analytics iff it is only in the analytics list, and unknown iff it is in neither |
| `ConsentConstants.TagsOf` | components/consent/utils/constants.ts:11-22 | a group's tags are exactly its list, in list order: every returned tag is in the group and every tag of the group is returned |
| `ConsentConstants.DetailOf` | components/consent/utils/constants.ts:42-71 | a tag has details exactly when it belongs to a group, and they are its table entry |
| `ConsentConstants.TagGroupsDisjoint` | components/consent/utils/constants.ts:11-22 | no tag is in both lists, so every registered tag is in exactly one group |
| `ConsentConstants.TagListsShape` | components/consent/utils/constants.ts:11-22 | neither list has duplicates; they have 3 and 4 entries |
| `ConsentConstants.TagDetailsCoverGroups` | components/consent/utils/constants.ts:35-71 | the key set of the details table is exactly the union of the two tag lists |
| `ConsentConstants.NamesAndExpiry` | components/consent/utils/constants.ts:2-8 | cookie name `app-consent`, data layer `dataLayer`, tag manager `gtag`, expiry 604800 s = 7 days |
| `ConsentConstants.LabelsNotUnique` | components/consent/utils/constants.ts:51-65 | `personalization_storage` and `ad_personalization` share a label although they are in different groups |
| `Gtag.Key` | components/consent/utils/gtag.ts:20-25 | a given name is used as is; an undefined name reads the (read-only) property `"undefined"` |
| `Gtag.AfterPush` | components/consent/utils/gtag.ts:29 | one call succeeds iff the queue property holds an array, or is falsy and is not the read-only `"undefined"`; it then holds the old entries plus exactly the new argument list, and every other property is unchanged |
| `Gtag.PushAll` | components/consent/utils/gtag.ts:29 | repeated calls add at most the queue property and leave every other property as it was; when the first call cannot queue (a truthy non-array, or the read-only `"undefined"`), every non-empty run of calls fails |
| `Gtag.PushAllAccumulates` | components/consent/utils/gtag.ts:29 | successive calls all succeed and leave the queue as the earlier entries followed by the calls' argument lists in call order, touching no other property |
| `Gtag.GtagFunction.Call` | components/consent/utils/gtag.ts:27-30 | the installed function changes the namespace exactly as `AfterPush` on its captured queue name, or not at all when the push fails |
| `Gtag.GtagFn` | components/consent/utils/gtag.ts:20-30 | a truthy value under the function name is returned and nothing changes; otherwise a fresh function bound to this queue name is stored there, only that property changes, and the same function is returned; when that property is the read-only `"undefined"` the assignment throws, reported as no result with nothing changed |
| `Gtag.UndefinedNamesThrow` | components/consent/utils/gtag.ts:20-30 | with an undefined function name the install throws and changes nothing; a function installed for an undefined queue name throws on every call and queues nothing |
| `Gtag.InstallTwice` | components/consent/utils/gtag.ts:25-29 | a second install under the same name returns the first function, which still pushes to the first queue name; only that one property was added |
| `Gtag.QueueTwoCalls` | components/consent/utils/gtag.ts:27-29 | on an empty namespace, `("consent","update",{a:1})` then `("event","click")` leave exactly those two argument lists, in that order, in `dataLayer` |
| `CookieOptions.CategoryDescription` | components/cookies/banner-options.tsx:61-65 | a description exists only for `"Necessary"` and `"Analytics"`, and it matches the registry's text for that category |
| `CookieOptions.AllChecked` | components/cookies/banner-options.tsx:67 | true iff every tag of the group has `checked` set in the options |
| `CookieOptions.IsCategoryChecked` | components/cookies/banner-options.tsx:67 | undefined iff there is no group; true iff the group is defined and all of its tags are checked |
| `CookieOptions.Rows` | components/cookies/banner-options.tsx:111-121 | one row per tag in group order, with that tag's label, description and checked state, and not disabled |
| `CookieOptions.GroupedOptions` | components/cookies/banner-options.tsx:42-129 | the switch is disabled only when `isDisabled` is true; its initial value is `IsCategoryChecked` of the group (checked iff the group is defined and all its tags are checked); the description comes from the category name; the rows are `Rows` of the group, or none when there is no group |
| `CookieOptions.CategoryCheckedIffAllRowsChecked` | components/cookies/banner-options.tsx:67-121 | the category switch starts checked exactly when the group is defined and every row below it starts checked |
| `CookieOptions.EmptyAndMissingGroups` | components/cookies/banner-options.tsx:67-94 | an empty group gives a checked switch; a missing group gives no initial value (unchecked) and no rows |
| `CookieOptions.RowsEnabledDescriptionIgnored` | components/cookies/banner-options.tsx:42-122 | the `description` prop has no effect on what is rendered, and rows are enabled even under a disabled category |
| `CookieOptions.ToggleUpdate` | components/cookies/banner-options.tsx:168-170 | the update's only key is the row's tag, mapped to the new checked value |
| `CookieOptions.UpdatesFor` | components/cookies/banner-options.tsx:82-170 | one action sends at most one update; the category switch sends none, having no change handler; an enabled row's toggle sends one map whose only key is the row's tag, mapped to the new value |
| `CookieOptions.UpdatesForAll` | components/cookies/banner-options.tsx:168-170 | a sequence of actions sends at most one update per action; when every action toggles an enabled row, the k-th update is `{ [tag]: checked }` of the k-th action's row and new value, in order |
| `CookieOptions.UpdatesAreSingleTag` | components/cookies/banner-options.tsx:154-170 | over any sequence of user actions, every update sent is a single-key map naming one row's tag |
| `CookieOptions.CategorySwitchesSendNothing` | components/cookies/banner-options.tsx:82-95 | any sequence of category-switch actions alone sends no update |
| `CookieOptions.RowToggleAlwaysSends` | components/cookies/banner-options.tsx:111-170 | toggling row i of a grouped view sends exactly one update, `{ [tag_i]: checked }` |
| `CookieOptions.ConsentDispatch.HandleConsentUpdate` | components/cookies/banner-options.tsx:146-169 | the callback records each update it receives, in order |
| `CookieOptions.HandleEvent` | components/cookies/banner-options.tsx:154-170 | delivering a user action appends exactly that action's updates to what the callback has received |
| `Banner.IsPro` | components/cookies/banner.tsx:95 | the flag is set exactly when the environment value is `"true"` |
| `Banner.ProFlagsDisagree` | components/cookies/banner.tsx:95 | for every environment value this file's flag is the negation of the registry's |
| `Banner.DefaultButtonsShape` | components/cookies/banner.tsx:90-93 | the default list is the two buttons "Show Me" and "Got it", the same as the registry's list |
| `Banner.Truncated` | components/cookies/banner.tsx:101-102 | the result is a prefix of the list, of length two when the list is longer and the whole list otherwise |
| `Banner.TruncatedIdempotent` | components/cookies/banner.tsx:101-102 | cutting twice is cutting once, and a list of at most two is left unchanged |
| `Banner.Triggers` | components/cookies/banner.tsx:111-119 | one trigger per button in order; a trigger is a popover button iff pro mode is on and its index is 0 |
| `Banner.BannerTriggers` | components/cookies/banner.tsx:97-123 | the caller's array becomes its first two entries when longer; the view uses the defaults when no list is given and the trimmed list otherwise, or the slot when `asChild` is set |
| `Banner.CallerArrayIsTruncated` | components/cookies/banner.tsx:100-105 | a caller passing three buttons gets its own array cut to the first two, and two plain buttons are rendered |
| `Banner.BannerOptions` | components/cookies/banner.tsx:169-187 | nothing is rendered iff the list is missing or empty; otherwise one entry per option in order, disabled iff its index is 0 |
| `Banner.DefaultOptionsOnlyNecessaryDisabled` | components/cookies/banner.tsx:150-174 | of the four default options, exactly the one labelled "Necessary" is disabled |
| `Banner.BannerContent` | components/cookies/banner.tsx:52-69 | each given prop is shown as is; each missing one falls back to "Transparency", the default description, "/privacy" or "privacy policy" |
| `Banner.BannerContentFallbacks` | components/cookies/banner.tsx:55-63 | no props give the defaults; the shown text rendered again is unchanged; an empty string is kept, because `??` only replaces a missing value |

## Left out

- The consent store, cookie serialisation, merging of partial updates, forcing necessary tags to true, and the provider behind `handleConsentUpdate`. None of these are in the modelled files. `handleConsentUpdate` is modelled only as a recorder of the updates it receives.
- `components/cookies/context.ts` is React context wiring and is not part of this model. Its `useGTMDispatch` undefined check can never fire, because that context has a default value.
- `components/consent/ui/banner-content.tsx` is not part of this model. It repeats the fallbacks modelled by `Banner.BannerContent`.
- All JSX, class names and styling, including the `background` strings, and the Popover, Accordion, Switch, Label and Button components. These only render. A disabled switch is assumed not to report changes.
- The `Banner` and `BannerTriggerGroup` components only choose between slots and child elements, so they are not modelled. The same goes for the two `ShowMeButton` components and the rendering-only `Option` of `banner.tsx`. The `ShowMeButton` in `banner-options.tsx` passes a `tags` prop that `BannerOptions` does not read.
- `console.log` and `console.warn` in `BannerTriggers` are side output and do not change state.
- Reads of `process.env` are not modelled. The flag value is a parameter.
- Browser `window` semantics beyond a map from names to slots are not modelled. Any value other than an installed function or an array is `Other`, and only its truthiness is kept.
- Gtag.AfterPush: a push onto a truthy non-array value either throws or runs foreign code (for example a tag library's own `push`). The model records only that the call did not queue, and leaves the namespace unchanged.
- Gtag.Arg: the `arguments` object becomes a sequence of strings, numbers and object literals. Other JavaScript values are not represented.
- CookieOptions.GroupedOptions: the `defaultValue` and `className` props are not parameters. The source ignores `defaultValue`, and `className` only styles the switch.
- Lookups of inherited object properties such as `"toString"` in `categoryDescriptions[category]` and `options[tag]` are not modelled. Only own keys are.
- CookieOptions.AllChecked and CookieOptions.Rows require every tag of the group to have an options entry, as the `AllOptions` type promises. The runtime error for a missing entry is not modelled.
- Setting a JavaScript array's `length` above its size adds holes. The source only shortens arrays, so this is not modelled.
