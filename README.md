# Embed tool service resolution, in Dafny

This project models the service-resolution core of the Editor.js embed block tool and
proves properties of that model. It covers:

- the built-in provider registry and its `id` extractors (`src/services.js`);
- the current tool (`src/index.ts`):
  - `checkServiceConfig`;
  - `prepare`, which builds the static `services` and `patterns` objects from the
    built-ins and the user's `services` configuration (enable flags and custom services);
  - the block's `data` setter, `onPaste` and `save`;
- the earlier tool (`src/index.js`):
  - its own `checkServiceConfig`;
  - its `prepare`, with whitelist and blacklist;
  - the static `pasteHandler`;
  - its `data` setter, in which the value already held takes precedence, and `save`.

The two tools are separate modules, `EmbedTool` and `LegacyEmbedTool`. They share the
registry (`Services`), the JavaScript value shapes (`Js`, `ServiceConfig`), the string
operations (`Text`) and the two `reduce` passes of `prepare`, which are the same code in
both (`ServiceTable`).

Modelling choices:

- **Values.** JavaScript `undefined` is `Option.None`. `||` on strings and numbers is
  written with JavaScript truthiness. `String(undefined)` is `"undefined"`.
- **Object properties.**
  - A service property that may be absent is a `Prop`: `Missing`, or `Present` with a
    value that may be undefined. This is what makes `Object.assign` meaningful: it copies
    present keys, undefined ones included.
  - The untyped values in a user configuration are a `Value` datatype. Kind tests
    (`typeof`, `instanceof`, `Number.isFinite`) are predicates on it.
- **Objects as tables.** The static objects are tables: the keys in insertion order plus
  a map.
- **Regular expressions.**
  - A regular expression is its source text. `exec` is a `Matcher` parameter returning
    the match array, or None for `null`.
  - A user-supplied `id` function is one of the registry's extractor shapes.
- **Static state and the block.**
  - The tools' static `services`/`patterns` are a registry object (`ServiceRegistry`,
    `LegacyRegistry`). Its `Prepare` method reassigns them.
  - The `reduce` accumulators are loops (`ServiceTable.BuildServices`,
    `ServiceTable.BuildPatterns`), proved equal to fold functions on which the
    properties are stated.
  - The block is a class (`Embed`, `LegacyEmbed`) with a mutable `data` field.
  - A throw is a `thrown` result: the state is unchanged when it is set, or the
    function returns None.
- **Templates.** Each built-in `embedUrl` is held as the text before the placeholder, the
  placeholder, and the text after. `html` is a fixed iframe tag around per-provider
  attributes. Both spell out the source strings exactly.

Where the two tools differ, as the code has it:

- **Checking services.** `src/index.js` checks `embedUrl`/`html` with `instanceof String`.
  So the documented form, string literals, is rejected.
- **User services.** `src/index.js` builds the list of checked user services and then
  discards it, so its `services` only ever holds built-ins. Checking still destructures
  every value, so a `null` or `undefined` value throws.
- **`pasteHandler`.**
  - It throws on a URL the regex does not match.
  - Its default `id` yields `undefined` when there is no group, and that renders as the
    text `undefined`.
- **The `data` setter.**
  - Its guard `!data instanceof Object` never fires; only destructuring `null` or
    `undefined` throws.
  - It keeps each truthy field for good, so `save` writes the caption only while it is
    empty.

## Model

| member | source | states |
|---|---|---|
| Text.Split | src/services.js:30-33 | `split` on one character yields at least one piece, and no piece holds the separator |
| Text.Join | src/services.js:49 | every character of a join comes from the separator or from one of the pieces |
| Text.DropFirst | src/services.js:30 | `slice(1)` drops exactly the first character, and leaves an empty string empty |
| Text.JoinSplit | src/services.js:30-31 | joining the pieces of `split(sep)` with `sep` gives back the string |
| Text.SplitJoin | src/services.js:30-33 | splitting a join of separator-free pieces gives back the pieces |
| Text.ReplaceAll | src/index.ts:272 | a global replace leaves text without the pattern's first character unchanged |
| Text.SingleReplace | src/index.ts:272 | a template with one placeholder, whose other text holds no `<`, renders as prefix, replacement, suffix |
| Text.ReplaceAllJoin | src/index.ts:272 | the `/g` replace on clean pieces joined by the placeholder replaces every occurrence: the same pieces joined by the id |
| ServiceConfig.Groups | src/index.ts:271 | `slice(1)` of a match array: the capture groups, each one place earlier than in the match |
| ServiceConfig.Assign | src/index.ts:332 | `Object.assign({}, target, source)`: each present key of the source wins, each missing one keeps the target's |
| ServiceConfig.Destructure | src/index.ts:352 | destructuring throws exactly for `null` and `undefined`, and reads an object's own fields |
| ServiceTable.Put | src/index.ts:327-339 | `result[key] = value` keeps the table well formed, stores the value under the key, and leaves every other key and value as it was |
| ServiceTable.AddService | src/index.ts:325-333 | the reducer step stores the key; its value is the new service when the key is new or the service has all six keys; every other key and value is unchanged |
| ServiceTable.ReduceServices | src/index.ts:324-334 | the `services` fold has at most one key per entry and only keys the entries carry |
| ServiceTable.ReducePatterns | src/index.ts:336-341 | the `patterns` fold has at most one key per entry and only keys the entries carry |
| ServiceTable.BuildServices | src/index.ts:325-335 | the reduce loop computes the fold `ReduceServices` of the entries |
| ServiceTable.BuildPatterns | src/index.ts:337-342 | the reduce loop computes the fold `ReducePatterns` of the entries |
| ServiceTable.FirstOccurrences | src/index.ts:325-335 | holds exactly the keys of its list, each once |
| ServiceTable.NotIn | src/index.ts:323 | holds exactly the keys of one list that are not in another |
| ServiceTable.NotInAppend | src/index.ts:323 | the new-key filter keeps order: filtering a concatenation is filtering each part in turn |
| ServiceTable.ServicesKeys | src/index.ts:325-335 | `services` is a well-formed object whose key order is the first occurrences of the entry keys |
| ServiceTable.PatternsMatchServices | src/index.ts:325-342 | `patterns` has the keys of `services` in the same order, and `patterns[k]` is `services[k].regex` |
| ServiceTable.ServicesHoldKey | src/index.ts:325-335 | a key is in `services` exactly when some entry carries it |
| ServiceTable.ServicesHoldKeyAppend | src/index.ts:323-335 | after `concat`, a key is in `services` exactly when either list carries it |
| ServiceTable.ServicesLookup | src/index.ts:326-332 | the value under a key is its last entry's when that entry has all six keys or is the only one |
| ServiceTable.LookupAppended | src/index.ts:323-342 | an entry with all six keys, appended after the built-ins with no later duplicate, is what `services` holds under its key, and its regex is the pattern |
| ServiceTable.FirstOccurrencesAppend | src/index.ts:323-335 | the keys of two duplicate-free lists are the first list, then the second's new keys |
| Services.Builtins | src/services.js:2-140 | the table lists the fourteen providers in declaration order, each under its key |
| Services.BuiltinKeysDistinct | src/services.js:2-140 | the built-in keys are pairwise distinct |
| Services.RegistryWellFormed | src/services.js:2-140 | every built-in has non-empty `html` and positive `height` and `width` |
| Services.BuiltinHasPlaceholder | src/services.js:5-135 | every built-in `embedUrl` holds `<%= remote_id %>`, right after its prefix |
| Services.BuiltinPrefixClean | src/services.js:5-135 | no built-in `embedUrl` holds a `<` before its placeholder |
| Services.BuiltinSuffixClean | src/services.js:5-135 | no built-in `embedUrl` holds a `<` after its placeholder |
| Services.RenderBuiltin | src/index.ts:272 | every built-in template renders as its prefix, the id, its suffix |
| Services.AsServiceFields | src/services.js:2-140 | a built-in's service object carries its template, its `id` and both sizes as own keys |
| Services.VimeoRender | src/services.js:5 | the vimeo template renders as the player URL, the id, `?title=0&byline=0` |
| Services.YouTubeRender | src/services.js:12 | the youtube template renders as the embed URL followed by the id |
| Services.CodepenTemplate | src/services.js:119 | neither side of the codepen placeholder holds `<` |
| Services.CodepenRender | src/services.js:119 | the codepen template renders as the host, the id, and the embed query |
| Services.GroupTexts | src/services.js:107-138 | `join` reads each group as its text, and an undefined group as `''` |
| Services.JoinIds | src/services.js:107-138 | `ids.join(sep)`: no groups give `''`, one group gives its text, and every character comes from the separator or a group |
| Services.JoinTwoGroups | src/services.js:123 | joining two groups gives the first, the separator, the second |
| Services.JoinExtractors | src/services.js:101-138 | yandex track and playlist join with `/`, codepen with `/embed/`, twitter with `/status/` |
| Services.CanonicalName | src/services.js:21-28 | `start`, `t` and `time_continue` map to `start`, `end` to `end`, `list` to `list`, and no other name is recognised |
| Services.NameValue | src/services.js:33 | `param.split('=')` destructured: neither the name nor the value holds `=` |
| Services.NameWithoutValue | src/services.js:33 | a parameter without `=` is all name, with an undefined value |
| Services.ScanParam | src/services.js:32-46 | one `map` step keeps every pair emitted so far and adds at most one; a truthy id is never replaced |
| Services.ScanParams | src/services.js:30-47 | the whole pass emits at most one pair per parameter, after any already kept; a truthy id is never replaced |
| Services.Renamed | src/services.js:41-47 | the reference renaming keeps at most one pair per parameter, each beginning with a canonical name and `=` |
| Services.ScanParamKeeps | src/services.js:32-46 | a parameter that cannot supply the id is kept as the renaming keeps it |
| Services.ScanWithKnownId | src/services.js:32-47 | with a truthy id the scan keeps exactly the renamed recognised pairs, in order |
| Services.ScanWithoutV | src/services.js:32-47 | before any `v` pair the scan keeps exactly the renamed recognised pairs |
| Services.ScanAppend | src/services.js:32-47 | scanning two parameter lists in turn is scanning their concatenation |
| Services.RenamedAppend | src/services.js:41-47 | renaming distributes over concatenation |
| Services.ScanFalsyV | src/services.js:35-46 | while the id is falsy, `v` pairs without a value keep it falsy and are not emitted; the recognised pairs are kept in order |
| Services.ScanRecoversId | src/services.js:35-46 | with a falsy id, the first `v` pair with a non-empty value becomes the id and is not emitted; earlier valueless `v` pairs are dropped and the recognised pairs around it are kept in order |
| Services.YouTubeId | src/services.js:16-50 | throws exactly when params is undefined and id is falsy; a falsy params with a truthy id returns the id |
| Services.YouTubeWithId | src/services.js:30-49 | with non-empty id and params the result is id, `?`, the renamed pairs joined by `&` |
| Services.TimeParamSplits | src/services.js:30-33 | the params group `&t=<value>` holds one pair, named `t` with that value |
| Services.TimeParamRenamed | src/services.js:21-46 | `t=<value>` is emitted as `start=<value>` |
| Services.YouTubeStartTime | src/services.js:16-49 | a params group `&t=<value>` after an id yields the id and `?start=<value>` |
| Services.YouTubeExample | src/services.js:16-49 | the id `wZZ7oFKsKzY` with `&t=120` yields `wZZ7oFKsKzY?start=120` |
| Services.YouTubeIdFromQuery | src/services.js:16-49 | with a falsy id group, the first `v` pair with a value in the query supplies the id, and the recognised pairs before and after it are emitted in order |
| Services.YouTubeTrailingQuestionMark | src/services.js:49 | params with no recognised name yield the id and a trailing `?` |
| Services.ApplyExtractor | src/services.js:16-138 | a join extractor joins the groups with its separator and never throws; the youtube extractor is `YouTubeId` |
| Services.NothingRecognised | src/services.js:41-47 | parameters with no recognised name rename to nothing |
| EmbedTool.CheckServiceConfig | src/index.ts:351-363 | true exactly when `regex` is a RegExp, `embedUrl` and `html` are non-empty string literals, and `id`, `height`, `width` are each undefined or of their kind |
| EmbedTool.Rebuild | src/index.ts:307-316 | the rebuilt user service carries all six keys as own properties |
| EmbedTool.RebuildLosesNothing | src/index.ts:307-316 | rebuilding a valid user service keeps every field the check looked at |
| EmbedTool.CheckTypedService | src/index.ts:351-363 | a typed service passes exactly when `embedUrl` and `html` are non-empty, and then rebuilds to itself |
| EmbedTool.BuiltinsPassCheck | src/index.ts:351-363 | every built-in provider passes `checkServiceConfig` |
| EmbedTool.EnabledKeys | src/index.ts:293-298 | a key is enabled exactly when its value is literally `true` |
| EmbedTool.UserEntry | src/index.ts:300-305 | a value yields a user service exactly when it is an object that passes the check |
| EmbedTool.UserServices | src/index.ts:300-317 | throws exactly when some value is `null` |
| EmbedTool.UserServicesAppend | src/index.ts:300-317 | the user services of two configuration lists in turn are those of the first then those of the second, so configuration order is kept |
| EmbedTool.UserServicesFrom | src/index.ts:300-317 | every user service comes from an entry with its key that passes the check |
| EmbedTool.UserServicesComplete | src/index.ts:300-317 | every entry that passes the check yields its user service |
| EmbedTool.UserServicesDistinct | src/index.ts:300-317 | user services have distinct keys |
| ServiceTable.KeepKeys | src/index.ts:319-321 | keeps exactly the entries whose key is listed; the enable filter and the legacy whitelist (src/index.js:180-182) are both this filter |
| ServiceTable.KeepKeysAppend | src/index.ts:319-321 | filtering distributes over concatenation, so the surviving entries keep their order |
| ServiceTable.KeptKey | src/index.ts:319-321 | an entry's key survives the filter if and only if it is listed |
| ServiceTable.KeepKeysDistinct | src/index.ts:319-321 | filtering keeps keys distinct |
| EmbedTool.SelectBuiltins | src/index.ts:318-320 | a built-in survives the enable filter exactly when nothing is enabled or its key is |
| EmbedTool.SelectBuiltinsDistinct | src/index.ts:318-320 | the surviving built-ins keep distinct keys |
| EmbedTool.NothingEnabled | src/index.ts:293-298 | with no value literally `true`, nothing is enabled |
| EmbedTool.PrepareEntries | src/index.ts:288-323 | throws exactly for a `null` config, `null` services, or a `null` service value |
| EmbedTool.ServiceRegistry.constructor | src/index.ts:102-104 | the registry starts with the built-ins and empty `services` and `patterns` |
| EmbedTool.ServiceRegistry.Prepare | src/index.ts:288-343 | throws as `PrepareEntries` says and then changes nothing; otherwise sets `services` and `patterns` to the folds of the entry list |
| EmbedTool.UserServicesLack | src/index.ts:300-317 | a key with no valid user entry is not a user service key |
| EmbedTool.SelectedKey | src/index.ts:319-321 | a built-in survives exactly when nothing is enabled or its own key is |
| EmbedTool.EnableFilter | src/index.ts:293-323 | a built-in key no user service claims is in `services` exactly when nothing is literally `true` or its own value is |
| EmbedTool.FalseFlagsFilterNothing | src/index.ts:319-323 | with no `true` value the entry list is every built-in followed by the user services |
| EmbedTool.UserServiceWins | src/index.ts:307-342 | a valid user service is stored rebuilt under its key, replacing a built-in field by field, and its regex is the pattern |
| EmbedTool.InvalidUserServiceDropped | src/index.ts:300-305 | an object that fails the check adds nothing to `services` |
| EmbedTool.SelectedFromBuiltins | src/index.ts:319-321 | the enable filter only removes built-ins |
| EmbedTool.PreparedKeyOrder | src/index.ts:319-342 | `services` keys are the surviving built-ins in order, then the new user keys; `patterns` matches it key for key |
| EmbedTool.Merge | src/index.ts:135-144 | each field is the incoming one if truthy, else the current one; the caption is incoming, current, or `''` |
| EmbedTool.MergeIdempotent | src/index.ts:135-144 | setting the same data twice is setting it once |
| EmbedTool.LastTruthy | src/index.ts:138-140 | the reference value is the start or one of the history's values |
| EmbedTool.SetterKeepsLastTruthy | src/index.ts:138-140 | after a sequence of sets, each text field holds the last truthy value it was given |
| EmbedTool.LastTruthyAfterFirst | src/index.ts:138-140 | the last truthy value does not depend on folding the first value into the start |
| EmbedTool.DefaultId | src/index.ts:270 | the default id is the first group if truthy, else `''` |
| EmbedTool.ExtractId | src/index.ts:270-272 | without an `id` the default id is used; only the youtube extractor can throw |
| EmbedTool.PasteData | src/index.ts:267-281 | throws for a missing key or when the extractor throws, and for nothing else; sets service, source and sizes; `embed` is empty when the regex does not match, and otherwise the template with the extracted id in place of every placeholder |
| EmbedTool.PasteWithMatch | src/index.ts:270-280 | a matched paste whose id extracts yields the template with the id substituted and the service's sizes |
| EmbedTool.BuiltinPaste | src/index.ts:270-280 | a matched paste for a built-in yields its prefix, the id, its suffix, and its sizes |
| EmbedTool.VimeoPaste | src/index.ts:267-281 | a vimeo match yields the vimeo key, the source, the player URL for the id, and vimeo's sizes |
| EmbedTool.PasteWithoutMatch | src/index.ts:271-280 | an unmatched paste keeps `embed`, overwrites `service` and `source`, and keeps the caption or `''` |
| EmbedTool.PasteMissingKeyThrows | src/index.ts:270 | a key missing from `services` throws |
| EmbedTool.Embed.constructor | src/index.ts:112-119 | the saved data is set on `{}` |
| EmbedTool.Embed.SetData | src/index.ts:130-151 | throws exactly for a non-object and then changes nothing; otherwise merges |
| EmbedTool.Embed.OnPaste | src/index.ts:267-281 | throws as `PasteData` says and then changes nothing; otherwise sets the pasted data |
| EmbedTool.Embed.Save | src/index.ts:258-260 | returns the current data |
| EmbedTool.VimeoExtract | src/index.ts:270 | vimeo's single group is the id |
| EmbedTool.YouTubeExtract | src/services.js:17-19 | a youtube match with an empty params group yields the bare id |
| EmbedTool.CodepenExtract | src/services.js:123 | a codepen match yields the user, `/embed/`, the pen |
| LegacyEmbedTool.LegacyCheck | src/index.js:211-223 | truthy exactly when `regex` is a RegExp, `embedUrl` and `html` are String objects, and `id`, `height`, `width` are each undefined or of their kind |
| LegacyEmbedTool.StringLiteralsRejected | src/index.js:214-216 | string literals for `embedUrl` or `html` fail, while empty String objects pass |
| LegacyEmbedTool.DropListed | src/index.js:183-185 | keeps exactly the entries whose key is not listed |
| LegacyEmbedTool.DropListedAppend | src/index.js:183-185 | the blacklist filter distributes over concatenation, so the surviving entries keep their order |
| LegacyEmbedTool.FilterLists | src/index.js:180-185 | a built-in survives exactly when an active whitelist lists it and an active blacklist does not |
| LegacyEmbedTool.LegacyPrepareEntries | src/index.js:154-185 | throws exactly for a missing or `null` config, `null` services, or a `null`/`undefined` service value; otherwise the built-ins after both lists |
| LegacyEmbedTool.LegacyRegistry.constructor | src/index.js:37-38 | the registry starts with the built-ins and empty `services` and `patterns` |
| LegacyEmbedTool.LegacyRegistry.Prepare | src/index.js:154-203 | throws as `LegacyPrepareEntries` says and then changes nothing; otherwise sets `services` and `patterns` to the folds of the filtered built-ins |
| LegacyEmbedTool.ListsFilter | src/index.js:180-185 | a built-in key is in `services` exactly when an active whitelist lists it and an active blacklist does not |
| LegacyEmbedTool.OnlyBuiltins | src/index.js:159-175 | `services` holds only built-in keys, whatever the user configures |
| LegacyEmbedTool.BlacklistWins | src/index.js:183-185 | a blacklisted key is never in `services` |
| LegacyEmbedTool.BuiltinKept | src/index.js:187-202 | a surviving built-in keeps its own service object, and its regex is its pattern |
| LegacyEmbedTool.FilterListsDistinct | src/index.js:180-185 | filtering keeps the keys distinct |
| LegacyEmbedTool.DropListedDistinct | src/index.js:183-185 | the blacklist filter keeps keys distinct |
| LegacyEmbedTool.LegacyMerge | src/index.js:69-78 | each field is the current one if truthy, else the incoming one; an undefined incoming caption reads `''` |
| LegacyEmbedTool.LegacyMergeIdempotent | src/index.js:71-78 | setting the same data twice is setting it once |
| LegacyEmbedTool.TruthyFieldIsFinal | src/index.js:72-74 | a truthy text field never changes again |
| LegacyEmbedTool.SetterKeepsFirstTruthy | src/index.js:72-74 | from a falsy field, the first truthy value supplied is the one kept |
| LegacyEmbedTool.SaveEffect | src/index.js:121-125 | save writes the caption only while it is empty, keeps every truthy field, and turns every falsy one (key, source, embed, width, height) undefined |
| LegacyEmbedTool.LegacyEmbed.constructor | src/index.js:47-53 | the saved data is set on `{}` |
| LegacyEmbedTool.LegacyEmbed.SetData | src/index.js:64-79 | throws exactly for `null`/`undefined` and then changes nothing; otherwise merges |
| LegacyEmbedTool.LegacyEmbed.Save | src/index.js:121-126 | throws and changes nothing when the block was never rendered; otherwise sets `{caption}` through the setter and returns the data |
| LegacyEmbedTool.LegacyExtractId | src/index.js:136-138 | without an `id`, the inserted text is `String` of the first group |
| LegacyEmbedTool.PasteHandler | src/index.js:135-147 | throws for a missing key, an unmatched URL, or an extractor that throws, and for nothing else; otherwise returns key, source, sizes, and the template with the extracted id in place of every placeholder |
| LegacyEmbedTool.MissingGroupRendersUndefined | src/index.js:136-138 | with no first group, the default id renders as `undefined` |
| LegacyEmbedTool.LegacyVimeoPaste | src/index.js:135-147 | a vimeo match returns the vimeo data with the rendered player URL and the vimeo sizes |

## Left out

- Rendering, the preloader, CSS classes and `embedIsReady`. The `src/index.ts` block here is never rendered, so its `get data` never reads a caption from the DOM and returns the stored data.
- LegacyEmbedTool.LegacyEmbed.Save: the DOM is a parameter. The caller passes the caption element's markup, or None for a block never rendered (`this.element` is still `null`), on which `save` throws.
- The regular expression engine: a `Matcher` parameter stands for `exec`, and no URL is matched concretely.
- `$`-patterns in `String.prototype.replace` replacement text: the substitution is a literal replace-all.
- `html` markup is kept as text and never substituted (imgur's own placeholder stays as it is).
- Sizes are integers; NaN and the infinities are distinct values that fail `Number.isFinite`; floating point is not modelled.
- Integer-like keys, which JavaScript enumerates before the others, are not reordered; keys are kept in insertion order.
- Names inherited from `Object.prototype` (e.g. `toString`) are not recognised by the youtube `paramsMap` lookup, and are not treated as present by the reducers' `key in result` test.
- A user key `__proto__` is stored as an ordinary key; in JavaScript `result[key] = ...` sets the accumulator's prototype instead of adding an own key.
- `null` values of individual fields (a `null` caption, a `null` width) are not modelled; fields are strings or numbers, possibly undefined.
- Array elements of `whitelist`/`blacklist` that are not strings are not modelled.
- The editor API, `readOnly`, the `pasteConfig`/`onPaste` getters and `isReadOnlySupported`.
- EmbedTool.ServiceRegistry.Prepare: the imported `SERVICES` table is the registry's `builtins` field rather than a module import.
- EmbedTool.UserEntry: a user `id` function is one of the registry's extractor shapes (youtube remapping or joining groups), not arbitrary code.
- EmbedTool.Embed.constructor: the saved data is an object; constructing with anything else, which throws in the setter, is modelled by `SetData` alone.
- LegacyEmbedTool.LegacyEmbed.constructor: the same holds for the earlier tool's constructor.
- LegacyEmbedTool.LegacyCheck: the `&&` chain can return a falsy non-boolean value; only its truthiness is modelled, which is all `filter` reads.
- src/serviceConfig.ts is not part of this model beyond the `Service` shape; vite.config.js and test/services.js are not part of this model.
