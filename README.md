# Whisper monitor and model configuration, modelled in Dafny

This project models the logic behind the Whisper monitor of Redux DevTools. Whisper is a chat panel that explains state changes with a language model. The model has four parts:

- **Delta helpers** (`Whisper/utils.ts`, modules `Js` and `WhisperUtils`):
  - `flattenObject` turns nested objects into one object with dot-joined keys;
  - `onlychanges` reduces a jsondiffpatch delta to the new values;
  - `cleanDiff` turns a delta into English sentences.

  JavaScript values are the datatype `Json`. An object is an association list in key insertion order. Property assignment (`o[k] = v`, `{...o, [k]: v}`) is `Put`: an existing key keeps its place, a new key is appended. `Object.assign` is `Assign`. Each helper is a function with lemmas:
  - flattening is related to an independent definition, the depth-first list of leaves `Leaves`;
  - `onlychanges` is related to the array-length encoding of a change (`DecodeChange`, `NewValue`);
  - the rules of `onlychanges` and `cleanDiff` are also stated key by key, and for `cleanDiff` arrays length by length, in terms of the delta's own elements.
- **Change log** (`Whisper/index.tsx`, module `WhisperMonitor`): the class `WhisperChat` holds the timestamp cursor and the list of `{action, jsonDiff}` entries. Its `Rebuild` loop is proved against the function `EntriesUpTo`. Lemmas about that function state which indices are kept, in what order, and with what content. `JSON.stringify` and jsondiffpatch's `diff` are the function parameters `show` and `diff`.
- **Configuration reducer** (`reducers/aiconfig.ts`, module `AIConfigReducer`): the save/clear/other state machine, `ReduceAll` over a history of actions, and its algebraic laws.
- **Configuration form** (`Settings/AIConfig.tsx`, module `AIConfigForm`):
  - pure parts: the provider-to-models table, the save validation (`SaveErrors`) and the change rule (`ChangedForm`);
  - the class `ConfigForm`, whose fields are the component's state (`formData`, `modelOptions`, `config`, `errors`). Its methods are the effect, `formChange`, `handleSave` and `clearPreviousConfig`. A dispatch is modelled as the method's returned action.

Behaviour worth noting:

- The description sentences keep the code's spacing and punctuation, including `"THIS VALUE : … WAS CHANGED TO : …"` and the double space in `"  WAS DELETED :"`.
- The change log does not flatten, clean or filter diffs. An entry is emitted for every kept index, even when its diff is empty.
- `flattenObject` returns `''` for any falsy input.

## Model

| member | source | states |
|---|---|---|
| Js.Truthy | packages/redux-devtools-app-core/src/containers/monitors/Whisper/utils.ts:2 | A value is falsy exactly when it is `undefined`, `null`, `false`, `0` or `''`. |
| Js.OwnEntries | packages/redux-devtools-app-core/src/containers/monitors/Whisper/utils.ts:7-8 | The `[key, obj[key]]` pairs `Object.keys` yields. An object gives its own properties. An array or string gives, for each index i, the key "i" (in decimal) with element i, or with the one-character string at i. Any other value gives none. |
| Js.Put | packages/redux-devtools-app-core/src/containers/monitors/Whisper/utils.ts:14-17 | Assigning key k: reading k gives the new value and every other key reads as before. An existing key keeps its position; a new key is appended. Distinct keys and flatness are preserved. |
| Js.Assign | packages/redux-devtools-app-core/src/containers/monitors/Whisper/utils.ts:12 | `Object.assign(acc, src)`: acc's keys keep their order and new keys follow in first-mention order. Each key of src reads as src's last value for it; other keys read as in acc. |
| Js.AssignDeduplicated | packages/redux-devtools-app-core/src/containers/monitors/Whisper/utils.ts:12 | Merging the result of `Object.assign({}, src)` into a distinct-keyed acc gives the same object as merging src itself. |
| WhisperUtils.FlattenObject | packages/redux-devtools-app-core/src/containers/monitors/Whisper/utils.ts:1-21 | The result is `''` exactly when the input is falsy. Otherwise it is an object with distinct keys and no plain-object value. |
| WhisperUtils.FlattenInto | packages/redux-devtools-app-core/src/containers/monitors/Whisper/utils.ts:7-20 | The reduce over the keys keeps the accumulator's keys distinct and its values flat. |
| WhisperUtils.FlattenIntoIsAssignOfLeaves | packages/redux-devtools-app-core/src/containers/monitors/Whisper/utils.ts:7-20 | Flattening from accumulator acc equals `Object.assign` of the list of all leaves, under their dot-joined paths in depth-first order, onto acc. |
| WhisperUtils.FlattenLaterWins | packages/redux-devtools-app-core/src/containers/monitors/Whisper/utils.ts:12-17 | The flattened keys are the leaf paths in first-occurrence order. On a collision the later-processed leaf's value wins. |
| WhisperUtils.LeavesOfFlat | packages/redux-devtools-app-core/src/containers/monitors/Whisper/utils.ts:11-18 | An object with no plain-object value is its own list of leaves. |
| WhisperUtils.FlattenIdempotent | packages/redux-devtools-app-core/src/containers/monitors/Whisper/utils.ts:1-21 | Flattening twice equals flattening once, for every input, falsy ones included. |
| WhisperUtils.LeavesHavePaths | packages/redux-devtools-app-core/src/containers/monitors/Whisper/utils.ts:9-18 | Every flattened entry is a non-object value reachable by a key path, and its key is that path joined with `.` after the prefix, with no leading dot. |
| WhisperUtils.PathsAreLeaves | packages/redux-devtools-app-core/src/containers/monitors/Whisper/utils.ts:9-18 | Conversely, every non-object value reachable by a key path appears among the leaves under its joined path. |
| WhisperUtils.EmptyObjectContributesNothing | packages/redux-devtools-app-core/src/containers/monitors/Whisper/utils.ts:11-12 | A nested empty object adds no key. |
| WhisperUtils.DecodeChange | packages/redux-devtools-app-core/src/containers/monitors/Whisper/utils.ts:33-55 | A delta value is a change exactly when it is an array of length 1, 2 or 3. Length 1 is an addition of element 0, length 2 a change from element 0 to element 1, and length 3 a deletion of element 0. |
| WhisperUtils.DecodeEncode | packages/redux-devtools-app-core/src/containers/monitors/Whisper/utils.ts:33-55 | Decoding the array written for an added, modified or deleted value gives back that change. |
| WhisperUtils.OnlyChanges | packages/redux-devtools-app-core/src/containers/monitors/Whisper/utils.ts:23-29 | A falsy value is returned unchanged; any other value gives an object. |
| WhisperUtils.OnlyChangesInto | packages/redux-devtools-app-core/src/containers/monitors/Whisper/utils.ts:29-68 | The reduce keeps every key of its accumulator, adds only keys of the input, and keeps keys distinct. |
| WhisperUtils.OnlyChangesStep | packages/redux-devtools-app-core/src/containers/monitors/Whisper/utils.ts:31-66 | One callback touches only its own key. A length-3 array leaves the accumulator as it was. Any other value leaves the key present, and its key is appended only when it is new. |
| WhisperUtils.OnlyChangesStepSurviving | packages/redux-devtools-app-core/src/containers/monitors/Whisper/utils.ts:31-66 | One reducer step stores under its key exactly what the decoded change leaves, or drops the key for a deletion. |
| WhisperUtils.OnlyChangesIntoGet | packages/redux-devtools-app-core/src/containers/monitors/Whisper/utils.ts:29-68 | After the reduce over distinct keys, each key holds its surviving value. A deleted or absent key reads as in the starting accumulator. |
| WhisperUtils.OnlyChangesIntoKeys | packages/redux-devtools-app-core/src/containers/monitors/Whisper/utils.ts:29-68 | The keys after the reduce are the accumulator's keys followed by the input's non-deleted keys, in order. |
| WhisperUtils.OnlyChangesRules | packages/redux-devtools-app-core/src/containers/monitors/Whisper/utils.ts:33-66 | Rules for an object delta: length 1 gives element 0, length 2 gives element 1, and length 3 removes the key. Any other array length and any scalar are kept. A nested object is recursed into. Surviving keys keep their order. |
| WhisperUtils.CleanDiff | packages/redux-devtools-app-core/src/containers/monitors/Whisper/utils.ts:71-103 | The result is a string exactly when the delta is an array of length 1, 2 or 3, and an object otherwise. On an object the result's keys are exactly the input's keys other than `_t`. |
| WhisperUtils.CleanInto | packages/redux-devtools-app-core/src/containers/monitors/Whisper/utils.ts:75-78 | The `for…in` loop ends with exactly the keys already filled in plus the input's keys other than `_t`, and keeps keys distinct. |
| WhisperUtils.CleanStep | packages/redux-devtools-app-core/src/containers/monitors/Whisper/utils.ts:76-77 | The key `_t` is skipped. Any other key is set to the `cleanDiff` of its value, and every other key is left alone. |
| WhisperUtils.CleanDiffDescribesChange | packages/redux-devtools-app-core/src/containers/monitors/Whisper/utils.ts:80-100 | Length 1 gives `"A NEW VALUE WAS ADDED : "` followed by `show(d[0])`. Length 2 gives `"THIS VALUE : "` + `show(d[0])` + `" WAS CHANGED TO : "` + `show(d[1])`. Length 3 gives `"THIS VALUE "` + `show(d[0])` + `"  WAS DELETED :"`. Any other array length, and any scalar, gives `{}`. |
| WhisperUtils.CleanIntoGet | packages/redux-devtools-app-core/src/containers/monitors/Whisper/utils.ts:75-78 | After the `for…in` loop, each key other than `_t` holds the `cleanDiff` of its value. `_t` and absent keys read as before. |
| WhisperUtils.CleanIntoKeys | packages/redux-devtools-app-core/src/containers/monitors/Whisper/utils.ts:75-78 | The loop appends exactly the input's keys other than `_t`, in order. |
| WhisperUtils.CleanDiffObject | packages/redux-devtools-app-core/src/containers/monitors/Whisper/utils.ts:72-79 | On an object, the result has exactly the input's keys minus `_t`, each holding the `cleanDiff` of its value. |
| WhisperUtils.OnlyChangesAgreesWithCleanDiff | packages/redux-devtools-app-core/src/containers/monitors/Whisper/utils.ts:33-97 | At a key holding an encoded change, `onlychanges` stores the change's new value (or drops the key). `cleanDiff` stores the change's description. |
| WhisperUtils.CleanDiffIsDescribed | packages/redux-devtools-app-core/src/containers/monitors/Whisper/utils.ts:71-103 | Every leaf of a `cleanDiff` result is one of the three description sentences. Every inner node is an object. |
| WhisperUtils.CleanIntoIsDescribed | packages/redux-devtools-app-core/src/containers/monitors/Whisper/utils.ts:75-78 | The loop keeps every value of the accumulator a described tree. |
| WhisperMonitor.EntriesUpTo | packages/redux-devtools-app-core/src/containers/monitors/Whisper/index.tsx:28-43 | There are at most as many entries as recorded states, and strictly fewer when the last state is skipped. |
| WhisperMonitor.NextCursor | packages/redux-devtools-app-core/src/containers/monitors/Whisper/index.tsx:47-50 | The cursor takes action n's timestamp when that action exists with a non-zero timestamp. Otherwise it stays, and it never moves to 0. |
| WhisperMonitor.EntriesAreKeptIndices | packages/redux-devtools-app-core/src/containers/monitors/Whisper/index.tsx:28-43 | There is one entry per index not skipped (timestamp not below the cursor), in ascending index order. The entry for index i holds the serialised action i, plus the serialised state for i = 0 or `diff(state[i], state[i-1])` otherwise. |
| WhisperMonitor.NothingSkippedFromReset | packages/redux-devtools-app-core/src/containers/monitors/Whisper/index.tsx:13-43 | With the cursor at -1 and non-negative timestamps, entry i belongs to index i for every state: the full state first, then diffs. |
| WhisperMonitor.CursorWindow | packages/redux-devtools-app-core/src/containers/monitors/Whisper/index.tsx:29-31 | With strictly increasing timestamps and the cursor at action m's timestamp, the kept indices are exactly m to n-1. |
| WhisperMonitor.WhisperChat.constructor | packages/redux-devtools-app-core/src/containers/monitors/Whisper/index.tsx:12-13 | The entry list starts empty and the cursor starts at -1. |
| WhisperMonitor.WhisperChat.OnActiveStateChange | packages/redux-devtools-app-core/src/containers/monitors/Whisper/index.tsx:15-17 | The cursor is reset to -1; the entries are unchanged. |
| WhisperMonitor.WhisperChat.OnMount | packages/redux-devtools-app-core/src/containers/monitors/Whisper/index.tsx:19-23 | An unset cursor takes the timestamp of action 0, if there is one. |
| WhisperMonitor.WhisperChat.Rebuild | packages/redux-devtools-app-core/src/containers/monitors/Whisper/index.tsx:25-52 | A missing action changes nothing. Otherwise the entry list is replaced by one built from empty with the old cursor. The cursor then takes action n's timestamp when that action exists with a non-zero timestamp. |
| AIConfigReducer.Reduce | packages/redux-devtools-app-core/src/reducers/aiconfig.ts:3-26 | A save gives exactly the payload's four fields and a clear gives four empty strings, whatever the prior state. Any other type returns the state unchanged. |
| AIConfigReducer.LastSaveWins | packages/redux-devtools-app-core/src/reducers/aiconfig.ts:5-14 | Of two saves, the second wins. |
| AIConfigReducer.ClearIdempotent | packages/redux-devtools-app-core/src/reducers/aiconfig.ts:16-23 | Clearing twice equals clearing once, and the result does not depend on the prior state. |
| AIConfigReducer.SaveThenClear | packages/redux-devtools-app-core/src/reducers/aiconfig.ts:5-23 | A save followed by a clear equals a clear of the original state. |
| AIConfigReducer.OthersLeaveStateAlone | packages/redux-devtools-app-core/src/reducers/aiconfig.ts:25 | A history of unrelated actions leaves the state unchanged. |
| AIConfigReducer.LastWriterWins | packages/redux-devtools-app-core/src/reducers/aiconfig.ts:5-25 | A history containing a save or a clear ends in the same state from any starting state. |
| AIConfigReducer.EndsWithSave | packages/redux-devtools-app-core/src/reducers/aiconfig.ts:5-14 | A history ending in a save leaves exactly that save's payload. |
| AIConfigReducer.ConfigStaysConfig | packages/redux-devtools-app-core/src/reducers/aiconfig.ts:5-25 | Once a record is stored, no action returns the state to `{}`. |
| AIConfigReducer.InitialUntilWritten | packages/redux-devtools-app-core/src/reducers/aiconfig.ts:3-25 | The state stays the initial `{}` exactly as long as the history holds no save and no clear. |
| AIConfigForm.ModelsFor | packages/redux-devtools-app-core/src/components/Settings/AIConfig.tsx:22-36 | Every provider in the table has a non-empty list of non-empty model names. |
| AIConfigForm.OfferedProvidersAreKnown | packages/redux-devtools-app-core/src/components/Settings/AIConfig.tsx:22-38 | Every provider the form offers has an entry in the table with a non-empty model list. |
| AIConfigForm.StoredModelOptions | packages/redux-devtools-app-core/src/components/Settings/AIConfig.tsx:144 | Without a provider, the options are empty, and only then. Otherwise they are that provider's models. |
| AIConfigForm.ChangedForm | packages/redux-devtools-app-core/src/components/Settings/AIConfig.tsx:156-180 | A non-empty new provider resets the model to `''`, and the options become its models. Otherwise the incoming data and options are kept unchanged. Provider and API key always come from the incoming data. |
| AIConfigForm.SaveErrors | packages/redux-devtools-app-core/src/components/Settings/AIConfig.tsx:204-214 | Each message is present exactly when the config is missing or that field is empty. At most three messages appear, in the fixed order model, provider, API key. The list is empty exactly when all three fields are set. |
| AIConfigForm.SavedConfigReachesStore | packages/redux-devtools-app-core/src/components/Settings/AIConfig.tsx:220-227 | A config that passes validation, saved with an empty `baseURL`, is exactly what the reducer then stores. |
| AIConfigForm.ConfigForm.constructor | packages/redux-devtools-app-core/src/components/Settings/AIConfig.tsx:107-119 | The form starts with empty data, no options, no config and no errors. |
| AIConfigForm.ConfigForm.SyncFromStore | packages/redux-devtools-app-core/src/components/Settings/AIConfig.tsx:125-149 | The config and the form data take the stored record's fields. The options are the stored provider's models, or empty without a provider. |
| AIConfigForm.ConfigForm.FormChange | packages/redux-devtools-app-core/src/components/Settings/AIConfig.tsx:151-194 | An event without data changes nothing. Otherwise the form data and options follow `ChangedForm`, and the config mirrors the resulting model, API key and provider. |
| AIConfigForm.ConfigForm.HandleSave | packages/redux-devtools-app-core/src/components/Settings/AIConfig.tsx:203-232 | The errors become `SaveErrors(config)`. A save of the config with `baseURL = ''` is dispatched exactly when there are no errors and a config exists. |
| AIConfigForm.ConfigForm.ClearPreviousConfig | packages/redux-devtools-app-core/src/components/Settings/AIConfig.tsx:234-240 | A clear is dispatched exactly when a stored config exists. |

## Left out

- `JSON.stringify` and jsondiffpatch's `diff`: both are function parameters (`show`, `diff`), and their output is not modelled. `show` returns a string even for `undefined`, where `JSON.stringify` returns `undefined`.
- Numbers are integers. Floating point, `NaN` and functions as values are not modelled.
- `Object.keys` lists integer-like keys of an object first, in ascending order. The model keeps plain insertion order for every key.
- Strings and arrays at the top level of `flattenObject`/`onlychanges` contribute their index keys ("0", "1", …). The lemmas about objects assume distinct keys, as every JavaScript object has.
- A key named `__proto__` is stored as an ordinary key. In the code, `cleaned[key] = …` and `Object.assign` go through the prototype setter for that key: they create no own property and may change the object's prototype. So for a delta parsed from `{"__proto__": [1]}`, `cleanDiff` gives `{}` where the model gives a one-key object.
- Strings are sequences of Unicode scalar values, not of UTF-16 code units. For a top-level string with a character outside the Basic Multilingual Plane (an emoji, say), `Object.keys` gives two keys and two lone surrogates, where the model gives one key and the whole character.
- WhisperUtils.OnlyChanges: its own contract states only the falsy case and the object result. The per-key rules are stated for object deltas by `OnlyChangesRules`.
- React scheduling: effect ordering, dependency lists, stale closures over `formConfig`, and the `setTimeout` that clears the success message after two seconds.
- The provider table's `baseURL` for xAI is not modelled. The form never reads it: a saved configuration always has an empty `baseURL`.
- The success messages (`Saved Successfully`, `Cleared Successfully`) and the form schema's titles and widgets.
- AIConfigForm.ConfigForm.SyncFromStore: a stored configuration missing altogether (the effect then throws) is not modelled. The initial `{}` is read with every field `''`, and so is any `undefined` field, since the code only tests those fields for truthiness.
- AIConfigForm.ChangedForm and AIConfigForm.ConfigForm.FormChange require a table provider only when the event chose a non-empty provider that differs from the current one. Only then does the code index the table (AIConfig.tsx lines 160-171), and the schema's provider enumeration (line 70) offers only table providers.
- AIConfigForm.ConfigForm.SyncFromStore requires the stored provider to be `''` or a key of the provider table. The code indexes the table with any non-empty stored provider (line 144), which throws for an unknown one.
- The wiring of the reducer into the store: `reducers/index.ts` imports a name that `aiconfig.ts` does not export, and the store key differs between the two reducer maps. `reducers/index.ts` and `panelReducer.ts` are not part of this model.
- `Whisper/Model.ts` (network clients for the language models), `Whisper/Chat.tsx` (the chat UI and its awaited requests) and `utils/getMonitor.tsx` (monitor selection) are not part of this model: they are I/O and UI wiring.
