# ElevenLabs TTS page: session and voice-catalog model

A Dafny model of the logic inside the `ElevenLabsTTS` class of the page's
`script.js`, with proofs about it. The page is a browser front-end for the
ElevenLabs text-to-speech service. Once the network replies are treated as
inputs, what remains is a small session:

- the user submits an API key, and the page fetches the voice catalog with it;
- the page merges the catalog with the user's custom voices, sorts it (Vietnamese
  voices first, then English, then the rest, by name within each group) and lists
  it in a picker;
- the page filters the picker by language or by custom voices, and by a search
  text;
- the user can add a custom voice by its id;
- the user selects a voice and sends a synthesis request.

Files:

- `replies.dfy` (module `Replies`): `Option`, `Result`, and `Reply`, the outcome of
  a JSON call as the session sees it (a decoded payload, or a non-2xx or
  transport failure).
- `strings.dfy` (module `Strings`): the JavaScript string operations the
  logic relies on:
  - `trim`, with the ECMAScript whitespace set;
  - `toLowerCase` on ASCII letters;
  - `includes`;
  - `localeCompare`, as code-point lexicographic order;
  - the decimal rendering of an HTTP status.
- `voices.dfy` (module `Voices`):
  - the `Voice` record and the language a voice is sorted and filtered by;
  - the sort comparator and the sorted catalog;
  - the lookup by id and the custom-voice record;
  - the visibility test of `filterVoices`;
  - `getLanguageLabel` and the option text.
- `controls.dfy` (module `Controls`):
  - the enable conditions of the Generate and Add buttons;
  - the guard of `generateSpeech` and the request it sends;
  - the error text a failed synthesis shows.
- `session.dfy` (module `Session`): class `ElevenLabsTTS`.
  - Its fields are `apiKey`, `voices`, `customVoices`, `allVoices`,
    `selectedVoice` and `audioBlob`, plus the picker's options and the values
    of the two filter controls.
  - Its methods are the page's handlers. Each handler takes the service's reply
    as a parameter and returns the request it sent (`None` when it sent none).
  - The class invariant `Valid` says four things:
    - the picker is the placeholder followed by one option per catalog entry,
      in catalog order;
    - the catalog is sorted;
    - once a key has been accepted, the catalog holds exactly the fetched voices
      and the custom voices;
    - before any key has been accepted, the catalog is empty and no voice is
      selected, so a selected voice implies a held key.

## Model

| member | source | states |
|---|---|---|
| Strings.Trim | script.js:171 | The result is a slice of the input with only whitespace around it. When it is non-empty, it neither starts nor ends with whitespace. It is empty exactly when the input is all whitespace. |
| Strings.ToLower | script.js:269 | Lowering keeps the length and lowers each character on its own, so no upper-case ASCII letter remains. |
| Strings.ToLowerIdempotent | script.js:277 | Lowering an already lowered string changes nothing. |
| Strings.Includes | script.js:291 | `s.includes(t)` holds exactly when `t` occurs at some index of `s`. |
| Strings.LocaleCompare | script.js:225 | The result is -1, 0 or 1, and it is 0 exactly when the two names are equal. |
| Strings.LocaleCompareAntisymmetric | script.js:225 | Swapping the two names negates the result. |
| Strings.LocaleCompareTransitive | script.js:225 | The name order is transitive. |
| Strings.DecimalString | script.js:394 | The HTTP status is rendered as a non-empty string of digits, with no leading zero, that denotes the status. |
| Voices.Language | script.js:217-218 | The language a voice is sorted and filtered by is never empty. An absent or empty `language` label reads as `unknown`. |
| Voices.CompareVoices | script.js:215-226 | The comparator orders by tier (vi, then en, then the rest), and by name within a tier. It returns 0 exactly for the same tier and the same name. |
| Voices.CompareVoicesAntisymmetric | script.js:215-226 | Swapping the arguments negates the comparator. |
| Voices.CompareVoicesTransitive | script.js:215-226 | The comparator's order is transitive, so it is a consistent sort order. |
| Voices.InsertSorted | script.js:215 | Inserting a voice into a sorted catalog keeps it sorted. |
| Voices.SortVoices | script.js:215 | The sorted catalog is a permutation of the catalog, and no pair of its entries is out of the comparator's order. |
| Voices.SortedByLanguagePriority | script.js:215-226 | In a sorted catalog, every vi voice comes before every other voice, and every en voice comes before every voice that is neither en nor vi. Within one tier, the names ascend. |
| Voices.FindVoice | script.js:135 | The lookup returns the first voice with the given id. It returns nothing exactly when no voice of the catalog has that id. |
| Voices.AsCustomVoice | script.js:142-149 | The stored record keeps the id, the name and every label. It is tagged as custom, and its `language` label is the voice's language, defaulting to `unknown`. |
| Voices.VisibleMeans | script.js:267-299 | An option is shown exactly when both tests pass. The category test: `custom` requires a custom voice, `all` passes every voice, and any other value requires that language. The search test: the search is empty, or the lower-cased name includes the lower-cased search. |
| Voices.VisibleIgnoresSearchCase | script.js:269 | Lower-casing the search text first does not change which options are shown. |
| Voices.LanguageLabel | script.js:243-265 | A known code gives its display name. A non-empty unknown code gives the code itself. The empty code, `unknown` (and the display text itself) give `Không xác định`. The label is never empty. |
| Voices.LanguageLabelAsWritten | script.js:264 | The lookup as written gives an inherited `Object.prototype` member exactly for the codes outside the table that name such a member. Otherwise it agrees with `LanguageLabel`. |
| Voices.LanguageLabelInheritedMember | script.js:264 | For the code `constructor`, the lookup as written gives `Object`, while the corrected one gives the code. |
| Controls.ValidateInput | script.js:339-351 | Generate is enabled exactly when all of these hold: a key is held, a voice is selected, the text has a non-whitespace character, and the untrimmed text has at most 5000 characters. The length error is shown exactly above 5000 characters, and it implies that Generate is disabled. |
| Controls.AddDisabled | script.js:102-105 | Add is enabled exactly when a key is held and the id box has a non-whitespace character. |
| Controls.SpeechRequest | script.js:354-388 | Blank text fails with the empty-text error, before the voice check. A missing voice fails next. A request is built exactly when the text has a non-whitespace character and a voice is selected. It carries the key, the selected voice's id, the trimmed non-empty text, the model `eleven_multilingual_v2`, the three slider values and speaker boost on. |
| Controls.EnabledGenerateSendsRequest | script.js:339-388 | When Generate is enabled, pressing it sends a request for the selected voice, with a non-empty key and a text of 1 to 5000 characters. |
| Controls.FailureDetail | script.js:392-394 | The error shown is the service's `detail.message` when the reply carried one. Otherwise it is `HTTP <status>: <statusText>`. A transport failure shows its own message. |
| Session.PickerOnlyVoiceOptions | script.js:228-237 | The picker holds the placeholder (value "") and then exactly one option per catalog entry, in catalog order. Each option's value is its voice's id. |
| Session.ElevenLabsTTS.constructor | script.js:2-8 | A fresh page holds no key, no catalog, no selection and no audio. It keeps the custom voices saved by an earlier visit, and its picker holds only the placeholder. |
| Session.ElevenLabsTTS.FilterVoices | script.js:267-299 | Filtering keeps the number and order of the options and leaves the placeholder untouched. It sets each voice option's visibility to `Visible` for the current filter and search. |
| Session.ElevenLabsTTS.RenderOptions | script.js:228-236 | After the placeholder, the loop appends one displayed option per catalog entry, in catalog order. |
| Session.ElevenLabsTTS.PopulateVoices | script.js:213-241 | The catalog is replaced by its sorted permutation. The picker is rebuilt for it and the filters are applied. |
| Session.ElevenLabsTTS.RebuildPicker | script.js:228-240 | The picker becomes the placeholder plus one option per catalog entry, shown as the filters decide. |
| Session.ElevenLabsTTS.ChangeLanguageFilter | script.js:70 | Changing the language selector keeps the invariant, and it keeps every option's value and position. |
| Session.ElevenLabsTTS.SearchVoices | script.js:302-304 | Typing a search keeps the invariant, and it keeps every option's value and position. |
| Session.ElevenLabsTTS.ValidateApiKey | script.js:170-211 | Blank input gives an error and no request. Otherwise the page requests the catalog with the trimmed key. A failed reply gives an error. Either error leaves the key, the fetched voices, the catalog and the picker unchanged. On success, the page keeps the key and the fetched voices, and the catalog becomes the sorted concatenation of the fetched voices and the custom voices. |
| Session.ElevenLabsTTS.AddCustomVoice | script.js:107-168 | There are four rejections, each stated as an if-and-only-if: a blank id, no accepted key, a failed lookup, and an id already in the catalog. A rejection leaves the custom voices, the catalog and the picker unchanged. On success, exactly one voice, the tagged record, is appended to the custom voices. The catalog becomes the sorted catalog plus that voice. |
| Session.ElevenLabsTTS.ListCustomVoice | script.js:151-154 | The voice is appended to the custom voices and to the catalog, the catalog is re-sorted, and the invariant is kept. |
| Session.ElevenLabsTTS.SelectVoice | script.js:306-313 | Choosing the option of catalog entry `i` selects that voice. Choosing the placeholder keeps the previous selection. |
| Session.ElevenLabsTTS.GenerateSpeech | script.js:354-407 | The request and the guard errors are those of `SpeechRequest`. Audio that arrives becomes the page's audio. A rejected request reports `FailureDetail`, and any failure leaves the previous audio in place. Every request it sends carries a non-empty key, because a voice can only be selected once a key is held. |

## Left out

- The DOM is not modelled: element lookup, event binding, button labels and disabled states during a request, status messages, and the voice-info card (`displayVoiceInfo`). The picker is modelled as a sequence of options, with a visibility flag for `style.display`.
- `fetch` and JSON decoding are not modelled. Each reply is a parameter:
  - `Reply<T>` for the two catalog calls;
  - `SpeechReply` for synthesis.

  An absent `detail.message` is represented by the empty string.
- `localStorage` is not modelled. The custom voices saved by an earlier visit are a constructor parameter. The saved key, the saved slider settings and the save calls are left out.
- Slider parsing and formatting (`parseFloat`, `toFixed`) are left out. Slider positions are passed through as `real` values.
- The blob URL, playback, download and its time-stamped file name are left out. They are browser resources and the clock. Audio is kept as its bytes.
- The auto-hide timer of success messages is left out.
- The character counter and the sample-text buttons of the second `DOMContentLoaded` handler are left out.
- Strings.LocaleCompare: does not model the Unicode collation of `localeCompare`. It is code-point lexicographic order, which is a total order.
- Strings.ToLower: lowers only the ASCII letters, not full Unicode case mapping.
- Text length is counted in characters, not in UTF-16 code units.
- Session.ElevenLabsTTS.SelectVoice: models the chosen option by its index. It does not model the JSON round trip of `dataset.voice`, so it assumes that parsing returns the stored voice.
- Voices.SortVoices: is an insertion sort. The catalog's order is pinned only up to what the comparator decides. The engine's sort is stable and so is this one, but stability is not stated.
- Session.ElevenLabsTTS.ValidateApiKey: does not model a 2xx reply whose body is not a catalog. In the source such a reply throws part-way through the success path and leaves the session partly updated while an error is shown. A `null` body throws at `data.voices` after only `apiKey` was assigned. A body without an iterable `voices` array (`{}`, `{"voices": 5}`) assigns `apiKey` and `voices` (to `undefined` or the non-array value) and throws at the spread that builds `allVoices`. A catalog with a nameless voice assigns `apiKey`, `voices` and `allVoices`, shows the success message, and throws in `populateVoices`: in the sort when the nameless voice is the comparator's first argument, otherwise in `filterVoices` after the picker was rebuilt (the options after that one are left unfiltered, and the controls are not enabled nor the key saved). A `Reply` is either a well-formed payload or a failure that changes nothing.
- Session.ElevenLabsTTS.AddCustomVoice: does not model a lookup reply whose voice has no `name`. In the source such a voice is pushed onto `customVoices` and `allVoices`, and `populateVoices` then throws (in the sort or in `filterVoices`). The add error is shown, but the voice stays in both lists and is not saved. The model's rejections all leave both lists unchanged, and its `Reply` carries only well-formed voices.
- The handlers `ValidateApiKey`, `AddCustomVoice` and `GenerateSpeech` are each one atomic step: the guards, the request and the handling of its reply happen together. In the page each handler awaits `fetch`, and other handlers (including the Enter-key paths, which bypass the disabled buttons) can run in between. For example, `addCustomVoice` may then check for duplicates against a catalog that a concurrent validation has replaced. Interleaved replies are not modelled.
- Controls.EnabledGenerateSendsRequest: its premise is what `validateInput` computes, not the Generate button's state after a request. The `finally` block of `generateSpeech` re-enables Generate whatever the text then is, so a text lengthened past 5000 characters while a request is in flight can be sent once it ends. Likewise, after a successful add, `addCustomVoice` clears the id box (which fires no input event) and re-enables Add on the empty box. `Controls.AddDisabled` states what `validateCustomVoiceInput` computes, not that later button state. The button states are not modelled.
- Voices.OptionText: uses the corrected `LanguageLabel`. For a language code that names an inherited `Object.prototype` member (such as `constructor`), the page renders a different text; `LanguageLabelAsWritten` models that lookup.
- The initial picker is assumed to hold only the placeholder. Its markup lives in `index.html`, which is not part of this model.
- Some behaviour of the code is modelled as written:
  - The speed slider is never sent.
  - Validating a key does not remove duplicates between the fetched voices and the saved custom voices.
  - `generateSpeech` does not re-check the key or the 5000-character limit. The key is still always held when a voice is selected (see `Valid`); the length limit is enforced only by the Generate button, which `validateInput` disables on input events.
  - A failed validation keeps the previously accepted key.
  - Re-sorting the catalog does not reset the selected voice.

## Findings

| source | as written | input that shows it | evidently intended | confidence | as-written member | corrected member |
|---|---|---|---|---|---|---|
| script.js:264 | `labels[lang]` looks the code up in a plain object literal, so inherited `Object.prototype` members are found too | language code `constructor` (likewise `toString`, `valueOf`, ...) labels the voice with the `Object` function's text instead of the code | an unknown code is shown as the code itself | low; not executed | Voices.LanguageLabelAsWritten, Voices.LanguageLabelInheritedMember | Voices.LanguageLabel |
