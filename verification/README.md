# PanoAI generation core, modelled in Dafny

PanoAI is a web front end that turns uploaded photos and/or a text prompt
into a 360° panorama. Most of it is UI and I/O glue. This project models the
sequential logic underneath that glue and proves properties about it:

- **Credential fallback.** `getApiKeys`, `getGeminiModel` and
  `generateWithFallback` (Gemini client helper), plus the Stability-key loop
  of the generation route. Both try keys in order, the first success wins, and
  the last key's error is re-thrown. Each external call is an abstract
  per-key outcome `Attempt<V> = Ok(value) | Err(message)`. Both loops are
  proved equal to one reference definition, `Outcomes.FirstOk`, and, for a
  non-empty key list, to each other.
- **The generation route.** It defaults the prompt, filters the Stability
  keys, quotes the prompt for the shell command line, runs the key loop, and
  returns either the success JSON or the failure JSON.
- **The page's history.** On load it filters stored records by URL. It
  prepends each new generation and shows it. On write-back it keeps a prefix
  capped at 10 entries, or 3 when the storage quota is exceeded.
- **The upload panel.** Files are appended and removed by index, and a
  predicate decides when the generate button is enabled.

The modules follow the source files:

| module | file | models |
|---|---|---|
| `Outcomes` | outcomes.dfy | optional values, per-key outcomes, the first-success reference |
| `Sequences` | sequences.dfy | `filter`, `startsWith`, `includes` |
| `Keys` | keys.dfy | `[...].filter(Boolean)` over configured keys |
| `Gemini` | gemini.dfy | `src/lib/gemini.ts` |
| `Escaping` | escaping.dfy | prompt quoting in `src/app/api/generate/route.ts` and the POSIX shell's reading of it |
| `Route` | route.dfy | `src/app/api/generate/route.ts` |
| `Page` | page.dfy | `src/app/page.tsx` |
| `Upload` | upload.dfy | `src/components/UploadSection.tsx` |

The route runs one producer, the local image-processing process, at most once
per usable Stability key, in order, until one succeeds (`src/app/api/generate/route.ts:38-61`).

## Model

| member | source | states |
|---|---|---|
| Sequences.Filter | src/app/page.tsx:30-37 | `filter` keeps exactly the elements that satisfy the predicate. Every kept element satisfies it, every satisfying input element is kept, and the length equals the number of satisfying elements. |
| Sequences.FilterIsSubsequence | src/app/page.tsx:30-37 | The filtered list is an ordered subsequence of its input, so relative order is preserved. |
| Sequences.FilterAppend | src/app/page.tsx:30-37 | Filtering a concatenation gives the concatenation of the filtered parts. |
| Sequences.FilterKeepsAll | src/app/page.tsx:30-37 | When every element satisfies the predicate, filtering returns the input unchanged. |
| Sequences.ContainsIffOccurs | src/app/page.tsx:34-35 | `includes(t)` holds exactly when `t` occurs at some position of the string. |
| Keys.PresentKeys | src/lib/gemini.ts:3-8 | `filter(Boolean)` on configured keys drops unset and empty values. Every key left is non-empty, a key is kept iff it was configured and non-empty, and the number of keys is exactly the number of usable configured values. |
| Keys.PresentKeysAppend | src/lib/gemini.ts:3-8 | The key list of concatenated configurations is the concatenation of their key lists, so configuration order is kept. |
| Keys.PresentKeysAllSet | src/lib/gemini.ts:3-8 | When every configured value is set and non-empty, all of them are kept, position by position. |
| Keys.PairKeys | src/app/api/generate/route.ts:29-32 | For two variables: the primary key, if usable, followed by the secondary key, if usable. |
| Gemini.ApiKeys | src/lib/gemini.ts:3-8 | `getApiKeys` returns at most two non-empty keys, one per usable variable. The primary key comes first. |
| Gemini.GetGeminiModel | src/lib/gemini.ts:10-18 | Fails with "All Gemini API keys have been exhausted." exactly when `index >= keys.length`. Otherwise the model is built from `keys[index]` with the requested model name. |
| Gemini.GenerateWithFallback | src/lib/gemini.ts:20-36 | Characterised through the first-success reference. With no key at `index`, it fails with the exhaustion error and `fn` is never called. Otherwise it returns the first success from `index` on and tries exactly the keys `index..i`. If every key fails, it tries all remaining keys and propagates the last key's error. |
| Gemini.FallbackTriesKeysInOrder | src/lib/gemini.ts:27-32 | Keys are tried in strictly increasing, consecutive order starting at `index`. At most `keys.length - index` keys are tried. One client is constructed per attempt, in attempt order, and the keys it receives are exactly the slice `keys[index..index + n]` for `n` attempts. |
| Gemini.SuccessStopsFallback | src/lib/gemini.ts:27-28 | If key `i` succeeds and all keys before it fail, key `i`'s value is returned and no key after `i` is tried. |
| Gemini.NoKeysNeverInvokes | src/lib/gemini.ts:12-13 | With no usable key, the call fails with the exhaustion error and `fn` is never invoked. |
| Gemini.FirstKeySucceeds | src/tests/gemini.test.ts:22-40 | With `GEMINI_API_KEY` "key1" and `GEMINI_API_KEY_SECONDARY` "key2", a first call that succeeds returns its value after building only the "key1" client. The test file itself sets other variables (see Findings). |
| Gemini.SecondKeyRescues | src/tests/gemini.test.ts:42-61 | With `GEMINI_API_KEY` "key1" and `GEMINI_API_KEY_SECONDARY` "key2": if the first key is rejected and the second succeeds, the second value is returned, after building clients for "key1" and then "key2". The test file itself sets other variables (see Findings). |
| Gemini.AllKeysRejected | src/tests/gemini.test.ts:63-78 | With `GEMINI_API_KEY` "key1" and `GEMINI_API_KEY_SECONDARY` "key2": if both keys are rejected, two attempts are made and the rejection "Quota exceeded" surfaces. The test file itself sets other variables (see Findings). |
| Gemini.TestEnvironmentHasNoKeys | src/tests/gemini.test.ts:9-10 | With the variables the test file sets, `getApiKeys` finds no key, so the call fails with "All Gemini API keys have been exhausted." before any client is built. It fails neither with a value nor with "Quota exceeded". |
| Outcomes.FirstOkIsLeastSuccess | src/lib/gemini.ts:27-34 | The reference finds exactly the least successful index at or after the start. |
| Escaping.EscapeQuotes | src/app/api/generate/route.ts:41 | `replace(/"/g, '\\"')` puts a backslash before every quote. Output length is input length plus the number of quotes, the number of quotes is unchanged, and the result never starts with a bare quote. |
| Escaping.UnescapeEscapeQuotes | src/app/api/generate/route.ts:41 | Un-escaping `\"` from left to right gives back the original prompt, including any backslashes it contained. |
| Escaping.EscapeForShell | src/app/api/generate/route.ts:41 | The corrected escaping puts a backslash before each of `"`, `\`, `$` and backquote, so the output grows by exactly the number of such characters. |
| Escaping.EscapeForShellRoundTrip | src/app/api/generate/route.ts:41-44 | With the corrected escaping, the shell reads back exactly the prompt and stops right after the closing quote, whatever follows it. |
| Escaping.EscapeQuotesAgreesOnPlainText | src/app/api/generate/route.ts:41 | For prompts without `\`, `$` or backquote, the as-written escaping equals the corrected one. |
| Escaping.EscapeQuotesLosesTrailingBackslash | src/app/api/generate/route.ts:41 | With the as-written escaping, the one-character prompt `\` is not read back by the shell. |
| Escaping.EscapeQuotesLeavesExpansion | src/app/api/generate/route.ts:41 | With the as-written escaping, every prompt starting with `$(` (such as `$(id)`) starts a shell expansion instead of being passed literally. |
| Route.EffectivePrompt | src/app/api/generate/route.ts:14 | An absent or empty prompt becomes "a photographic 360 panorama". Any other prompt is kept as given. The result is never empty. |
| Route.EffectivePromptIdempotent | src/app/api/generate/route.ts:14 | Applying the prompt default a second time changes nothing. |
| Route.StabilityKeys | src/app/api/generate/route.ts:29-32 | `stabilityKeys` holds exactly the set, non-empty values of `STABILITY_API_KEY` and `NZ_STABILITY_API_KEY`. `STABILITY_API_KEY` comes first. The list is empty iff neither is usable and has two entries iff both are, even when they are equal. |
| Route.PromptArgument | src/app/api/generate/route.ts:41 | The prompt argument is the defaulted prompt in double quotes, with every inner `"` preceded by a backslash: un-escaping the text between the quotes gives back the prompt. It is two characters longer than the prompt plus its number of quotes. |
| Route.PromptArgumentReadsBack | src/app/api/generate/route.ts:14-41 | For a prompt without `\`, `$` or backquote, the shell hands the process exactly the defaulted prompt, whatever follows the argument on the command line. |
| Route.PromptArgumentLosesBackslash | src/app/api/generate/route.ts:41 | For the prompt `\`, the shell does not hand over the prompt. |
| Route.SafePromptArgument | src/app/api/generate/route.ts:41 | The corrected prompt argument: every `"`, `\`, `$` and backquote is escaped, so it is two characters longer than the prompt plus its number of such characters. |
| Route.SafePromptArgumentReadsBack | src/app/api/generate/route.ts:14-41 | With the corrected argument, the shell hands the process exactly the defaulted prompt, for every prompt. |
| Route.KeyLoop | src/app/api/generate/route.ts:38-61 | The loop ends at the first key whose run succeeds, uses that key's image, and has run `k + 1` keys. If every key fails, it ends by re-throwing the last key's error after running all keys. With no keys, it ends with no result. |
| Route.FailureResponse | src/app/api/generate/route.ts:74-79 | A failure answers with status 500 and a non-empty message: the error's own message, or "Failed to process panorama" when that is empty. |
| Route.Handle | src/app/api/generate/route.ts:12-79 | Status 200 iff success, and success always carries method "cv_ai_hybrid" and the first successful image. A staging error, or every key failing, gives status 500 with the corresponding message. Zero keys give "All image processing attempts failed.". |
| Route.KeyLoopAgreesWithGeminiFallback | src/app/api/generate/route.ts:38-61 | For a non-empty key list, the route's key loop and the Gemini fallback give the same success, the same error and the same number of attempts for the same per-key outcomes. |
| Route.NoKeysLoopsDiffer | src/app/api/generate/route.ts:38-79 | With no keys the two differ. The Gemini fallback fails with "All Gemini API keys have been exhausted." and calls nothing. The route's loop ends without a result, and the route answers 500 "All image processing attempts failed.". |
| Route.NoStabilityKeyFails | src/app/api/generate/route.ts:29-65 | With neither Stability variable usable, no process is run and the route answers 500 "All image processing attempts failed.". |
| Route.KeyLoopStopsAtFirstSuccess | src/app/api/generate/route.ts:50-52 | If key `k` is the first success, the loop's result is key `k`'s image after `k + 1` runs. |
| Upload.AddFiles | src/components/UploadSection.tsx:16-20 | Picked files are appended: the existing files are an unchanged prefix and the new ones follow in order. No file list means no change. |
| Upload.RemoveFile | src/components/UploadSection.tsx:22-24 | For an in-range index, the result is the list without exactly that element. For an out-of-range index, the list is unchanged. |
| Upload.RemoveFileDropsOne | src/components/UploadSection.tsx:23 | Removing an in-range index shortens the list by one and removes exactly one occurrence of that file from the multiset. |
| Upload.RemoveUndoesAdd | src/components/UploadSection.tsx:18-23 | Picking one file and then removing it at its position restores the previous list. |
| Upload.Click | src/components/UploadSection.tsx:98-100 | The button fires iff not generating and (prompt non-empty or at least one file). When it fires, the page receives the prompt and file list unchanged. |
| Page.LoadHistory | src/app/page.tsx:23-45 | Stored records that are an array become the filtered history: an ordered subsequence made of exactly the records with stable URLs. The first record, if any, becomes current, otherwise current is unchanged. Any other stored value leaves the state unchanged. |
| Page.PersistHistory | src/app/page.tsx:47-63 | An empty history writes nothing. Otherwise the first `min(10, n)` entries are written, or `min(3, n)` when the first write fails. When both writes fail, storage is unchanged. Anything written is a non-empty prefix of at most 10 entries. |
| Page.PersistThenLoad | src/app/page.tsx:23-57 | A history with only stable URLs survives write-back and reload as the written prefix, with its newest entry shown. |
| Page.NewPanorama | src/app/page.tsx:84-89 | The new entry keeps the response URL, id and time. Its prompt is the given prompt, or exactly "Generated from photos" when that is empty. |
| Page.HandleGenerate | src/app/page.tsx:65-99 | On success the history grows by one at the front, the tail is the old history, and the new entry is current. On a non-ok or non-success response, or a rejected request, history and current are unchanged and the alert is "Generation Error: " plus the message. Generating is off afterwards. |
| Page.RouteSuccessReachesGallery | src/app/page.tsx:80-92 | When the route succeeds, the gallery gains the first successful key's image at the front and shows it. |
| Page.RouteFailureReachesAlert | src/app/page.tsx:80-95 | When every key fails, the gallery is unchanged and the alert carries the last key's error, or the pipeline fallback message when that error is empty. |
| Page.PhotoFreeRequestKeepsPrompt | src/components/UploadSection.tsx:99-100 | A request the button lets through without photos carries a non-empty prompt. Neither the route nor the gallery replaces it with a default. |
| Page.GenerateThenPersist | src/app/page.tsx:48-57 | After a success and a full write, storage starts with the new panorama, followed by at most nine older entries in order. |
| Page.LoadsLocalRecord | src/tests/page.test.tsx:70-86 | A stored history with one local-path record loads as that record, and that record is shown. |

## Left out

- Route I/O. Reading the form, writing uploaded images to temporary files, cleanup in `finally`, running the Python process and `JSON.parse` of its output are not modelled. Staging is one optional error message, and each key's run is one abstract outcome. `stderr` without `stdout`, a thrown parse error and `success: false` are all a failure carrying a message. A missing `parsed.error` reads as the empty message.
- The command line apart from the prompt argument is not modelled. That covers the script path, the key and the image paths, none of which the user controls.
- Escaping.ReadDoubleQuoted: every unescaped `$` counts as the start of an expansion. A shell treats `$` followed by a space literally, so the reader is stricter than the shell. This does not affect the corrected escaping, which escapes every `$`. `Escaping.EscapeQuotesLeavesExpansion` is stated only for prompts starting with `$(`, a command substitution, so it does not rest on the stricter rule.
- Route.PromptArgumentReadsBack: holds only for prompts without `\`, `$` or backquote, because the argument as written does not protect the others (see Findings). `Route.SafePromptArgumentReadsBack` covers every prompt.
- Gemini.GenerateWithFallback: `index` is a natural number. The source only ever calls it with the default 0 and with `index + 1`. The key list is assumed constant across the recursion, though the source re-reads the environment on every call.
- Per-key outcomes are a sequence aligned with the key list. What `fn` and the process do with a key, including the model name, is left to those outcomes.
- Console logging and the `alert` dialog are left out. The alert text is modelled and its display is not.
- Page.LoadHistory: stored records are typed, so a `null` record or a truthy non-string `url` (on which the source throws inside its `try` and keeps the history as it was) is not modelled. A missing url is the empty string, which the URL test rejects as the source does; a falsy `url` such as `null`, `0` or `false` is dropped by the source in the same way, and the empty string covers it here.
- Timestamps are integers. The `Date` becoming a string through JSON, and the random id, are parameters.
- The state while a request is running (`isGenerating` true) is not modelled. Only its effect on the button (`Upload.Click`) and the final state are.
- Selecting a gallery entry (`setCurrentPano(pano)` on click) and all rendering, animation and auth UI (`Navbar`, `PanoramaViewer`, `layout`) are left out, as presentation code.
- `scripts/processor.py` and `scripts/test-keys.js` are not part of this model. The first is image stitching and an HTTP call, with canvas sizes that are never assigned. The second is a network smoke test.
- `src/tests/api.test.ts` expects an `error` field that the route never returns (it returns `message`), so it is not used as evidence.

## Findings

| source | as written | input that shows it | evidently intended | confidence | as-written member | corrected member |
|---|---|---|---|---|---|---|
| src/app/api/generate/route.ts:41 | Only `"` is backslash-escaped before the prompt goes between double quotes on a command line run by the shell. | The prompt `\`: the shell reads the backslash and the closing quote as a literal `"`. The prompt `$(id)`: the shell runs a command substitution. | The prompt reaches the process as one literal argument. That needs `\`, `$` and backquote escaped as well as `"`. | medium (assumes a POSIX shell runs the command); not executed | Route.PromptArgumentLosesBackslash | Route.SafePromptArgumentReadsBack |
| src/tests/gemini.test.ts:9-10 | The fallback tests set `Gemini_API` and `AULouis_Gemini_API`. `getApiKeys` reads `GEMINI_API_KEY` and `GEMINI_API_KEY_SECONDARY` (src/lib/gemini.ts:5-6). | The environment as the file sets it: no key is found, so every call rejects with "All Gemini API keys have been exhausted.". That contradicts the expectations at lines 37-39, 57-60 and 73-77. | The tests set `GEMINI_API_KEY` to "key1" and `GEMINI_API_KEY_SECONDARY` to "key2". | medium (the variables might be set outside the file); not executed | Gemini.TestEnvironmentHasNoKeys | Gemini.SecondKeyRescues |

`Route.PromptArgument` models the escaping as written. `Escaping.EscapeQuotesLosesTrailingBackslash` and `Escaping.EscapeQuotesLeavesExpansion` show it failing on `\` and `$(id)`. `Route.SafePromptArgument` is the corrected argument, built with `Escaping.EscapeForShell`. `Escaping.EscapeQuotesAgreesOnPlainText` shows the two escapings agree on prompts without `\`, `$` or backquote. `Gemini.FirstKeySucceeds`, `Gemini.SecondKeyRescues` and `Gemini.AllKeysRejected` state the three tests' expectations under the variable names `getApiKeys` reads.
