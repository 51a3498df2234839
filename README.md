# Command palette core, modelled in Dafny

This project models the three pieces of logic in the command palette desktop
app that can be stated exactly:

- **The tool-call classifier** `isLLMToolCallResponse` (`src/lib/helpers.ts`).
  It is a duck-typed test that decides whether a backend reply is a tool call
  waiting for the human's confirmation. The model is module `Helpers`. It
  follows the test branch for branch over a JavaScript value (`JsValues.Json`).
  Its exact acceptance condition is proved, and it is compared against the
  TypeScript shapes it claims to guard.
- **The confirmation dialog** (`src/app/command-palette/components/confirmation-dialog.tsx`):
  - `formatValue`;
  - the label construction and capitalisation of `getDisplayParams`;
  - the tool-name humaniser;
  - which callback each dialog action fires.

  This is module `ConfirmationDialog`. `getDisplayParams` keeps the source's
  form: a collector object whose `result` sequence a recursive `ProcessObject`
  appends to from a loop over the entries. It is proved equal to the pure
  specification `ObjectParams`, and the properties of the reviewed list are
  proved about that function.
- **The submit handler** `handleCommand` of the page
  (`src/app/command-palette/page.tsx`). This is module `CommandPalettePage`:
  a class with the `response` and `loading` fields. Its methods perform the
  blank-input guard, the `setLoading` / `setResponse` steps, the extraction
  `data?.choices?.[0]?.message?.content ?? "No response content"`, and the
  error fallback.

There are two support modules:

- `JsValues` gives the JavaScript operations the code relies on: `typeof`,
  property reads, `in`, optional chaining, truthiness and `String(v)`.
- `Text` gives `split`, `join`, `trim`, global single-character
  `replace`, and the "capitalise each word" idiom.

  `Split` and `Join` are proved inverse to each other (`Text.JoinSplit`,
  `Text.SplitJoin`). Title-casing is proved equal to a character-by-character
  description (`Text.TitleCaseAt`).

### Modelling choices

- **Objects.** An object is its ordered list of own entries, in
  `Object.entries` order. A property read takes the first entry with the key.
  Reading a property of `null` or `undefined` throws in JavaScript, so the
  model makes it a precondition. Every guarded read in the code meets that
  precondition.
- **The network.** The network is a parameter. `FetchOutcome.Fetched(data)`
  is a response whose body decoded to `data`, whatever its HTTP status.
  `Failed` is a rejected `fetch` or a body that is not JSON. In
  `HandleCommand`, the backend is a function from request body to outcome.
- **Where the code is followed over the design description.**
  - The design describes a tool call as having a non-empty id. The classifier
    accepts any string, `""` included (`Helpers.LooseToolCallChecksAccepted`).
  - The design describes the tool call's arguments as an object. The
    classifier accepts anything whose `typeof` is `"object"`, which includes
    `null` and arrays.
  - The model follows the code in both cases.
- **`arguments` versus `args`.** The classifier's `ToolCall` carries its
  arguments under `arguments` (`src/lib/helpers.ts:5`). The dialog's own
  `ToolCall` reads them from `args`
  (`src/app/command-palette/components/confirmation-dialog.tsx:15,38`). The
  model keeps both field names. `Helpers.ClassifiedToolCallHasNoArgs` states
  that a value of the classifier's shape has no `args` key.
- **Declared types versus the runtime test.** `tool_calls` is optional in
  `ExtendedMessage`. The classifier requires the key only of a message whose
  content is null. A message with string content and a string role passes
  without it, by the simple-message test at `src/lib/helpers.ts:65-67`
  (`Helpers.ExtendedMessageAccepted`, `Helpers.EncodedResponseAccepted`,
  `Helpers.NullContentNeedsToolCallsKey`).
  Type annotations are not behaviour, so this is stated as a lemma and the
  model follows the runtime test.

## Model

| member | source | states |
|---|---|---|
| Helpers.IsLLMToolCallResponse | src/lib/helpers.ts:42-81 | The classifier, branch for branch: a plain object; `verification_required` is the boolean true; `tool_call` is a non-null object whose `id` and `tool_name` are strings and whose `arguments` has typeof "object"; `message` is an array whose every element passes `IsAcceptedMessage`. Its exact acceptance condition is `Helpers.AcceptanceCondition`. |
| Helpers.IsAcceptedMessage | src/lib/helpers.ts:61-80 | The `every` callback: a non-null object that is a simple message (string content and role) or an extended one (string or null content, string role, and the four keys present). Simplified by `Helpers.MessageAcceptedIffShape`. |
| Helpers.AcceptanceCondition | src/lib/helpers.ts:42-81 | The classifier accepts a value if and only if all of these hold: it is a plain object; `verification_required` is the boolean true; `tool_call` is a plain object with string `id` and `tool_name` and an `arguments` whose typeof is "object" (null, array or object); `message` is an array every element of which has the accepted message shape. |
| Helpers.MessageAcceptedIffShape | src/lib/helpers.ts:61-80 | An element passes the `every` callback if and only if all of these hold: it is a plain object with a string `role`; its `content` is a string, or its `content` is null and all four keys `refusal`, `audio`, `function_call` and `tool_calls` are present. |
| Helpers.RejectsNonObjects | src/lib/helpers.ts:43-45 | Null, undefined, booleans, numbers, strings and arrays are all rejected. |
| Helpers.FlagMustBeTrue | src/lib/helpers.ts:48 | Any `verification_required` other than the boolean true is rejected, including a missing key, `false`, `"true"` and `1`. |
| Helpers.ToolCallMustBeObject | src/lib/helpers.ts:49 | A `tool_call` that is missing, null, a primitive or an array is rejected. |
| Helpers.MessageMustBeArray | src/lib/helpers.ts:60 | A `message` that is not an array is rejected, whatever the other keys hold. |
| Helpers.OneBadMessageRejects | src/lib/helpers.ts:61-80 | A single message element of the wrong shape rejects the whole response. |
| Helpers.OnlyInspectedKeysMatter | src/lib/helpers.ts:42-81 | Two objects that agree on `verification_required`, `tool_call` and `message` get the same verdict. |
| Helpers.ExtraEntryIgnored | src/lib/helpers.ts:35-81 | Inserting an entry under any other key (`tool_hit` among them), at any position, does not change the verdict. |
| Helpers.MinimalToolCallVerdict | src/lib/helpers.ts:51-58 | For a response with a flag of true, an empty message array and a tool call with any string id and tool name, the verdict is accepted if and only if `arguments` is null, an array or an object. |
| Helpers.LooseToolCallChecksAccepted | src/lib/helpers.ts:51-61 | Each of these is accepted: an empty id; an empty tool name; `arguments` of null or of an empty array; an empty message array; a missing `tool_hit`. |
| Helpers.ArgumentsMustHaveObjectType | src/lib/helpers.ts:55 | `arguments` that is missing or is a boolean, number or string is rejected. |
| Helpers.NullContentNeedsToolCallsKey | src/lib/helpers.ts:69-77 | A null-content message with `refusal`, `audio` and `function_call` but no `tool_calls` key is rejected. The same message with `tool_calls` present, even as undefined, is accepted. |
| Helpers.EncodeMessages | src/lib/helpers.ts:33-38 | The JSON form of a message list encodes each message in place. |
| Helpers.SimpleMessageAccepted | src/lib/helpers.ts:65-67 | Every value of the declared simple `Message` type passes the element test. |
| Helpers.ExtendedMessageAccepted | src/lib/helpers.ts:69-79 | A value of the declared `ExtendedMessage` type passes the element test if and only if its content is a string or it carries `tool_calls`. |
| Helpers.EncodedMessageAccepted | src/lib/helpers.ts:10-31 | A value of the declared `Message` or `ExtendedMessage` type passes the element test if and only if it is a simple message, or its content is a string, or it has `tool_calls`. |
| Helpers.EncodedResponseAccepted | src/lib/helpers.ts:35-40 | A value of the declared `LLMToolCallResponse` type is classified as one if and only if its flag is true and every message is admitted in the sense above. Well-typed extended messages with null content and no `tool_calls` are turned away. |
| Helpers.ClassifiedToolCallHasNoArgs | src/lib/helpers.ts:2-6 | A tool call of the classifier's shape has the key `arguments` and lacks the key `args` that the dialog reads. |
| JsValues.TypeOf | src/lib/helpers.ts:43 | `typeof`: null, arrays and objects are "object"; undefined, booleans, numbers and strings have their own tags. |
| JsValues.Get | src/lib/helpers.ts:48 | A property read: the value of the first entry with the key, or undefined when there is none or the value is not an object. Reading from null or undefined throws, so it is excluded. |
| JsValues.Has | src/lib/helpers.ts:72-75 | The `in` test: the object has an own entry with the key, whatever its value, undefined included. |
| JsValues.OptionalGet | src/app/command-palette/page.tsx:37 | `v?.key`: undefined when v is null or undefined, otherwise the property read. |
| JsValues.OptionalFirst | src/app/command-palette/page.tsx:37 | `v?.[0]`: the first element of a non-empty array, the first character of a non-empty string, the property "0" of an object, and undefined otherwise. |
| JsValues.Truthy | src/app/command-palette/page.tsx:61-66 | JavaScript truthiness: null, undefined, false, 0 and "" are falsy; everything else, empty arrays and objects included, is truthy. |
| Text.TrimBlank | src/app/command-palette/page.tsx:19 | `trim()` never lengthens a string. It gives "" if and only if every character is whitespace. Otherwise neither end of its result is whitespace. |
| Text.TrimStartSpec | src/app/command-palette/components/confirmation-dialog.tsx:74 | Trimming the start leaves a suffix of the input. Everything cut is whitespace, and the result does not start with whitespace. |
| Text.TrimEndSpec | src/app/command-palette/components/confirmation-dialog.tsx:74 | Trimming the end leaves a prefix of the input. Everything cut is whitespace, and the result does not end with whitespace. |
| Text.ReplaceAllAt | src/app/command-palette/components/confirmation-dialog.tsx:75 | `replace(/_/g, " ")` turns every underscore into a space and keeps every other character in place. |
| Text.SplitPartsFree | src/app/command-palette/components/confirmation-dialog.tsx:78 | No part of `split(sep)` contains the separator. |
| Text.JoinSplit | src/app/command-palette/components/confirmation-dialog.tsx:77-80 | Joining the parts of `split(sep)` with the same separator gives back the string. |
| Text.SplitJoin | src/app/command-palette/components/confirmation-dialog.tsx:77-80 | Splitting a join of separator-free parts gives back the parts. |
| Text.TitleCaseAt | src/app/command-palette/components/confirmation-dialog.tsx:41-44 | split, then capitalise each word, then join with " " keeps the length. Each separator becomes a space, exactly the word-initial characters are upper-cased, and all others are kept. |
| JsValues.Digits | src/app/command-palette/components/confirmation-dialog.tsx:60 | The decimal form of a natural number is non-empty, consists only of digits and has no leading zero. |
| JsValues.NumberToString | src/app/command-palette/components/confirmation-dialog.tsx:60 | `String(n)` of an integer is non-empty and starts with '-' exactly when n is negative. |
| JsValues.DigitsValue | src/app/command-palette/components/confirmation-dialog.tsx:60 | The digits of n, read back as a decimal numeral, denote n. |
| JsValues.NumberToStringValue | src/app/command-palette/components/confirmation-dialog.tsx:60 | `String(n)` of an integer, read back as a signed decimal numeral, denotes n. |
| JsValues.NumberToStringInjective | src/app/command-palette/components/confirmation-dialog.tsx:60 | Two integers have the same `String` form if and only if they are equal. |
| ConfirmationDialog.FormatValue | src/app/command-palette/components/confirmation-dialog.tsx:47-61 | `formatValue`: "" for null and undefined; the ", "-join of the element renderings for an array; the ", "-join of "k: v" over the non-skipped entries for an object; `String(value)` otherwise. Stated kind by kind in `ConfirmationDialog.FormatValueByKind`. |
| ConfirmationDialog.FormatEntries | src/app/command-palette/components/confirmation-dialog.tsx:53-57 | The filter-then-map over `Object.entries`, fused into one pass. `ConfirmationDialog.FormatEntriesOfKept` proves it equal to filter, then map. |
| ConfirmationDialog.FormatItems | src/app/command-palette/components/confirmation-dialog.tsx:49-51 | `items.map(formatValue)` has one rendering per element, in order. |
| ConfirmationDialog.Kept | src/app/command-palette/components/confirmation-dialog.tsx:55 | The filter keeps no null, undefined or "" value and never grows the list. |
| ConfirmationDialog.KeptMembers | src/app/command-palette/components/confirmation-dialog.tsx:55 | An entry survives the filter if and only if it is an entry of the object and its value is not null, undefined or "". |
| ConfirmationDialog.KeptAppend | src/app/command-palette/components/confirmation-dialog.tsx:55 | The filter keeps order: filtering a concatenation gives the filtered parts, concatenated in the same order. |
| ConfirmationDialog.FormatEntriesOfKept | src/app/command-palette/components/confirmation-dialog.tsx:53-57 | An object's entry strings are exactly "k: formatValue(v)" for each kept entry, in key order. |
| ConfirmationDialog.FormatValueByKind | src/app/command-palette/components/confirmation-dialog.tsx:47-61 | formatValue gives "" for null and undefined; the ", "-join of the element renderings for an array; the ", "-join of "k: v" over the kept entries for an object; the string itself for a string; "true" or "false" for a boolean; and `String(n)` for a number. |
| ConfirmationDialog.SkippedEntriesInvisible | src/app/command-palette/components/confirmation-dialog.tsx:53-57 | Removing the null, undefined and "" entries first leaves an object's rendering unchanged. |
| ConfirmationDialog.KeptEntriesFormatAlike | src/app/command-palette/components/confirmation-dialog.tsx:53-57 | Rendering the kept entries gives the same entry strings as rendering all of them. |
| ConfirmationDialog.FormatArrayAppend | src/app/command-palette/components/confirmation-dialog.tsx:49-51 | The rendering of a concatenation of two non-empty arrays is the renderings of the two halves joined by ", ". |
| ConfirmationDialog.Label | src/app/command-palette/components/confirmation-dialog.tsx:73-75 | The un-capitalised label: under a non-empty prefix, `prefix + " " + key` trimmed; at the top level (empty prefix), the key with every underscore turned into a space. |
| ConfirmationDialog.Capitalize | src/app/command-palette/components/confirmation-dialog.tsx:77-80 | Split the label on " ", capitalise each word, join with " ". Stated character by character in `ConfirmationDialog.CapitalizeAt`. |
| ConfirmationDialog.CapitalizeAt | src/app/command-palette/components/confirmation-dialog.tsx:77-80 | The label keeps its length, and exactly the first character of each space-separated word is upper-cased. |
| ConfirmationDialog.FormattedToolName | src/app/command-palette/components/confirmation-dialog.tsx:41-44 | Split the tool name on "_", capitalise each word, join with " ". Stated character by character in `ConfirmationDialog.FormattedToolNameAt`. |
| ConfirmationDialog.FormattedToolNameAt | src/app/command-palette/components/confirmation-dialog.tsx:41-44 | The tool name keeps its length, every underscore becomes a space, exactly the word-initial characters are upper-cased, and no underscore remains. |
| ConfirmationDialog.EntryParams | src/app/command-palette/components/confirmation-dialog.tsx:68-91 | What one entry contributes: nothing for null, undefined or ""; the params of a plain object under the entry's un-capitalised label; otherwise one param of the capitalised label and formatValue of the value. |
| ConfirmationDialog.ObjectParams | src/app/command-palette/components/confirmation-dialog.tsx:67-92 | What `processObject(obj, prefix)` pushes: the entries' contributions in key order. |
| ConfirmationDialog.Leaves | src/app/command-palette/components/confirmation-dialog.tsx:70-90 | No reviewed leaf is null, undefined, "" or a plain object. |
| ConfirmationDialog.ObjectLeaves | src/app/command-palette/components/confirmation-dialog.tsx:68-91 | The same holds for the leaves of every entry of an object, taken in key order. |
| ConfirmationDialog.EntryParamsFollowLeaves | src/app/command-palette/components/confirmation-dialog.tsx:68-91 | An entry gives one param per leaf of its value, in depth-first order, each showing formatValue of that leaf. |
| ConfirmationDialog.ObjectParamsFollowLeaves | src/app/command-palette/components/confirmation-dialog.tsx:64-96 | The reviewed list has exactly one param per leaf of the argument tree, in depth-first key order, each showing formatValue of that leaf. A leaf is a value that is neither null, undefined, "" nor a plain object. So no entry whose raw value is null, undefined or "" gets a param, at any depth. A value whose rendering is "" (such as an empty array) still gets one. |
| ConfirmationDialog.ObjectParamsAppend | src/app/command-palette/components/confirmation-dialog.tsx:68 | Output order is key order: the params of a concatenation of entries are the concatenation of their params. |
| ConfirmationDialog.EntryParamsFollowPaths | src/app/command-palette/components/confirmation-dialog.tsx:68-91 | An entry gives one param per key path from the entry to a leaf, in depth-first order. Each param is labelled with the capitalised label built along its path. |
| ConfirmationDialog.ObjectParamsFollowPaths | src/app/command-palette/components/confirmation-dialog.tsx:67-92 | At any depth, the i-th param of an object is labelled Capitalize(PathLabel(prefix, path)), where path is the key path to the i-th leaf and each key is labelled under the label of the key before it. |
| ConfirmationDialog.DisplayParamsByLeaf | src/app/command-palette/components/confirmation-dialog.tsx:64-96 | The reviewed list in full: the i-th param is the i-th leaf's rendering under the capitalised label of the i-th leaf's key path. |
| ConfirmationDialog.EmptyKeyTransparent | src/app/command-palette/components/confirmation-dialog.tsx:73-75 | A top-level key "" gives the empty label, so its children are labelled as if they were top-level keys, with underscores turned into spaces. |
| ConfirmationDialog.ObjectParamsSnoc | src/app/command-palette/components/confirmation-dialog.tsx:68 | Processing one more entry appends exactly that entry's params. |
| ConfirmationDialog.TopLevelLeaf | src/app/command-palette/components/confirmation-dialog.tsx:73-89 | A top-level leaf is labelled with its key, underscores turned into spaces, capitalised. |
| ConfirmationDialog.NestedLeaf | src/app/command-palette/components/confirmation-dialog.tsx:73-84 | A leaf one level below a top-level key whose label (underscores as spaces) is not empty is labelled trim(parent label + " " + key), capitalised. The parent label is taken before capitalisation, and the nested key keeps its underscores. |
| ConfirmationDialog.EmptyObjectContributesNothing | src/app/command-palette/components/confirmation-dialog.tsx:83-84 | An empty nested object adds no param. |
| ConfirmationDialog.TwoItemArrayValue | src/app/command-palette/components/confirmation-dialog.tsx:49-51 | `["x", "y"]` renders as "x, y". |
| ConfirmationDialog.TopLevelLabelText | src/app/command-palette/components/confirmation-dialog.tsx:75-80 | The top-level key "tags" is labelled "Tags". |
| ConfirmationDialog.ArrayIsOneParam | src/app/command-palette/components/confirmation-dialog.tsx:83-89 | `{tags: ["x", "y"]}` gives exactly one param, "Tags" = "x, y". |
| ConfirmationDialog.NestedLabelJoined | src/app/command-palette/components/confirmation-dialog.tsx:73-75 | Under the top-level key "a", the key "b_c" gets the un-capitalised label "a b_c". |
| ConfirmationDialog.NestedLabelCapitalized | src/app/command-palette/components/confirmation-dialog.tsx:77-80 | The label "a b_c" is capitalised to "A B_c". |
| ConfirmationDialog.EmptyArrayShownBlank | src/app/command-palette/components/confirmation-dialog.tsx:70-89 | `{tags: []}` gives exactly one param, "Tags" = "": the skip test looks at the raw value, not at its rendering. |
| ConfirmationDialog.NullItemShownBlank | src/app/command-palette/components/confirmation-dialog.tsx:70-89 | `{tags: [null]}` likewise gives exactly one param, "Tags" = "". |
| ConfirmationDialog.NestedKeyKeepsUnderscores | src/app/command-palette/components/confirmation-dialog.tsx:73-84 | `{a: {b_c: "x"}}` gives exactly one param, "A B_c" = "x". |
| ConfirmationDialog.ParamCollector.constructor | src/app/command-palette/components/confirmation-dialog.tsx:65 | The result array starts empty. |
| ConfirmationDialog.ParamCollector.Push | src/app/command-palette/components/confirmation-dialog.tsx:86-89 | `result.push` appends one param and changes nothing else. |
| ConfirmationDialog.ParamCollector.ProcessObject | src/app/command-palette/components/confirmation-dialog.tsx:67-92 | processObject appends exactly ObjectParams(obj, prefix) to the shared result. |
| ConfirmationDialog.ParamCollector.ProcessEntry | src/app/command-palette/components/confirmation-dialog.tsx:68-91 | The forEach callback appends exactly that entry's params: nothing for a skipped value, a recursion for a plain object, one push otherwise. |
| ConfirmationDialog.GetDisplayParams | src/app/command-palette/components/confirmation-dialog.tsx:64-96 | getDisplayParams returns ObjectParams(args, ""), whose properties are the lemmas above. |
| ConfirmationDialog.Render | src/app/command-palette/components/confirmation-dialog.tsx:33-136 | Nothing is rendered without a tool call. Otherwise the view has the title, the formatted tool name, `api_name` when truthy, the params of `args`, and Confirm disabled exactly when `isConfirming` is true. |
| ConfirmationDialog.Dispatch | src/app/command-palette/components/confirmation-dialog.tsx:100-136 | Closing the dialog and Cancel fire onCancel. Confirm fires onConfirm unless it is disabled. A view that is not rendered fires nothing. |
| ConfirmationDialog.ConfirmOnlyByEnabledButton | src/app/command-palette/components/confirmation-dialog.tsx:101-127 | onConfirm fires if and only if a tool call is shown, the Confirm button is clicked and `isConfirming` is not true. Closing the dialog or clicking Cancel fires onCancel. Without a tool call nothing is rendered and nothing fires. |
| CommandPalettePage.IsBlank | src/app/command-palette/page.tsx:19 | `!value.trim()`: the trimmed input is empty. Characterised by `CommandPalettePage.BlankIffAllWhitespace`. |
| CommandPalettePage.BlankIffAllWhitespace | src/app/command-palette/page.tsx:19 | Enter is ignored if and only if every character of the input is whitespace. The empty input is included. |
| CommandPalettePage.RequestBody | src/app/command-palette/page.tsx:26-30 | The POST body `{messages: [{content: value}]}`. |
| CommandPalettePage.RequestCarriesInput | src/app/command-palette/page.tsx:26-30 | The request body's `messages[0].content` is the input exactly as typed, untrimmed. |
| CommandPalettePage.ContentPath | src/app/command-palette/page.tsx:37 | The optional chain `data?.choices?.[0]?.message?.content`. |
| CommandPalettePage.ResponseContent | src/app/command-palette/page.tsx:37 | The extracted response is never null or undefined. It is the optional-chain value or "No response content". |
| CommandPalettePage.FirstChoiceContentShown | src/app/command-palette/page.tsx:37 | When `choices[0].message.content` exists and is not null or undefined, that value is the response. This includes "" and other falsy values, because `??` is used. |
| CommandPalettePage.MissingContentFallsBack | src/app/command-palette/page.tsx:37 | A nullish content path gives exactly the fallback "No response content". So do a non-object body, a missing `choices` and an empty `choices`. |
| CommandPalettePage.Settled | src/app/command-palette/page.tsx:37-42 | What a settled request stores is never null or undefined. A failure stores exactly "Error processing command". |
| CommandPalettePage.SettledVisibility | src/app/command-palette/page.tsx:66-72 | The Response group stays hidden after a request only if the backend's own content was a falsy non-nullish value. The fallback and the error text are always shown. |
| CommandPalettePage.CommandDemo.constructor | src/app/command-palette/page.tsx:15-16 | The page starts with a null response and not loading. |
| CommandPalettePage.CommandDemo.ResponseShown | src/app/command-palette/page.tsx:66-72 | The Response group is rendered exactly when `response` is truthy. |
| CommandPalettePage.CommandDemo.ProcessingShown | src/app/command-palette/page.tsx:61-65 | The Processing group is rendered exactly while `loading`. |
| CommandPalettePage.CommandDemo.Begin | src/app/command-palette/page.tsx:19-21 | Blank input sends nothing and changes nothing. Otherwise `loading` becomes true before the request, so Processing is shown; `response` is untouched, so the Response group's visibility is unchanged; and the request body is the one built from the input. |
| CommandPalettePage.CommandDemo.Complete | src/app/command-palette/page.tsx:37-43 | After the request settles, on success and on failure alike, `response` is the settled value and `loading` is false, so Processing is hidden. A failure always shows the Response group. The group stays hidden only if the backend's content was a falsy value that is not null or undefined. |
| CommandPalettePage.CommandDemo.HandleCommand | src/app/command-palette/page.tsx:18-45 | One whole submit: blank input makes no call and changes no state. Otherwise the backend is asked with the untrimmed input, `response` becomes the settled value of its answer, and `loading` ends false. |

## Left out

- Speech-to-text recording and transcription, the Tauri shell (`src-tauri/src/lib.rs`), and the static pages and routing. They are browser or framework I/O with no logic to state.
- The HTTP request itself, `response.json()` decoding and logging. They are abstracted into the `FetchOutcome` parameter.
- React's state scheduling and the interleaving of overlapping submits. `Begin` and `Complete` are separate methods, so an interleaving can be composed from them. `HandleCommand` states only the uninterrupted run.
- Rendering details: JSX, styling, the loading spinner, the `capitalize` CSS on `api_name`, and the `key={label}` list keys, including the React warning on duplicate labels. `Render` keeps only the title, tool name, `api_name` when truthy, the params and the disabled state.
- Behaviours that no file of this core implements: a single pending-confirmation slot, the second request that confirms a tool call, discarding stale responses by tool-call id, auto-submitting transcribed text, and chained confirmations.
- Non-integral numbers, NaN and infinities. `Json.Num` holds an integer.
- NumberToString: it formats integers only, in plain decimal. Floating-point and exponent formatting of `String(n)` are left out.
- ToUpper: it upper-cases ASCII letters only. Other characters are unchanged, whereas `toUpperCase` maps all Unicode letters and can lengthen a string (for example "ß" becomes "SS").
- IsWhitespace: the ECMAScript WhiteSpace and LineTerminator characters are listed explicitly. The Unicode Zs category is fixed as of the listed code points.
- `Object.entries` ordering rules (integer-like keys first) and duplicate keys. An object's entry list is taken as given. A property read takes the first matching entry.
- Property reads on arrays and primitives always give undefined in the model. The core reads no property such as `length` or a prototype method from them.
- `console.error` on a missing tool call, and all other console output.
- A tool call of the classifier's shape reaching the dialog. `ConfirmationDialog.DialogToolCall.args` is always an object's entry list, so the model cannot express the missing `args` key or the null `arguments` the classifier accepts. In the source, either one makes `Object.entries` throw at `src/app/command-palette/components/confirmation-dialog.tsx:68`, called from line 94, so the dialog cannot render it. `Helpers.ClassifiedToolCallHasNoArgs` records only that the key is missing.
