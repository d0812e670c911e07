# AI background editor: a Dafny model of its session logic

The system is a browser front end over a remote image-generation model. It
lets a user upload a photo. The model removes the photo's background, can
optionally turn the subject into a cartoon, and then composites the subject
onto a preset image, an uploaded image or a solid colour. This project models
the parts of that front end that are logic rather than rendering:

- `App` (App.tsx): the session. Class `App.Session` has one field per
  `useState` slot and one method per event handler. Each method runs to
  completion, sets fields in the source's order, and returns the list of
  service calls it made (`Effect`). Every remote result or file read the
  handler awaits is a parameter: `Services.generate` stands for the model's
  `generateContent`, `Services.urlToImageFile` for fetching a preset, and
  `FileChoice` for the file picker and its read. Each handler also has a
  transition function on the value `State` (`UploadImage`, `Generate`, ...).
  The promises of the handler are the `ensures` of that function. Each method
  is proved to leave exactly the state its function gives. `Inv` is the
  invariant that holds between handlers.
- `GeminiService` (services/geminiService.ts): the four request shapes, the
  way an image is read out of a response (`ExtractImage`), and one
  request/response round trip (`Send`).
- `Helpers` (utils/helpers.ts): the payload expression `result.split(',')[1]`
  of a data URL, as laid out in section 3 of RFC 2397. It is modelled with a
  faithful `split` and its inverse `join`. It also models the `mimeType` field
  copies.
- `Types` (types.ts) and `Wrappers`. `Wrappers` holds `Option`, `Exception`
  (a thrown `Error` with its message, or any other thrown value) and `Settled`
  (how an awaited promise ends).

A failed upload might be expected to leave its error message on screen. The
code does something else: it sets the error (App.tsx:65) and then calls
`handleReset()` (App.tsx:66), which sets the error back to null (App.tsx:41).
The model follows the code. `App.UploadImage` states that every failed upload
ends in exactly the initial state, with no error.

## Model

| member | source | states |
|---|---|---|
| `Helpers.Split` | utils/helpers.ts:10 | `split(',')` yields one more piece than there are separators, and no piece contains a separator |
| `Helpers.JoinSplit` | utils/helpers.ts:10 | joining the pieces of a split with the separator gives back the original string |
| `Helpers.SplitJoin` | utils/helpers.ts:10 | splitting the join of one or more separator-free pieces gives back those pieces (split and join are inverses) |
| `Helpers.SplitAtFirst` | utils/helpers.ts:10 | the first piece is the text before the first separator; the other pieces are the split of the text after it; with no separator there is one piece |
| `Helpers.Payload` | utils/helpers.ts:10 | `result.split(',')[1]` is undefined exactly when the text has no comma; when it is present it contains no comma |
| `Helpers.PayloadBetweenCommas` | utils/helpers.ts:10 | the payload is the text strictly between the first comma and the next comma, or the end of the string |
| `Helpers.DataUrlPayload` | utils/helpers.ts:10 | for `"data:" + m + ";base64," + p` where m and p contain no comma, the payload is exactly p |
| `Helpers.FileToImageFile` | utils/helpers.ts:4-17 | the record has a payload exactly when the data URL contains a comma; its `mimeType` is the file's declared type; its `base64` contains no comma |
| `Helpers.FileToImageFileIgnoresHeader` | utils/helpers.ts:10-11 | whatever media type the data URL header names, the record is (payload, `file.type`): the type is never parsed from the header |
| `Helpers.FileType` | utils/helpers.ts:22 | the type `new File(..., { type })` records: the empty string when the requested type holds a character outside U+0020..U+007E, otherwise the type with ASCII capitals lowered, character by character; the result is always printable and free of capitals |
| `Helpers.FileTypeKeepsNormal` | utils/helpers.ts:22 | a type that is already printable lower-case ASCII is recorded unchanged, and recording a recorded type changes nothing |
| `Helpers.UrlToImageFile` | utils/helpers.ts:19-24 | the image read from a fetched blob has as its `mimeType` the blob's type as the File constructor records it (`FileType`), which is the blob's type itself when that is printable lower-case ASCII |
| `GeminiService.FirstPart` | services/geminiService.ts:10 | the optional chain `candidates?.[0]?.content?.parts?.[0]` yields a part exactly when every level exists and both lists are non-empty, and then it is the first part of the first candidate |
| `GeminiService.ExtractImage` | services/geminiService.ts:9-18 | returns an image exactly when the first candidate has content whose first part has inline data; `base64` and `mimeType` are copied verbatim from that data; any missing level gives null, not an error |
| `GeminiService.ExtractImageReadsOnlyFirstPart` | services/geminiService.ts:10 | parts after the first one, and candidates after the first one, do not change the result |
| `GeminiService.ExtractImageIgnoresLaterImage` | services/geminiService.ts:10-11 | an image in the second part is ignored when the first part is text: the result is null |
| `GeminiService.RemoveBackgroundRequest` | services/geminiService.ts:20-34 | uses model 'gemini-2.5-flash-image' and response modalities [IMAGE]; has exactly two parts, `[inlineData(image), text]`; carries only `image`; the instruction is the removal prompt |
| `GeminiService.CartoonifyRequest` | services/geminiService.ts:36-50 | the same model and modalities; exactly two parts, `[inlineData(image), text]`, with the cartoon prompt |
| `GeminiService.CombineImageAndBackgroundRequest` | services/geminiService.ts:52-67 | the same model and modalities; exactly three parts, `[inlineData(fg), inlineData(bg), text]`; the subject comes before the background |
| `GeminiService.ColorPrompt` | services/geminiService.ts:75 | the instruction is the fixed prefix, then the colour string verbatim, then "." |
| `GeminiService.ColorPromptInjective` | services/geminiService.ts:75 | two colours that give the same instruction are the same colour, so the colour can be recovered from the request |
| `GeminiService.CombineImageAndColorRequest` | services/geminiService.ts:69-83 | the same model and modalities; exactly two parts, `[inlineData(fg), text]`; the text is the colour instruction |
| `GeminiService.Send` | services/geminiService.ts:21-33 | one `generateContent` call followed by `extractImage`: it rejects exactly when the transport rejects, with the same reason; it resolves to null (a soft failure) exactly when a response came back without a leading image |
| `App.InitialStateIsValid` | App.tsx:18-30 | the initial `useState` values satisfy the session invariant |
| `App.ErrorMessage` | App.tsx:65 | `err instanceof Error ? err.message : fallback`: a thrown `Error` gives its message, any other thrown value the fallback text |
| `App.Finish` | App.tsx:67-70 | the `finally` block: loading is off and the message is '', and no other field changes |
| `App.OrThrow` | App.tsx:59-61 | `if (!x) throw new Error(m)`: a value passes through, null becomes `Error(m)`, and a rejection is passed on unchanged |
| `App.Reset` | App.tsx:32-44 | applying every setter of `handleReset` gives the initial state from any state: images and custom background null, cartoon off, not loading, message '', no error, tab 'preset', background (preset, first preset URL) |
| `App.ResetIdempotent` | App.tsx:32-44 | resetting twice is the same as resetting once |
| `App.UploadFailed` | App.tsx:63-66 | the `catch` block sets the error and then calls `handleReset()`, so it ends in exactly the initial state, with the error null |
| `App.UploadImage` | App.tsx:46-71 | with no file nothing happens. After a read failure no call is made; otherwise exactly one `removeBackground` call is made. On success the original is the read image, the foreground is the removal result, the error is null, and nothing else changes. Any failure (read rejected, null result, removal throws) ends in exactly the initial state, error null included. Loading ends false with message ''. The invariant is preserved |
| `App.UploadCustomBackground` | App.tsx:73-83 | a successful read stores the custom image and selects the 'upload' background; a failed read sets only the error; with no file nothing changes; the invariant is preserved |
| `App.ActiveForeground` | App.tsx:93-101 | with the effect off the background-free foreground is used and no call is made; with it on the outcome and calls are those of the cartoon step; the only call it can make is `cartoonifyImage(foreground)` |
| `App.CartoonStage` | App.tsx:97-98 | a cached cartoon is used without any call; otherwise exactly one `cartoonifyImage` call is made, and its null result becomes the error "Failed to create cartoon version." |
| `App.BackgroundImage` | App.tsx:108-115 | a preset is fetched with one `urlToImageFile` call and nothing else is called; an upload uses the stored custom image; a missing one fails with "Selected background is not available." |
| `App.CompositeStage` | App.tsx:103-119 | 'color' calls only `combineImageAndColor(fg, background.value)`. 'preset' calls `urlToImageFile(url)` and then `combineImageAndBackground(fg, fetched)`; a fetch failure stops before compositing. 'upload' calls `combineImageAndBackground(fg, customBg)`, or fails "not available" without any call. A null result becomes "Failed to generate the final image." |
| `App.Generate` | App.tsx:85-129 | without a foreground it is a no-op. Only the cartoon cache, the final image, the error and the loading fields change. Afterwards loading is false and the message is ''. There is a final image exactly when there is no error. The calls are the cartoon step's followed by the composite's. On failure there is no final image and the error carries the thrown message. The cache is untouched, and no cartoonify call is made, when the effect is off or a cartoon is cached. A fresh cartoon is stored even if compositing then fails. The invariant is preserved |
| `App.ToggleCartoon` | App.tsx:208 | flips `useCartoonEffect` and changes nothing else; the invariant is preserved |
| `App.ToggleCartoonTwice` | App.tsx:208 | toggling twice restores the state, including the cached cartoon |
| `App.ClickTab` | App.tsx:176 | sets `activeBgTab` and changes nothing else |
| `App.PickPreset` | App.tsx:184-185 | selects (preset, url) for one of the listed URLs and changes nothing else |
| `App.PickColor` | App.tsx:191 | selects (color, value) and changes nothing else |
| `App.ImageToDisplay` | App.tsx:136-140 | shows the final image when there is one; otherwise one of the cartoon and the foreground; under the invariant it is empty exactly when there is no foreground |
| `App.DisplayFollowsToggle` | App.tsx:137-139 | with no final image and a cached cartoon, the cartoon is shown while the effect is on and the foreground while it is off |
| `App.UploadBackgroundIsAvailable` | App.tsx:111-116 | under the invariant an 'upload' background always has its image, so its composite is requested and the "not available" error at line 115 is never raised for it |
| `App.CartoonComputedOnce` | App.tsx:94-101 | effect on, generate, effect off and on again, generate again: `cartoonifyImage` is called on the first generation only |
| `App.FinalImageIsDisplayed` | App.tsx:120 | after a successful generation the final image is shown, with or without the cartoon effect |
| `App.Session.constructor` | App.tsx:18-30 | the fields start at the `useState` initial values, which satisfy the invariant |
| `App.Session.HandleReset` | App.tsx:32-44 | the fields end at the initial state |
| `App.Session.HandleImageUpload` | App.tsx:46-71 | sets the fields in program order, then `handleReset()` on failure and the `finally` block; ends exactly in `UploadImage`'s state with its calls |
| `App.Session.HandleCustomBgUpload` | App.tsx:73-83 | ends exactly in `UploadCustomBackground`'s state |
| `App.Session.ApplyCartoonEffect` | App.tsx:93-101 | returns `ActiveForeground`'s outcome and calls; stores the cartoon only when one was obtained; leaves the cache alone when the effect is off |
| `App.Session.CompositeFinalImage` | App.tsx:103-119 | returns exactly `CompositeStage`'s outcome and calls, reading the background and custom image from the fields |
| `App.Session.GenerateFinalImage` | App.tsx:85-129 | ends exactly in `Generate`'s state with its calls |
| `App.Session.ToggleCartoonEffect` | App.tsx:208 | ends in `ToggleCartoon`'s state |
| `App.Session.SelectTab` | App.tsx:176 | ends in `ClickTab`'s state |
| `App.Session.SelectPreset` | App.tsx:185 | ends in `PickPreset`'s state |
| `App.Session.SelectColor` | App.tsx:191 | ends in `PickColor`'s state |
| `App.ColorScenario` | App.tsx:105-106 | upload a photo, pick a colour, generate: the calls are one `removeBackground(photo)` and then one `combineImageAndColor(foreground, colour)`, and its result is the image shown |
| `App.FailedGenerateScenario` | App.tsx:119-124 | a composite that returns null keeps the foreground, leaves no final image, and shows "Failed to generate the final image." |
| `App.PresetCartoonScenario` | App.tsx:94-116 | preset background with the effect on: the calls are exactly `cartoonifyImage(fg)`, `urlToImageFile(url)`, `combineImageAndBackground(cartoon, fetched)`, in that order |
| `App.FailedUploadScenario` | App.tsx:63-66 | an upload whose read fails or whose removal returns null leaves the session in the initial state with no error, even after a colour pick and a toggle beforehand |

## Left out

- Rendering and styling (App.tsx:131-134 and 142-242): this is presentation. Only the `imageToDisplay` selector is logic, and it is modelled. The upload input is only offered while there is no foreground, and the other controls only while there is one. The model does not encode this, so its handlers may be called in any state.
- FileReader, `fetch` and `Blob` reading (utils/helpers.ts:5-9, 14-16, 20-21): browser I/O. Of the `File` construction at line 22 only the recorded type is modelled (`Helpers.FileType`). Their outcomes are parameters (`FileChoice`, `Services.urlToImageFile`), and the helpers start from the data-URL text the reader produced.
- Helpers.FileToImageFile: JavaScript resolves with a record whose `base64` is `undefined` when the text has no comma. That record cannot be an `ImageFile` here, so the model returns None. The session takes the outcome of a read as an already formed `ImageFile`.
- GeminiService.ExtractImage: a response's inline data always carries both `data` and `mimeType` here. A real response may lack either field; the code then returns a record with an `undefined` field, which an `ImageFile` cannot represent.
- The GoogleGenAI client, its API key and the `generateContent` network call (services/geminiService.ts:2-5, 21): these are foreign, metered and nondeterministic. A call is the function `Services.generate`, fixed for the duration of one handler.
- Async interleaving: handlers run to completion one at a time. Only the loading overlay (App.tsx:144-149) keeps them from overlapping. Results that arrive after a reset are not discarded; the code has no such check, and the model does not add one.
- React's batching of state updates: setters are plain field assignments applied in program order. Each handler reads its fields before it writes them, so the last write wins, as with batched updates.
- `console.error` calls (App.tsx:64, 123): logging only.
- Base64 encoding and the image content: the code never decodes bytes locally.
- The `components/icons` module is not part of this model (presentational).
