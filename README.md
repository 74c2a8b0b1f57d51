# Virtual try-on: upload controller and try-on endpoint, modelled in Dafny

This project models the two pieces of decision logic of a virtual try-on web application.

- **The page controller** (`VirtualTryOnApp`, static/script.js). It keeps a person image slot and a clothing image slot. It checks each picked file's type and size, enables the try-on button once both slots are full, submits the pair, and renders the returned image or reports an error. It also offers download and reset. It is modelled as the class `Client.VirtualTryOnApp`. Its fields are the two slots and the visible page state: the button's `disabled` property and 'disabled' class, its label and spinner, the error banner and its text, the result section and its image source, and the two preview panes. Each method changes those fields step by step, as the source does. Its `ensures` give the complete new state as `State() == old(State()).(…)`, and `Valid()` is the invariant every method keeps. The asynchronous request is split into `StartSubmit` (everything up to `fetch`) and `CompleteSubmit(outcome)` (the try/catch/finally once the reply is in). Any other event, such as a reset, can run between the two. The decisions themselves are pure functions with their own contracts: `Validate` for the file guards, `Classify` for how a reply is handled, and `DownloadName` for the saved file's name.
- **The `/virtual-tryon` handler** (`virtual_tryon`, tryon.py). It is modelled as the pure function `Server.VirtualTryOn`. Its inputs are the request's parts and the results of its foreign calls: image processing, the access token, the prediction request and the parsing of that request's reply. It returns the status, the JSON body and the list of foreign calls it made, in order.
- **`Wire`** joins the two. It turns what the page posts into the handler's request, and the handler's response into the outcome the page classifies.
- **`Text`** models how the code writes and reads numbers in strings. It writes the decimal numerals that `${Date.now()}` and `f"{status_code}"` produce, and it reads a number back from the start of a string.

Where the page's written design and its code disagree, the model follows the code:
- A file is accepted on type when its MIME type starts with `image/` or is on the allow-list. Every allow-list entry starts with `image/`, so the allow-list never decides anything (`Client.IsValidImageType`, `Client.Validate`).
- At the end of a submission the button is not simply re-enabled. It is set from the slots as they are at that moment.
- More than one request can be outstanding at a time. A reset made while a request is outstanding disables the button, because it empties both slots. But any accepted file choice that leaves both slots full re-enables it, even while the spinner is showing: for example, two choices after a reset. The button can then start a second request (`Client.OverlappingSubmissions`). A reply that arrives after a reset still updates the page.
- A reset hides the result section but leaves the result image's source unchanged.

## Model

| member | source | states |
|---|---|---|
| `Client.IsValidImageType` | static/script.js:251-254 | a type on the allow-list always starts with `image/`, so the allow-list never admits a type that the prefix test refuses |
| `Client.Validate` | static/script.js:37-47 | accepted exactly when the type starts with `image/` and the size is at most 20·1024·1024 bytes (exactly 20 MiB passes); the type message exactly for a non-`image/` type, even when the file is also oversized; the size message exactly for an oversized image |
| `Client.Classify` | static/script.js:123-137 | a result is rendered exactly for an ok reply with a true `success` and a non-empty `result_image`, and it is that string, so it is never empty; every other outcome shows `Failed to process virtual try-on: ` followed by the thrown message, the reply's non-empty `error`, `Virtual try-on failed`, or `Invalid response from server` |
| `Client.DownloadName` | static/script.js:176 | the name is `virtual-tryon-result-`, then a non-empty run of digits with no leading zero (except for timestamp 0), then `.png`; that run reads back as the timestamp |
| `Client.VirtualTryOnApp.Valid` | static/script.js:81-92 | when the invariant holds, an enabled button implies that both slots are full |
| `Client.VirtualTryOnApp.constructor` | static/script.js:2-6 | both slots are empty; the page starts in its reset state with the button disabled and idle, and the invariant holds |
| `Client.VirtualTryOnApp.ShowError` | static/script.js:223-228 | the banner shows the given text; nothing else changes |
| `Client.VirtualTryOnApp.ErrorTimerFired` | static/script.js:230-233 | the 10-second timer hides the banner unconditionally; nothing else changes |
| `Client.VirtualTryOnApp.HideError` | static/script.js:236-239 | only the banner is hidden; its text stays |
| `Client.VirtualTryOnApp.ShowResult` | static/script.js:147-152 | the result section is shown with exactly the given source |
| `Client.VirtualTryOnApp.HideResult` | static/script.js:158-161 | only the result section is hidden |
| `Client.VirtualTryOnApp.UpdateTryOnButton` | static/script.js:81-92 | the button is disabled iff a slot is empty, and the 'disabled' class is present iff the button is disabled; nothing else changes |
| `Client.VirtualTryOnApp.HandleImageUpload` | static/script.js:33-64 | no file: nothing changes; a rejected file changes only the banner, which shows `Validate`'s message, so both slots and the button are untouched; an accepted file replaces only its role's slot ('person' goes to the person slot, otherwise the clothing slot), the button follows the slots, the banner is hidden, and nothing else changes |
| `Client.VirtualTryOnApp.PreviewLoaded` | static/script.js:67-78 | the role's preview shows the loaded data URL and hides its placeholder, whatever happened since the file was picked |
| `Client.VirtualTryOnApp.StartSubmit` | static/script.js:94-121 | a request carrying the two slots' files is issued exactly when both slots are full; otherwise only the banner shows `Please upload both person and clothing images.`; when a request is issued, the button is disabled, the spinner is shown, the label is hidden, and the error and result are hidden |
| `Client.VirtualTryOnApp.CompleteSubmit` | static/script.js:123-144 | renders or reports exactly as `Classify` says; on every path the label comes back, the spinner goes, and the button and its class follow the slots as they are at completion |
| `Client.VirtualTryOnApp.DownloadResult` | static/script.js:163-186 | an empty result source shows `No result image to download.` and saves nothing; otherwise it saves the result source under `DownloadName(timestamp)` and the page is unchanged, unless the save throws, which shows the right-click hint |
| `Client.VirtualTryOnApp.ResetPreview` | static/script.js:214-221 | the role's preview has an empty source and is hidden, and its placeholder is shown |
| `Client.VirtualTryOnApp.ResetForm` | static/script.js:188-212 | both slots are empty, both previews show their placeholders with empty sources, the result and error are hidden, and the button is disabled with its class; nothing else changes |
| `Client.ReselectAfterReset` | static/script.js:188-212 | after a reset, picking two acceptable files fills both slots, enables the button and removes its class (even while an earlier request is still loading), and leaves no error and no result visible |
| `Client.OverlappingSubmissions` | static/script.js:94-110 | a submission, then a reset, then two new file choices, let a second submission start from an enabled button before the first one completes |
| `Text.Decimal` | static/script.js:176 | the numeral of a number is a non-empty string of digits with no leading zero (except for 0 itself) |
| `Server.VirtualTryOn` | tryon.py:70-149 | every response is either 200 with a success body, or 400 or 500 with a non-empty error; 400 is returned exactly when the request is refused before a token is requested; a success body is a `data:image/png;base64,` URL |
| `Server.SuccessExactly` | tryon.py:102-145 | success exactly when every guard passes; then the calls are: process the person image, process the clothing image, get the token, and one POST to the predict URL with `Bearer <token>` and a payload of one instance with one product image and a sample count of 1; the result is `data:image/png;base64,` followed by `predictions[0].bytesBase64Encoded`, verbatim |
| `Server.MissingPartFirst` | tryon.py:73-74 | a missing part gives 400 `Both person and clothing images are required`, whatever the foreign calls would return, and no foreign call is made |
| `Server.EmptyFilenameSecond` | tryon.py:79-80 | with both parts present, an empty file name gives 400 `No files selected` before any image is processed |
| `Server.ProcessFailureThird` | tryon.py:82-86 | with both parts present and named, a failed or empty processing result gives 400 `Failed to process images` after both images were processed and before the token is requested |
| `Server.TokenFailureFourth` | tryon.py:88-90 | with both images processed, a missing or empty token gives 500 `Failed to get authentication token`, and no request is made |
| `Server.NoPredictions` | tryon.py:131-134 | a 200 reply without `predictions`, or with an empty list, gives 500 `No predictions in API response` |
| `Server.NoImageData` | tryon.py:136-140 | a first prediction without `bytesBase64Encoded` gives 500 `No image data in API response` |
| `Server.ForeignCallsInOrder` | tryon.py:82-124 | both images are processed first, person then clothing; the token is requested only when both results are non-empty; the POST is made at most once, fourth in order, and only with a non-empty token |
| `Server.UpstreamStatusReported` | tryon.py:126-129 | a status other than 200 gives 500 with `API request failed: <status> - <text>`, and the status reads back from the message |
| `Server.OnlyFirstPrediction` | tryon.py:133-140 | changing the predictions after the first one never changes the response |
| `Server.ExceptionsAnswered` | tryon.py:147-149 | a POST, or a reply parse, that raises gives 500 with `Virtual try-on failed: ` followed by the exception text |
| `Wire.ToServer` | static/script.js:113-121 | the page's request always carries both the `person_image` and the `clothing_image` part |
| `Wire.ToClient` | static/script.js:123-129 | the page sees a reply whose `ok` is the 2xx test on the handler's status; for the statuses the handler uses, `ok` holds exactly for a success body; `success` is true exactly for a success body; `result_image` is present exactly for a non-empty success image; `error` is present exactly for a non-empty error |
| `Wire.EndToEnd` | static/script.js:123-137 | for any results of the foreign calls, the page renders the handler's data URL when the handler succeeds, and otherwise shows the prefix followed by the handler's own error text, never the fallback message; a request from the page is never answered with the missing-part error |
| `Wire.ResultReachesPage` | tryon.py:142-145 | when every guard passes, the page shows `data:image/png;base64,` followed by the first prediction's base64 text |

## Left out

- Browser plumbing: `fetch`, `FormData`, `await`, `console.error`, element lookups, creating the download link and calling `click()` on it, and clearing the file inputs' `value` on reset. The page elements are fields of the class. The save is the `saveThrows` parameter of `DownloadResult`.
- Browser URL resolution of `img.src`: a source is a plain string, and "no result" means the empty string.
- Scrolling and styling: `scrollIntoView`, `scrollTo`, and the drag-over and drag-leave colours. A drop re-dispatches a change event with the dropped files, so it is the same as `HandleImageUpload` with the first file.
- Timers and file reads: the error timer and the preview load are the explicit events `ErrorTimerFired` and `PreviewLoaded`. Each one applies whenever it fires, as in the code, so a stale timer or a late preview is not ignored.
- `formatFileSize`: it works in floating point and is never called.
- `Date.now()`: the timestamp is a parameter.
- The page markup is not part of this model. The constructor assumes the page starts in its reset state: button disabled and idle, nothing shown.
- JSON values of other kinds: `success` is a boolean or absent, and `error` and `result_image` are strings or absent. Truthiness of other JSON values is not modelled.
- Foreign calls of the handler: credential loading and token refresh, PIL decoding, RGB conversion, 2048-pixel thumbnailing and PNG encoding, `base64.b64encode`, and the HTTP call to Vertex AI are inputs to `VirtualTryOn`. The payload records the processed bytes rather than their base64 text.
- Server.VirtualTryOn: a raised exception is modelled only where one can come from a foreign call that does not catch its own errors, namely the POST and the parsing of its reply. A reply whose JSON is not an object, or whose predictions are not objects, is not modelled.
- Flask routing, `render_template`, CORS, `/health` and the startup block.
