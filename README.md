# RG Pet: order store, photo resolver and registration wizard

This project models the core of the RG Pet application. A pet owner fills in
a seven-step wizard in the browser. The browser client turns the wizard's
data into an order and posts it to the admin server. The server keeps the
orders in a table and finds each order's photo in a storage bucket. The
model has three parts:

- **The admin server** (`admin/server.js`): the `orders` table and its
  handlers (create, list, statistics, status update, delete), the photo
  resolver (`findPetPhoto`, `getPetPhotoFromBucket`,
  `savePhotoUrlToDatabase`) and the signed-upload route. The modules are
  `Orders` (request, row, validation, defaults, order number, status
  check, counts and page arithmetic), `Photos` (bucket listing, lookup by
  owner token, file-name sanitising, upload path) and `OrderStore`. In
  `OrderStore`, the class `OrderTable` holds the table as a map from id to
  row plus the ids in insertion order.
- **The wizard** (`public/script.js`), in module `Wizard`: the `formData`
  record, per-step validation and saving, navigation, the two photo
  listeners, the background selector, the generation gate and
  `formatarNome`. The class `Registration` holds the page's module-level
  state (`currentStep`, `formData`, `currentBackgrounds`).
- **The client** (`public/fetch.js`), in module `Client`: the payload of
  `prepareFormData`, the session id kept in local storage (class
  `FormDataService`, the storage being a map), the size shortcut of
  `compressImage`, and the upload request for the photo. This module also
  connects the three parts. Data that passes the wizard's gate is always
  accepted by the server. An uploaded photo is found again by the
  resolver when the order id has no `_`, the new object is within the
  first 500 names of the listing and no earlier name of the folder
  carries the same order id (`Photos.UploadThenLookup`).

The JavaScript built-ins the code relies on are written out in module
`Text`: truthiness, `||`, `trim`, the case mappings, `split`/`join`,
`substr` and decimal rendering. Module `Json` holds `JSON.stringify` of a
string-valued object, following section 25.5.2.3 (QuoteJSONString) of
ECMA-262. The clock (`Date.now()`, `new Date().toISOString()`),
`Math.random().toString(36)`, the id the database assigns, the bucket
listing and the storage service's failures are all parameters.

The create route checks the raw values of the required fields
(`admin/server.js:201`), so a name made only of spaces is accepted and
stored as "" (`Orders.WhitespaceNameAccepted`).

## Model

| member | source | states |
|---|---|---|
| Text.TrimEmptyIff | admin/server.js:211 | a trimmed string is empty exactly when every character is JavaScript white space |
| Text.TrimEnds | admin/server.js:211 | a non-empty trimmed string starts and ends with a character that is not white space |
| Text.TrimInfix | admin/server.js:211 | the trimmed string is a contiguous slice of the original, with only white space on either side of it |
| Text.TrimIdempotent | admin/server.js:211 | trimming a trimmed string changes nothing |
| Text.Lower | admin/server.js:276 | `toLowerCase` keeps the length and maps each character, so no upper-case letter is left |
| Text.Upper | admin/server.js:208 | `toUpperCase` keeps the length and maps each character, so no lower-case letter is left |
| Text.LowerIdempotent | public/script.js:435 | lower-casing twice equals lower-casing once |
| Text.JoinSplit | public/script.js:436-438 | joining the pieces of `split(d)` with `d` gives back the original string |
| Text.SplitJoin | public/script.js:436-438 | splitting a join of pieces without `d` gives back the pieces |
| Text.FirstPartSpec | admin/server.js:101 | `split('_')[0]` is the longest prefix without `_`, followed by `_` or by the end of the string |
| Text.Substr | admin/server.js:208 | `substr(start, len)` is the slice from `start` to `start + len`, cut at the end of the string, and empty when `start` is at or past the end |
| Text.DecimalRoundTrip | admin/server.js:208 | the decimal text of `Date.now()` reads back as the same number |
| Json.ReadEscaped | public/fetch.js:39 | a text written as a JSON string literal reads back as that text, and the reading stops exactly at the closing quote |
| Json.StringifyObject | public/fetch.js:39 | the JSON text of an object is braced, and is `{}` exactly when the object has no properties |
| Json.ParseStringified | public/fetch.js:39 | the JSON text of a string-valued object parses back to the same properties with the same values, in the same order |
| Photos.ListFolder | admin/server.js:83-92 | a listing fails exactly when the call errs; otherwise it is the first 500 names of the folder in order, or all of them when the folder holds no more |
| Photos.FindOwned | admin/server.js:99-102 | `find` returns the first name whose owner token equals the id, or nothing when no name has it |
| Photos.BucketPhoto | admin/server.js:76-120 | `getPetPhotoFromBucket`: a URL comes only from a successful listing and a non-empty id, and is the public URL of a listed name whose owner token is the id; `Photos.BucketPhotoSpec` gives the full characterisation |
| Photos.BucketPhotoSpec | admin/server.js:76-120 | a photo is found exactly when the listing succeeded, the id is non-empty and some listed name carries the id; the URL is then that of the first such name |
| Photos.UnderscoreIdNeverFound | admin/server.js:99-102 | an order id that contains `_` is never found, because the owner token stops at the first `_` |
| Photos.BeyondListLimitNotFound | admin/server.js:83-87 | a photo placed after the first 500 entries of the folder is never found |
| Photos.ReplaceUnsafe | admin/server.js:277 | the result keeps the length, holds only characters of `[a-z0-9.-]` or `_`, and keeps every safe character in its place |
| Photos.ReplaceUnsafeIdempotent | admin/server.js:277 | replacing the unsafe characters of an already replaced name changes nothing |
| Photos.SanitizeSpec | admin/server.js:275-278 | the sanitised name keeps the first 100 characters, each lower-cased and replaced by `_` when unsafe, so only safe characters or `_` remain |
| Photos.SanitizeIdempotent | admin/server.js:275-278 | sanitising a sanitised name changes nothing |
| Photos.SignedUpload | admin/server.js:262-307 | the signed-upload route succeeds exactly when the file name and type are given and signing works; a missing name or type is the missing-data error; a granted path lies in `pet-photos/` (`Photos.UploadOwnerToken` gives the object name) |
| Photos.UploadOwnerToken | admin/server.js:280-291 | the upload path lies in `pet-photos`, the announced URL is that path's public URL, and the object name's owner token is the identifier when it has no `_` |
| Photos.UploadThenLookup | admin/server.js:280-291 | once the uploaded object is listed, with no earlier name for the same order, the lookup for that order returns exactly the URL the upload announced |
| Orders.DefaultedField | admin/server.js:213 | `(v \|\| 'Não informado').trim()` is the trimmed value when the value is present and non-empty, and the placeholder otherwise |
| Orders.NewOrder | admin/server.js:191-231 | the create route rejects a request, with the missing-fields error, exactly when a required field is missing; an accepted order is pending, has no photo and carries the assigned id (the `Orders.NewOrder*` lemmas give each field) |
| Orders.NewOrderAcceptance | admin/server.js:201-206 | a request is rejected, always with the missing-fields error, exactly when the pet name, gender, owner name or contact is absent or empty |
| Orders.NewOrderState | admin/server.js:208-231 | an accepted order is pending, has no photo, carries the assigned id, the generated order number, and the two clock readings as creation and update times |
| Orders.NewOrderRequired | admin/server.js:211-218 | the pet name, owner name and contact are stored trimmed, and the gender is stored as given |
| Orders.NewOrderDefaults | admin/server.js:213-225 | breed, colour and the five address fields are stored trimmed, or as "Não informado" when blank |
| Orders.NewOrderSentinels | admin/server.js:226-228 | team, backgrounds and session id are stored as sent, or as `nenhum_time`, `{}` and `unknown` when blank |
| Orders.NewOrderFieldsTrimmed | admin/server.js:211-225 | every trimmed or defaulted field of a new order is already trimmed |
| Orders.WhitespaceNameAccepted | admin/server.js:201-211 | a pet name made only of white space passes validation and is stored empty |
| Orders.OrderNumberShape | admin/server.js:208 | the order number starts with `RG-PET-` and its suffix has at most five characters, all upper-case base-36 digits |
| Orders.OrderNumberRoundTrip | admin/server.js:208 | the timestamp and the suffix can be read back out of the order number |
| Orders.CheckStatus | admin/server.js:408-421 | a missing or empty status is refused as missing, a status outside the four is refused as invalid, and one of the four passes unchanged |
| Orders.CountStatus | admin/server.js:329-332 | a count by status never exceeds the number of rows |
| Orders.StatsBounds | admin/server.js:327-334 | the total is the number of rows; each per-status count and their sum are at most the total, with equality when every status is one of the four |
| Orders.PageCountIsCeiling | admin/server.js:389 | the page count is the least number of pages of `limit` rows that hold all rows, and 0 exactly when there are none |
| Orders.PageOf | admin/server.js:354-362 | a page holds at most `limit` rows; row `i` is row `from + i` of the listing, and the page is full unless it is the last |
| Orders.RowOnItsPage | admin/server.js:354-355 | every row appears on page `i / limit + 1`, which is within the reported page count |
| OrderStore.SecondResolutionShortCircuits | admin/server.js:128-145 | once a photo has been resolved and written back, a later resolution returns the same URL from the row, whatever the bucket then holds |
| OrderStore.ResolvePhoto | admin/server.js:125-149 | `findPetPhoto`: a stored photo URL is returned as it is; without one, a failed listing or an empty id gives no photo (`Photos.BucketPhotoSpec` covers the lookup) |
| OrderStore.BackfillTouchesOnlyPhoto | admin/server.js:154-162 | writing a photo back changes only the URL and the update time, and never touches a row that already has a photo |
| OrderStore.BackfillStepSpec | admin/server.js:136-145 | resolving one table row backfills that row as `Backfill` says and leaves every other row and key alone |
| OrderStore.BackfillRowsSpec | admin/server.js:368-377 | resolving a page of distinct table rows backfills exactly those rows and leaves all others alone |
| OrderStore.Newest | admin/server.js:358-361 | the listing holds every row, newest first |
| OrderStore.TableStats | admin/server.js:319-334 | the statistics' total is the number of orders, and the four counts add up to it |
| OrderStore.PageRowsOfTable | admin/server.js:358-362 | each listed row of a page is the table's row under its id, and no id appears twice |
| OrderStore.InsertKeepsInv | admin/server.js:235-239 | inserting a row under a new id keeps every row keyed by its id, listed once and with a valid status |
| OrderStore.ReplaceKeepsInv | admin/server.js:423-431 | replacing a row by one with the same id and a valid status keeps the table invariant |
| OrderStore.RemoveKeepsInv | admin/server.js:484-487 | deleting a row and its id keeps the table invariant |
| OrderStore.Without | admin/server.js:484-487 | the ids left after a delete are the old ones minus the deleted id, still without repetitions |
| OrderStore.OrderTable.Stats | admin/server.js:319-345 | the statistics report the table's size as total, and the per-status counts sum to it |
| OrderStore.OrderTable.Create | admin/server.js:191-259 | a request missing a required field is rejected with nothing stored; an insert under a taken key fails; otherwise exactly the new pending row is added and its id and order number are reported |
| OrderStore.OrderTable.UpdateStatus | admin/server.js:403-457 | the status is checked before the table is touched; an unknown id is not found; otherwise only that row's status and update time change |
| OrderStore.OrderTable.Delete | admin/server.js:460-514 | an unknown id is not found and nothing is removed; otherwise exactly that row goes and its order number is reported |
| OrderStore.OrderTable.SavePhotoUrl | admin/server.js:154-172 | only the photo URL and update time of that row change, and only if the row exists |
| OrderStore.OrderTable.FindPetPhoto | admin/server.js:125-149 | the result is the stored URL when set, without listing the bucket; otherwise the bucket is listed once and a hit is written back onto that row alone |
| OrderStore.OrderTable.ResolvePage | admin/server.js:368-377 | each listed order comes back, in order, with its resolved photo, and the table then holds exactly the backfilled rows |
| OrderStore.OrderTable.ListOrders | admin/server.js:348-400 | the page holds the rows `from..to` of the newest-first listing, each with its resolved photo; the pagination reports page, limit, total and page count; the table then holds exactly the backfilled rows |
| OrderStore.ListingBackfillSpec | admin/server.js:368-377 | a listing changes only listed rows without a photo, by backfilling them, and never clears a stored photo |
| Wizard.FirstBlankSpec | public/script.js:175-285 | the first failing field of a list has only passing fields before it; no field is reported exactly when all pass |
| Wizard.StepFailure | public/script.js:175-285 | `validateStep`: a failing field is always one the step requires, and a step outside 1..7 never fails (`Wizard.StepFailureFirstBlank` and `Wizard.ValidateStepIff` give the order and the iff) |
| Wizard.StepFailureFirstBlank | public/script.js:175-285 | each step raises its alert for the first of its required fields that is blank, in the page's order |
| Wizard.ValidateStepIff | public/script.js:175-285 | a step passes exactly when none of its required fields is blank; any other step number passes |
| Wizard.SaveStep | public/script.js:288-318 | `saveStepData` never touches the photo, and a step outside 1..7 saves nothing (`Wizard.SaveStepSpec` gives the per-field frame) |
| Wizard.SaveStepSpec | public/script.js:288-318 | saving a step writes exactly that step's fields, trimmed except the gender and team, and leaves every other field and the photo alone |
| Wizard.ValidThenFilled | public/script.js:130-136 | after a step that passed validation is saved, each field it requires is filled |
| Wizard.GenerationReadyIff | public/script.js:455-458 | the generation gate passes exactly when every field required by some step is filled |
| Wizard.PhotoChangeAsWritten | public/script.js:364-411 | the two listeners as written either keep the previous photo or store the chosen file (`Wizard.StoredPhotoTyped`, `Wizard.OversizedPngStored` and `Wizard.GifKeptAfterRejection` say which files) |
| Wizard.OversizedPngStored | public/script.js:396-411 | as written, a PNG over 5 MiB fails the upload listener's check yet ends up as the photo |
| Wizard.GifKeptAfterRejection | public/script.js:368-375 | as written, a small GIF fails the preview's type check yet stays as the photo |
| Wizard.StoredPhotoTyped | public/script.js:364-411 | whatever the as-written listeners store in place of the old photo is the chosen file, with a non-empty type that passed one of the two checks |
| Wizard.PhotoChangeSpec | public/script.js:364-411 | the corrected change stores the file exactly when both listeners' checks pass, so every stored photo is a JPEG or PNG of at most 5 MiB |
| Wizard.InitialBackgroundsValid | public/script.js:23-73 | every document starts with a background, and it is that document's first swatch |
| Wizard.FormatName | public/script.js:432-439 | `formatarNome` keeps the length of the name (`Wizard.FormatNameTitleCase` and `Wizard.FormatNameWords` give the characters) |
| Wizard.JoinCapitalized | public/script.js:436-438 | capitalising each word and joining them with spaces title-cases the joined text |
| Wizard.FormatNameTitleCase | public/script.js:432-439 | `formatarNome` lower-cases the name, then upper-cases the first character and every character after a space, keeping the length |
| Wizard.FormatNameWords | public/script.js:432-439 | a formatted name has as many words as the name, each lower-cased with its first character upper-cased |
| Wizard.FormatNameIdempotent | public/script.js:432-439 | formatting a formatted name changes nothing |
| Wizard.Registration.constructor | public/script.js:3-30 | the wizard starts at step 1 with empty data and each document's initial background |
| Wizard.Registration.SaveStepData | public/script.js:288-318 | the form data becomes the step's save of it; step and backgrounds stay |
| Wizard.Registration.NextStep | public/script.js:130-152 | nothing changes when the current step fails validation; otherwise its data is saved and the wizard moves to the target step |
| Wizard.Registration.PrevStep | public/script.js:154-171 | going back sets the target step without validating or saving, and leaves the data and backgrounds alone; a step with no panel changes nothing |
| Wizard.Registration.KeyPress | public/script.js:105-109 | Enter below the last step advances exactly one step when that step validates, saving that step's data, and otherwise changes nothing; any other key changes nothing |
| Wizard.Registration.HandlePhotoUpload | public/script.js:396-411 | the chosen file becomes the photo exactly when it is an image of at most 5 MiB |
| Wizard.Registration.PreviewPhotoChange | public/script.js:364-385 | the chosen file becomes the photo exactly when it is a JPEG or PNG and its read succeeds; a failed read changes nothing |
| Wizard.Registration.ChangePhoto | public/script.js:364-411 | the corrected photo change: only the photo changes, as the corrected function says |
| Wizard.Registration.RemovePhoto | public/script.js:387-393 | the photo is dropped and nothing else changes |
| Wizard.Registration.SelectBackground | public/script.js:567-577 | the clicked swatch's image becomes that document's background, and every background stays one its swatches offer |
| Wizard.Registration.StartGeneration | public/script.js:448-458 | step 7 is validated and saved; generation proceeds exactly when every field is filled |
| Client.EntriesFor | public/fetch.js:39 | the backgrounds object lists exactly the documents present, in document order, each with its own background |
| Client.EntriesForAllPresent | public/fetch.js:39 | when every document has a background, the object lists all of them in document order, each with its own background |
| Client.PayloadOfForm | public/fetch.js:24-45 | each wizard field goes to its backend column |
| Client.BuildPayload | public/fetch.js:24-45 | `prepareFormData`: the session id and source tag are as given, and the backgrounds text is `{}` exactly when there are no backgrounds (`Client.PayloadOfForm` gives the other columns, `Client.PayloadBackgrounds` the parse-back) |
| Client.PayloadBackgrounds | public/fetch.js:39-42 | the backgrounds travel as their JSON text, which parses back to exactly the backgrounds given, in order, and is `{}` only for an empty object; the source tag is fixed |
| Client.WizardBackgroundsSent | public/fetch.js:39 | the wizard's backgrounds always yield all six documents, so never the empty object |
| Client.BackgroundsReadBack | public/fetch.js:39 | the backgrounds text the wizard sends parses back to the six documents, each with its chosen background, in document order |
| Client.PayloadAcceptedIff | admin/server.js:201-206 | the server accepts a prepared payload exactly when pet name, gender, owner name and contact are non-empty |
| Client.ReadyFormAccepted | public/script.js:455-458 | data that passed the generation gate is always accepted by the server |
| Client.PayloadStored | admin/server.js:226-228 | from an accepted payload, an empty team is stored as `nenhum_time`, and the backgrounds text and a non-empty session id are kept as sent |
| Client.NewSessionIdShape | public/fetch.js:258 | a new session id is `sess_`, the decimal time, `_` and at most nine random characters |
| Client.SessionIdStable | public/fetch.js:255-262 | the session id is never empty and is then stored; a later call returns the same id and writes nothing new |
| Client.SessionIdFor | public/fetch.js:255-262 | `getSessionId` never yields an empty id; a stored non-empty id is returned, and otherwise a new id starting with `sess_` (`Client.NewSessionIdShape` gives the rest of its shape) |
| Client.FormDataService.GetSessionId | public/fetch.js:255-262 | returns the stored non-empty id, or creates, stores and returns a new one |
| Client.FormDataService.PrepareFormData | public/fetch.js:24-45 | the payload is built with the session id that storage then holds |
| Client.Compress | public/fetch.js:91-128 | a file under 500000 bytes is returned unchanged; a larger one becomes a JPEG of the same name |
| Client.UploadOfStoredPhoto | public/fetch.js:185-189 | a named photo with a type (every photo the page stores has one, by `Wizard.StoredPhotoTyped`; the name is a premise) is never refused for missing data, compressed or not; its path is `pet-photos/` and the object name built from the order id, whose owner token is the order id when that id has no `_`, which `Photos.UploadThenLookup` needs for the resolver to find it |

## Left out

- Storage failures of the photo routes are parameters (`signFailed`, `ListFailed`), and an insert under a taken key is `StoreError`. Left out: every other database failure and its 500 answer. These are a failing statistics query (`admin/server.js:327`), a failing status update or delete, an insert failing for another reason, and the swallowed error of `savePhotoUrlToDatabase`. The `try`/`catch` logging and the error bodies and messages are left out too.
- OrderStore.OrderTable.ListOrders: a page or limit below 1, or a non-numeric one, is answered with `StoreError`. What the store does with such a range is library behaviour and is not modelled. The string-to-number coercions of `page` and `limit` are not modelled either: both are integers here. One `now` stands for every `updated_at` written back while a page is resolved, where the server reads the clock once per save.
- OrderStore.OrderTable.UpdateStatus: an update that matches no row is `NotFound`, as the route intends. The client library's `.single()` error for zero rows, which reaches the 500 path, is not modelled.
- OrderStore.OrderTable.Create: the id is a parameter. The database's id generation and uniqueness constraints are reduced to "an insert under a taken key fails".
- The `created_at` order of the listing is modelled as insertion order. That assumes the creation times strictly increase. Two orders created in the same millisecond have equal `created_at`, and the store's order between them is unspecified; that tie is not modelled.
- `Promise.all` over a page is modelled as resolving the rows one after the other. Interleavings of the concurrent writes are not modelled.
- OrderStore.OrderTable.FindPetPhoto: one bucket listing is a parameter shared by every resolution of a page. The real code lists the bucket again for each row.
- The request bodies are JSON objects whose fields are strings or absent. Non-string values (numbers, arrays) and `.trim()` throwing on them are not modelled.
- Text.Lower and Text.Upper: only ASCII and the Latin-1 letters are case-mapped. Other Unicode case mappings (`ß` to `SS`, `ÿ` to `Ÿ`, `µ`, non-Latin scripts) are not modelled. Strings are sequences of code points, not UTF-16 code units.
- Wizard.Registration.NextStep: the target step must be 1 to 7. With any other target, the page throws when it looks up the missing panel, after the data was saved; that exception path is not modelled.
- Wizard.Registration.PreviewPhotoChange: the store happens in the asynchronous `onload` of a `FileReader`, and the model performs it at once. Until `onload` fires, the result of `handlePhotoUpload` stands, and a step change in between validates against it; that interleaving is not modelled. A failed read is modelled (`readOk`): it stores nothing.
- Wizard.Registration.PrevStep: the step changes at once. The page changes it in a 500 ms timer, so a key press in between still sees the old step; that delay is not modelled.
- `updateProgress`, the canvas rendering, watermarking, modals, notifications, scrolling and the quiz options are presentation only and are left out.
- `fetch`, the HTTP status handling of the client, the analytics call and the custom events are left out. `submitOrder` is captured only through its payload and its photo-upload condition.
- Client.Compress: the canvas re-encoding is not modelled. The re-encoded size is a parameter and the resize arithmetic is floating point.
- `updateOrderPhoto` in the client calls a server route that does not exist in the server, so it is not modelled.
- The debug and test routes, the health check, static file serving, middleware and environment checks of the server are left out.
- Time, randomness and the database-assigned ids are parameters, not modelled sources.

## Findings

| source | as written | input that shows it | evidently intended | confidence | as-written member | corrected member |
|---|---|---|---|---|---|---|
| public/script.js:101 | Two `change` listeners on the photo input each set `formData.foto` after their own check. `handlePhotoUpload` checks "image type, at most 5 MiB". The preview listener checks "JPEG or PNG" only, and sets the photo in `onload`. | A 5 MiB + 1 byte PNG is refused by the first listener and then stored by the second. A 1 KiB GIF is stored by the first listener and kept after the preview rejects it (`Wizard.GifKeptAfterRejection`). | A photo is stored only when it is a JPEG or PNG of at most 5 MiB, and a rejected file leaves the previous photo in place (`Wizard.Registration.ChangePhoto` keeps this rule as the page's state). | not executed | Wizard.OversizedPngStored | Wizard.PhotoChangeSpec |
