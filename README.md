# AIPresentation: presentation document model and its edits

This project models the core of AIPresentation, a web application in which a
user describes a presentation, gets a generated slide outline, and then edits
it. It covers the slide titles, bullets, images, layout, theme and settings,
plus per-slide regeneration ("reprompt"). The model has four parts:

- **The record shapes** (`Schema`, from `shared/schema.ts`): slides, settings,
  presentations, documents and slide-image records as datatypes. Layout, ratio
  and font size are closed enumerations. The theme is a free string.
- **The in-memory store** (`Storage.MemStorage`, from `server/storage.ts`): a
  class with three maps, three id counters starting at 1, and two key-order
  sequences. The key-order sequences stand for the insertion order of a
  JavaScript `Map`. Its invariant `Valid()` says:
  - every key is below its counter;
  - every record carries its own key as `id`;
  - no stored weak reference is 0;
  - the order sequences list exactly the keys, in ascending order.

  `updatePresentation` is the shallow merge `Storage.ApplyUpdate`.
- **The route handlers** (`Routes`, from `server/routes.ts`): generate-outline,
  reprompt, patch, image upload, export and get. Each one's error branches and
  effect on the store are stated as postconditions. The mocked generation
  calls are pure functions. The document-context loop is a method with an
  invariant.
- **The client edits**:
  - `OutlineEditor`: replace, delete or append a slide. Each edit submits an
    update holding only `slides`.
  - `SlideCard`: title, bullet, layout and image edits on one slide.
  - `ThemeSelector`: the panel's state as a class, with the clamped font-size
    step and the settings merge.

Inputs that come from outside the program are parameters of the model:
- the clock (`new Date()`, `Date.now()`) is `now`;
- the three API-key environment variables are `Routes.Environment`;
- the uploaded files' decoded text and base64 text are fields of
  `Routes.UploadedDocument` and `Routes.UploadedImage`.

## Model

| member | source | states |
|---|---|---|
| `Storage.MemStorage.constructor` | AIPresentation/server/storage.ts:38-45 | the three maps start empty and the three counters start at 1; the invariant holds |
| `Storage.MemStorage.CreatePresentation` | AIPresentation/server/storage.ts:47-56 | the record is the insert data plus the old counter as `id` and `now` as `createdAt`; that id is absent and larger than every stored key; the counter goes up by one; documents and images are untouched |
| `Storage.MemStorage.GetPresentation` | AIPresentation/server/storage.ts:58-60 | a record is returned exactly when the id is stored, and it carries that id |
| `Storage.MemStorage.UpdatePresentation` | AIPresentation/server/storage.ts:62-69 | an absent id returns nothing and changes no field of the store; otherwise the stored record becomes the shallow merge and is returned; counters, documents and images are unchanged |
| `Storage.ApplyUpdate` | AIPresentation/server/storage.ts:66 | every supplied field replaces the stored one whole (slides and settings included); unsupplied fields, `id` and `createdAt` are kept |
| `Storage.ApplyUpdateThen` | AIPresentation/server/storage.ts:66 | two merges in a row equal one merge of the combined update, in which the later field wins |
| `Storage.ApplyUpdateIdempotent` | AIPresentation/server/storage.ts:66 | re-applying the same update changes nothing more |
| `Storage.ApplyNoChanges` | AIPresentation/server/storage.ts:66 | an update with no fields leaves the record as it is |
| `Storage.ApplySlidesOnly` | AIPresentation/server/storage.ts:66 | an update that supplies only `slides` changes only `slides` |
| `Storage.MemStorage.DeletePresentation` | AIPresentation/server/storage.ts:71-73 | returns true iff the key existed; removes only that key; documents, images and counters are untouched |
| `Storage.NormalizeReference` | AIPresentation/server/storage.ts:80 | an absent reference and 0 are both stored as null; any other value is kept |
| `Storage.DocumentOf` | AIPresentation/server/storage.ts:88 | the test holds exactly for documents whose reference is present and equal to the argument; a document without a reference never matches |
| `Storage.ImageOf` | AIPresentation/server/storage.ts:105 | the test holds exactly for images whose reference is present and equal to the argument; an image without a reference never matches |
| `Storage.MemStorage.DocumentsInOrder` | AIPresentation/server/storage.ts:87 | the value list has one entry per id in insertion order, and entry i is the document stored under the i-th id |
| `Storage.MemStorage.SlideImagesInOrder` | AIPresentation/server/storage.ts:104 | the value list has one entry per id in insertion order, and entry i is the image stored under the i-th id |
| `Storage.MemStorage.CreateDocument` | AIPresentation/server/storage.ts:75-84 | uses the document counter alone; stores the data under a fresh id with the reference normalised; appends the id to the insertion order |
| `Storage.MemStorage.GetDocumentsByPresentationId` | AIPresentation/server/storage.ts:86-90 | the result is the filter of the documents in insertion order; it holds exactly the stored documents whose reference equals the argument, in ascending id; it is empty for 0 |
| `Storage.MemStorage.DocumentsMatching` | AIPresentation/server/storage.ts:86-90 | the filtered list holds exactly the matching stored documents, in strictly increasing id, and none for 0 |
| `Storage.MemStorage.CreateSlideImage` | AIPresentation/server/storage.ts:92-101 | uses the image counter alone; stores the data under a fresh id with the reference normalised; appends the id to the insertion order |
| `Storage.MemStorage.GetSlideImagesByPresentationId` | AIPresentation/server/storage.ts:103-107 | the result is the filter of the images in insertion order; it holds exactly the stored images whose reference equals the argument, in ascending id; it is empty for 0 |
| `Storage.MemStorage.SlideImagesMatching` | AIPresentation/server/storage.ts:103-107 | the filtered list holds exactly the matching stored images, in strictly increasing id, and none for 0 |
| `Storage.MemStorage.DeleteSlideImage` | AIPresentation/server/storage.ts:109-111 | returns true iff the id existed; removes only that record and its place in the order; presentations and documents are untouched |
| `Storage.FreshStoreIds` | AIPresentation/server/storage.ts:42-48 | on a fresh store three creations get ids 1, 2 and 3; after deleting 3 the next creation gets 4, so a deleted id is not reused |
| `Storage.DeletedIdNotReused` | AIPresentation/server/storage.ts:42-48 | on any valid store, create, delete, a document, an image, an update and another create: the second id is larger than the first and than every id stored before, the first stays deleted, and the invariant still holds |
| `Seqs.Filter` | AIPresentation/server/storage.ts:87-89 | the result is no longer than the input; every kept element is in the input and satisfies the test; every input element that satisfies it is kept |
| `Seqs.FilterAppend` | AIPresentation/server/storage.ts:87-89 | filtering distributes over concatenation, so the kept elements stay in input order |
| `Seqs.FilterIncreasing` | AIPresentation/server/storage.ts:87-89 | filtering a list whose keys strictly increase gives a list whose keys strictly increase |
| `Seqs.RemoveIndex` | AIPresentation/client/src/components/OutlineEditor.tsx:50 | the index filter is one element shorter when k is in range and keeps the length otherwise, and keeps only elements of the input; `Seqs.RemoveIndexSplices` gives its exact value. The same filter is used at SlideCard.tsx lines 92 and 114 |
| `Seqs.RemoveIndexSplices` | AIPresentation/client/src/components/OutlineEditor.tsx:50 | the index filter drops exactly position k when k is in range and nothing otherwise |
| `Routes.GenerateOutline` | AIPresentation/server/routes.ts:17-55 | a missing or empty prompt gives 400 and no store change; no API key gives 500 and no store change; otherwise it creates and returns the record built from the prompt and the outline under the next id; documents and images are untouched |
| `Seqs.ConcatAppend` | AIPresentation/server/routes.ts:28-31 | joining per-element blocks distributes over concatenation of the element lists |
| `Routes.BuildDocumentContext` | AIPresentation/server/routes.ts:26-32 | the loop's text equals the document context of all files |
| `Routes.DocumentContext` | AIPresentation/server/routes.ts:26-32 | the accumulated context is empty exactly when no file was uploaded, and otherwise ends with the newline that closes the last block |
| `Routes.DocumentContextAppend` | AIPresentation/server/routes.ts:28-31 | the context of two batches of files is the first batch's context followed by the second's, so blocks appear in file order |
| `Routes.DocumentEntry` | AIPresentation/server/routes.ts:30 | one file's block is "\n\nDocument: ", the file name, "\nContent: ", the text and "\n"; the name and the text sit at fixed offsets and can be read back off it |
| `Routes.DocumentContextSingle` | AIPresentation/server/routes.ts:30 | one file contributes "\n\nDocument: " + name + "\nContent: " + text + "\n" |
| `Routes.Truthy` | AIPresentation/server/routes.ts:21 | exactly a missing value and the empty string are falsy, as for `!prompt` and the key chain at routes.ts line 185 |
| `Routes.ModelOrDefault` | AIPresentation/server/routes.ts:19 | a missing model id becomes "groq-mixtral"; a supplied one, even empty, is kept |
| `Routes.ApiKey` | AIPresentation/server/routes.ts:185 | the key is the first non-empty of the three variables in their order; there is none iff all three are missing or empty |
| `Routes.GenerateOutlineWithLLM` | AIPresentation/server/routes.ts:183-235 | fails exactly when no key is configured; a generated outline has slides with no images |
| `Routes.CannedOutline` | AIPresentation/server/routes.ts:192-234 | the canned outline has a non-empty title and exactly three slides with distinct ids, each with layout title-bullets and no images |
| `Routes.NewPresentationData` | AIPresentation/server/routes.ts:38-48 | the insert data has the given prompt and the outline's slides; its title is the outline's title or "Untitled Presentation" and is never empty; theme is "professional"; settings are 16:9 / medium / animations on |
| `Routes.RepromptSlideWithLLM` | AIPresentation/server/routes.ts:237-245 | keeps `id`, `layout` and `images`; appends " (Updated)" to the title; appends " - Enhanced" to each bullet, keeping their count and order; sets notes to "Updated based on prompt: " + instruction |
| `Routes.EnhanceBullets` | AIPresentation/server/routes.ts:242 | same length, and each bullet gets the suffix at its own position |
| `Routes.CopyAndReplace` | AIPresentation/server/routes.ts:76-77 | the copy has the same length, the new slide at i, and every other position unchanged |
| `Routes.RepromptSlide` | AIPresentation/server/routes.ts:58-88 | an unknown id gives 404, an index at or past the end gives 400, and a negative index gives 500, each with no store change; otherwise only `slides[i]` of that presentation is replaced by the regenerated slide and every other field and record is unchanged |
| `Routes.PatchPresentation` | AIPresentation/server/routes.ts:91-106 | an unknown id gives 404 and no store change; otherwise the stored record becomes the shallow merge and is returned |
| `Routes.DataUrl` | AIPresentation/server/routes.ts:120 | the stored URL is "data:", the MIME type, ";base64," and the payload; the MIME type and the payload sit at fixed offsets and can be read back off it |
| `Routes.UploadImage` | AIPresentation/server/routes.ts:109-134 | a missing file gives 400 and no store change; otherwise it creates an image record with the data URL, the slide index and the normalised presentation id; presentations and documents are never modified |
| `Routes.ExportPresentation` | AIPresentation/server/routes.ts:137-159 | an unknown id gives 404; a missing format gives 500; otherwise the message names the upper-cased format and the download path names the id and the format |
| `Text.ToUpper` | AIPresentation/server/routes.ts:152 | `format.toUpperCase()` keeps the length, capitalises each lower-case ASCII letter and keeps every other character |
| `Text.Interpolate` | AIPresentation/server/routes.ts:243 | `${reprompt}` of a supplied instruction is the instruction itself, and of a missing one is "undefined" |
| `Routes.GetPresentationRoute` | AIPresentation/server/routes.ts:162-176 | an unknown id gives 404; otherwise the stored record is returned |
| `OutlineEditor.ReplaceSlide` | AIPresentation/client/src/components/OutlineEditor.tsx:41-42 | same length; only position i holds the new slide and every other position is unchanged |
| `OutlineEditor.HandleSlideUpdate` | AIPresentation/client/src/components/OutlineEditor.tsx:38-45 | with no presentation it submits nothing; otherwise it submits only `slides`, the old list with only position i replaced |
| `OutlineEditor.HandleDeleteSlide` | AIPresentation/client/src/components/OutlineEditor.tsx:47-52 | with no presentation it submits nothing; otherwise it submits only `slides`, with exactly position k removed (none when k is out of range) |
| `OutlineEditor.HandleAddSlide` | AIPresentation/client/src/components/OutlineEditor.tsx:54-68 | with no presentation it submits nothing; otherwise it submits only `slides`: one longer, the old slides as the prefix and the new slide last |
| `OutlineEditor.NewSlide` | AIPresentation/client/src/components/OutlineEditor.tsx:57-64 | the new slide has id "slide-" + clock, title "New Slide", bullets ["Add your content here"], layout title-bullets, no images and notes "" |
| `OutlineEditor.NewSlideIdsDiffer` | AIPresentation/client/src/components/OutlineEditor.tsx:58 | slides added at different clock readings get different ids |
| `OutlineEditor.DeleteRemovesExactlyOne` | AIPresentation/client/src/components/OutlineEditor.tsx:50 | deleting position k leaves one slide fewer; earlier slides keep their positions; later ones move down by one, unaltered |
| `OutlineEditor.DeleteOutOfRangeKeepsAll` | AIPresentation/client/src/components/OutlineEditor.tsx:50 | deleting a position outside the list submits the list unchanged |
| `OutlineEditor.AddThenDeleteRestores` | AIPresentation/client/src/components/OutlineEditor.tsx:66 | adding grows the list by one with the old slides as prefix; deleting the new last position restores the old list |
| `OutlineEditor.EditChangesOnlySlides` | AIPresentation/client/src/components/OutlineEditor.tsx:44-67 | every edit of a loaded presentation, once merged by the store, changes no field but `slides` |
| `OutlineEditor.NoPresentationNoUpdate` | AIPresentation/client/src/components/OutlineEditor.tsx:39-55 | with nothing loaded no edit submits an update |
| `OutlineEditor.CardEditKeepsSlideIds` | AIPresentation/client/src/components/OutlineEditor.tsx:105 | a card edit submitted through `onUpdate` keeps the id of every slide in the list |
| `Text.NatToString` | AIPresentation/client/src/components/OutlineEditor.tsx:58 | `${n}` of a non-negative number is a non-empty string of decimal digits with no leading zero (see `Text.ParseNatToString` for the value it denotes); the same conversion writes `${id}` into the export download path at routes.ts line 153 |
| `Text.ParseNatToString` | AIPresentation/client/src/components/OutlineEditor.tsx:58 | the decimal text of a clock reading reads back as that number |
| `SlideCard.ChangeTitle` | AIPresentation/client/src/components/SlideCard.tsx:65-69 | the title becomes the new one and no other field changes |
| `SlideCard.ChangeBullet` | AIPresentation/client/src/components/SlideCard.tsx:71-78 | the bullet count is kept, only bullet j becomes the new text, and no other field changes |
| `SlideCard.AddBullet` | AIPresentation/client/src/components/SlideCard.tsx:80-87 | "New bullet point" is appended at the end, the earlier bullets are kept, and only `bullets` changes |
| `SlideCard.RemoveBullet` | AIPresentation/client/src/components/SlideCard.tsx:89-96 | exactly bullet j is removed when in range, otherwise nothing; the others keep their order; only `bullets` changes |
| `SlideCard.ChangeLayout` | AIPresentation/client/src/components/SlideCard.tsx:98-102 | the layout becomes the new one and no other field changes |
| `SlideCard.AddImage` | AIPresentation/client/src/components/SlideCard.tsx:42-48 | the uploaded url is appended at the end of `images`, the earlier images are kept, and nothing else changes |
| `SlideCard.RemoveImage` | AIPresentation/client/src/components/SlideCard.tsx:111-118 | exactly image j is removed when in range, otherwise nothing; the others keep their order; only `images` changes |
| `SlideCard.EditKeepsIdentity` | AIPresentation/client/src/components/SlideCard.tsx:42-118 | no handler changes the slide's id or notes |
| `SlideCard.RemoveBulletUndoesAdd` | AIPresentation/client/src/components/SlideCard.tsx:80-96 | removing the bullet just added restores the slide |
| `SlideCard.RemoveImageUndoesUpload` | AIPresentation/client/src/components/SlideCard.tsx:42-48 | removing the image just uploaded restores the slide |
| `SlideCard.ChangeBulletToSame` | AIPresentation/client/src/components/SlideCard.tsx:71-78 | writing a bullet's own text back changes nothing |
| `ThemeSelector.NextFontSize` | AIPresentation/client/src/components/ThemeSelector.tsx:100-106 | the clamped index arithmetic gives the one-step move along small < medium < large, stopping at the ends |
| `ThemeSelector.IndexOf` | AIPresentation/client/src/components/ThemeSelector.tsx:101-102 | every font size has an index in [0, 2] that names it |
| `ThemeSelector.StepStopsAtEnds` | AIPresentation/client/src/components/ThemeSelector.tsx:103-104 | "up" from large stays large and "down" from small stays small |
| `ThemeSelector.StepMovesOne` | AIPresentation/client/src/components/ThemeSelector.tsx:103-106 | away from an end a step moves exactly one position, and up-then-down (or down-then-up) returns the original size |
| `ThemeSelector.MergeSettings` | AIPresentation/client/src/components/ThemeSelector.tsx:93 | each supplied settings key overrides and the others are kept |
| `ThemeSelector.InitialTheme` | AIPresentation/client/src/components/ThemeSelector.tsx:49 | the starting theme is the presentation's theme when non-empty and "professional" otherwise |
| `ThemeSelector.InitialSettings` | AIPresentation/client/src/components/ThemeSelector.tsx:50-56 | the starting settings are the presentation's, or 16:9 / medium / animations on when nothing is loaded |
| `ThemeSelector.PanelUpdatesTouchOneField` | AIPresentation/client/src/components/ThemeSelector.tsx:88-96 | once merged by the store, a theme update changes only the theme and a settings update replaces only the settings object, whole |
| `ThemeSelector.ThemeOnly` | AIPresentation/client/src/components/ThemeSelector.tsx:88 | the update supplies the theme and no other field |
| `ThemeSelector.SettingsOnly` | AIPresentation/client/src/components/ThemeSelector.tsx:96 | the update supplies the whole settings object and no other field |
| `ThemeSelector.ThemePanel.CanSubmit` | AIPresentation/client/src/components/ThemeSelector.tsx:87 | the panel may submit exactly when a presentation is loaded and its id is not the falsy 0, the same test as at ThemeSelector.tsx line 95 |
| `ThemeSelector.ThemePanel.constructor` | AIPresentation/client/src/components/ThemeSelector.tsx:49-56 | the panel state starts from the initial theme and settings |
| `ThemeSelector.ThemePanel.HandleThemeChange` | AIPresentation/client/src/components/ThemeSelector.tsx:85-90 | the selected theme becomes the new one; an update holding only `theme` is submitted iff a presentation with an id is loaded |
| `ThemeSelector.ThemePanel.HandleSettingsChange` | AIPresentation/client/src/components/ThemeSelector.tsx:92-98 | the panel settings become the merge; the whole merged object is submitted alone iff a presentation with an id is loaded |
| `ThemeSelector.ThemePanel.AdjustFontSize` | AIPresentation/client/src/components/ThemeSelector.tsx:100-107 | the font size takes one clamped step and the other settings are kept; the merged settings are submitted iff a presentation with an id is loaded |
| `Schema.SlidesOnly` | AIPresentation/client/src/components/OutlineEditor.tsx:44 | the update supplies the slides and no other field, as the literals at OutlineEditor.tsx lines 44, 51 and 67 do |
| `Schema.WithIdentity` | AIPresentation/shared/schema.ts:48-51 | a stored presentation is the insert shape plus the store-assigned `id` and `createdAt` |

## Left out

- HTTP plumbing is not modelled: Express routing, multer parsing, status and
  JSON writing. A reply is `Wrappers.Reply`: a body, or a status with the
  error text.
- Path parameters are not parsed by the model; `parseInt` is replaced by
  integer parameters. On the routes that look the id up (reprompt, PATCH,
  export and get), a NaN id behaves like any absent id (404). A NaN reprompt
  slide index behaves like a negative one (500). The model has only integers,
  so NaN itself does not appear.
- Image upload with a NaN presentation id is not modelled. The upload route
  never looks the id up, and the store turns NaN into null, so the source
  answers 200 with a record whose `presentationId` is null. The model's nearest
  case is id 0, which is also stored as no reference.
- Image upload with a missing body `slideIndex` is not modelled. The source
  stores `parseInt(undefined)`, which is NaN, as the record's `slideIndex`. The
  model's slide index is always an integer.
- JSON `null` is not modelled, and `Wrappers.Option.None` stands only for an
  absent field. A PATCH body field set to null would be merged into the record
  as null, while `None` keeps the stored value. A `reprompt` of null would be
  written as "null", while `Text.Interpolate` of `None` gives "undefined".
- JSON body values of the wrong type are not modelled either: the model's
  string fields are `Option<string>`. A numeric export `format` makes
  `format.toUpperCase()` throw, so the source answers 500 where the model has no
  such input. A numeric `reprompt` is written as its digits in the notes.
- The outline editor's mutation refuses to send an update when the loaded
  presentation's id is falsy. `OutlineEditor`'s handlers leave that guard out:
  every id the store issues is at least 1, so it cannot fire for a stored
  presentation. `ThemeSelector.ThemePanel.CanSubmit` models the same guard in
  the theme panel.
- Base64 encoding of an uploaded image and UTF-8 decoding of an uploaded
  document are Node library calls. Their results are given as inputs.
- `Text.ToUpper` models `toUpperCase` for ASCII letters only. Other
  characters are kept as they are.
- The canned generator ignores its prompt, context and model id, and the model
  reproduces that. A real generation backend is not part of this model.
  Upstream failures other than a missing key are not modelled.
- The PATCH body is not validated by the source, so keys outside the five
  insert fields (even `id` or `createdAt`) would be merged into the record.
  The model's `PresentationUpdate` holds only the five typed fields.
- The `theme` column default "professional" (shared/schema.ts:10) belongs to
  the database table. `MemStorage` does not apply it, and its only caller
  always supplies a theme. So the model's insert shape requires `theme`.
- Zod and drizzle schema validation are foreign code and are not modelled.
- The iteration order of the presentations map is not modelled. No operation
  observes it.
- React machinery is not modelled: react-query mutations, `fetch`, toasts,
  cache invalidation and JSX rendering. The model treats a handler's submitted
  update as its result.
- ThemeSelector reads the current `presentation` prop inside each handler.
  `ThemeSelector.ThemePanel` keeps the prop it was mounted with as a constant.
  A later prop that carries a different presentation id is therefore not
  modelled. A refetch of the same presentation keeps the id, so the submit
  guard and the target of the update are unchanged by it.
- SlideCard keeps a local copy of its slide. `useState` sets that copy only
  once, at mount. The model applies each edit to the slide it is given.
- Records have no concurrency control: two concurrent PATCH calls are
  last-writer-wins. The model is sequential.
- PromptInput, SlidePromptModal, ExportButtons and the builder page are form
  state and page wiring, so they are not modelled. client/src/types/index.ts
  duplicates the shared schema.
