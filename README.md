# Diary app core — a Dafny model

This project models the decision logic of a personal diary web application
(Next.js, TypeScript). Users write dated diary entries with a rich-text body,
an emotion tag and a weather tag. They browse entries by list, by search term
or by calendar day. The model covers the parts of the client that make
decisions or keep state:

- **Diary form** (`Form`): the reducer over the six-field form state,
  the initial state, the required-fields check, and the submit sequence. That
  sequence raises `isSubmitting`, makes one save (an update by id carrying the
  diary date, or a create without it), performs the save's toasts and
  navigation, and lowers the flag again.
- **Calendar picker** (`Calendar`): the `yyyy-MM-dd` key of a day, which
  days are marked (`hasDiary`) and which are disabled (`disabledDays`). It
  also models the three-way resolution of a picked day (no diary: info
  notice; one diary: open it; several: open a chooser with all of them) and
  the picker's state as a class.
- **Date chooser** (`DateSelector`): one button per candidate diary, in
  order, keyed by id. Selecting one opens the diary and closes the chooser
  (`Calendar.CalendarPicker.SelectDiary`); dismissing only closes it.
- **Tag icons** (`Tags`): first-match lookup in the emotion and weather tables,
  with `''` as the fallback.
- **Image upload** (`ImageUpload`): the image-type and 5 MiB guards, in that
  order; the `<timestamp>-<random>.<ext>` storage path; the result record;
  and the single generic error for any storage failure.
- **Search box** (`Search`): `URLSearchParams` `set`/`delete` of the
  `search` key, keeping every other parameter. Also the pushed URL, the
  initial term, clearing, and the debounce predicate that pushes only when
  the term differs from the URL's.
- **Editor image handling** (`Editor`): the extension with its `'jpg'`
  fallback, the `<folder>/<timestamp>.<ext>` path, the `isUploading` bracket,
  the image-only filter, and whether a drop or paste is taken over.

Shared pieces: `Diaries` (the `Diary` record and the `/diary/<id>` route),
`Text` (the JavaScript string built-ins used: `startsWith`,
`split('.').pop()`, decimal rendering of numbers), `Effects` (toasts and
router calls, appended in order to each component's effect log) and
`Wrappers` (Option, Result).

Clock readings (`Date.now()`, "today"), `Math.random()`, the store and storage
answers, and date-fns' locale formatting (`"a h:mm"`, `"yyyy년 MM월 dd일"`) are
parameters of the operations that use them.

Diary content reaches the form as an HTML string (`editor.getHTML()`), so
`content` is a `string` here.

## Model

| member | source | states |
|---|---|---|
| Effects.OrElse | src/components/diary/DiaryForm.tsx:106-110 | JavaScript `s \|\| fallback` on strings (also DiaryForm.tsx:151, :167 and CalendarPicker.tsx:33, :59): exactly the string when it is non-empty, exactly the fallback when it is empty |
| Diaries.DiaryPath | src/components/CalendarPicker.tsx:68 | the route of a diary is `/diary/` followed by exactly its id |
| Diaries.DiaryPathInjective | src/components/diary/DiaryDateSelector.tsx:37-38 | distinct ids lead to distinct pages, so a navigation identifies one diary |
| Text.StartsWith | src/lib/imageUpload.ts:11 | `startsWith` (also TiptapEditor.tsx:83, :106): true exactly when the string is at least as long as the prefix and agrees with it at every index |
| Text.LastSegment | src/lib/imageUpload.ts:22 | `split('.').pop()` (also TiptapEditor.tsx:33): the segment is a suffix of the name, no longer than it; LastSegmentSpec adds that it is dot-free and follows the last '.' |
| Text.LastSegmentSpec | src/lib/imageUpload.ts:22 | `split('.').pop()` is the dot-free suffix of the name that is all of it or follows its last '.' |
| Text.LastSegmentUnique | src/lib/imageUpload.ts:22 | those three facts determine the extension uniquely |
| Text.LastSegmentNoDot | src/lib/imageUpload.ts:22 | a name without '.' is its own extension |
| Text.LastSegmentOfJoin | src/lib/imageUpload.ts:23 | appending `.ext` (dot-free) to any prefix makes `ext` the last segment |
| Text.Decimal | src/lib/imageUpload.ts:23 | the rendering of a timestamp is a non-empty string of digits with no leading zero (`"0"` for zero) |
| Text.ParseDecimalOfDecimal | src/lib/imageUpload.ts:23 | reading the decimal rendering back gives the number (round trip) |
| Text.ZeroPad | src/components/CalendarPicker.tsx:55 | date-fns' padded `yyyy`, `MM` and `dd` fields: all digits, as wide as the width or the number's own rendering, whichever is longer |
| Text.ParseZeroPad | src/components/CalendarPicker.tsx:55 | the zero-padded fields of a date key read back as the numbers they render |
| Tags.Find | src/lib/utils.ts:39 | `Array.find`: absent exactly when no entry has the value; otherwise the entry at the least matching index |
| Tags.IconOf | src/lib/utils.ts:38-41 | the lookup returns `''` or one of the table's icons |
| Tags.GetEmotionIcon | src/lib/utils.ts:38-41 | `getEmotionIcon` returns `''` or one of the emotion icons |
| Tags.GetWeatherIcon | src/lib/utils.ts:44-47 | `getWeatherIcon` returns `''` or one of the weather icons |
| Tags.IconOfEntry | src/lib/utils.ts:19-41 | in a table with distinct values the first match is the only match, so each value gets its own entry's icon |
| Tags.IconOfMissing | src/lib/utils.ts:40 | with non-empty icons, the result is `''` exactly when no entry has the value |
| Tags.IconOfSpec | src/lib/utils.ts:38-47 | both facts together: each table value maps to its icon, and `''` exactly for values not in the table |
| Tags.EmotionTableWellFormed | src/lib/utils.ts:19-26 | emotion values are pairwise distinct and every icon is non-empty |
| Tags.WeatherTableWellFormed | src/lib/utils.ts:29-35 | weather values are pairwise distinct and every icon is non-empty |
| Tags.EmotionIconSpec | src/lib/utils.ts:38-41 | every emotion value yields its own icon; any other string yields `''` |
| Tags.WeatherIconSpec | src/lib/utils.ts:44-47 | every weather value yields its own icon; any other string yields `''` |
| Tags.CapitalisedValueHasNoIcon | src/lib/utils.ts:39 | matching is exact: `'Happy'` and `'Sunny'` yield `''` |
| Form.OptionsMirrorTables | src/components/diary/DiaryForm.tsx:20-35 | the form's select options carry the tag tables' values and captions, in the same order |
| Form.EmotionOptionHasIcon | src/components/diary/DiaryForm.tsx:20-27 | every emotion the form can store has a non-empty icon in the list view |
| Form.WeatherOptionHasIcon | src/components/diary/DiaryForm.tsx:29-35 | every weather the form can store has a non-empty icon in the list view |
| Form.Reduce | src/components/diary/DiaryForm.tsx:64-99 | each action writes only the fields it names, and every other field is unchanged. SET_* stores its payload. RESET_FORM gives empty texts, today's date and not submitting. LOAD_DIARY copies the diary's fields and clears the flag. An unrecognised action changes nothing |
| Form.ReduceIdempotent | src/components/diary/DiaryForm.tsx:64-99 | dispatching any action twice equals dispatching it once |
| Form.ReduceForgetsPriorState | src/components/diary/DiaryForm.tsx:78-95 | RESET_FORM and LOAD_DIARY give the same state whatever the prior state |
| Form.ReduceCommutes | src/components/diary/DiaryForm.tsx:66-77 | actions writing disjoint fields commute |
| Form.InitialState | src/components/diary/DiaryForm.tsx:105-112 | fields come from the diary when there is one, else `''`. The date falls back to today when it is absent or empty. Never submitting |
| Form.InitialStateIsLoad | src/components/diary/DiaryForm.tsx:105-122 | starting from a diary with a non-empty date equals loading it with LOAD_DIARY |
| Form.InitialStateIsReset | src/components/diary/DiaryForm.tsx:78-112 | starting without a diary equals RESET_FORM |
| Form.IsFormValid | src/components/diary/DiaryForm.tsx:125-131 | valid exactly when title, content, emotion and weather are all non-empty |
| Form.ValidityIgnoresDateAndFlag | src/components/diary/DiaryForm.tsx:126 | the diary date and the submitting flag never affect validity |
| Form.ResetFormInvalid | src/components/diary/DiaryForm.tsx:78-86 | a freshly reset form is invalid |
| Form.RequestFor | src/components/diary/DiaryForm.tsx:136-160 | editing an existing diary sends an update by its id with the diary date. Otherwise it sends a create with only the title, content, emotion and weather |
| Form.SaveEffects | src/components/diary/DiaryForm.tsx:146-173 | exactly one toast. On success it shows the update or create message, pushes `/diary/<id>` (update) or `/` (create) and then refreshes. A failed save shows only an error toast with no description: the action's message, or the default for an update or a create. A throw shows only the generic error toast. Neither failure navigates |
| Form.DiaryForm.constructor | src/components/diary/DiaryForm.tsx:105-114 | the component starts from the initial state with no saves and no effects |
| Form.DiaryForm.Dispatch | src/components/diary/DiaryForm.tsx:114 | the new state is the reducer applied to the old one |
| Form.DiaryForm.LoadDiaryEffect | src/components/diary/DiaryForm.tsx:118-122 | each run of the effect (after mount and whenever `diary` or `isEditing` changes) loads the diary over the current state in edit mode with a diary; otherwise nothing changes |
| Form.DiaryForm.HandleSubmit | src/components/diary/DiaryForm.tsx:177-185 | an invalid form only toasts, with no save. A valid form makes one save while `isSubmitting` is true, performs the save's effects, and ends with the flag false and every other field unchanged |
| Calendar.Format | src/components/CalendarPicker.tsx:55 | the `yyyy-MM-dd` key of a day |
| Calendar.ParseFormat | src/components/CalendarPicker.tsx:55 | the key of a valid day reads back as that day (round trip) |
| Calendar.FormatInjective | src/components/CalendarPicker.tsx:93-96 | distinct days have distinct keys, so each stored date marks one day |
| Calendar.HasDiary | src/components/CalendarPicker.tsx:93-96 | a day is marked exactly when its `yyyy-MM-dd` key is among the diary dates; with FormatInjective, one stored date marks one day |
| Calendar.IsDisabled | src/components/CalendarPicker.tsx:100-107 | a day is enabled exactly when it is not before 1900-01-01, not after today, and has a diary |
| Calendar.Resolve | src/components/CalendarPicker.tsx:56-80 | a failed lookup gives its message or the default. Otherwise: 0 diaries gives no diary, exactly 1 resolves to its id, and 2 or more give all of them in the returned order |
| Calendar.Found | src/components/CalendarPicker.tsx:63 | the diaries of a successful lookup, `data ?? []`; its partner is Resolve, which branches on their number |
| Calendar.ResolveNeverGuesses | src/components/CalendarPicker.tsx:65-74 | several matches never resolve silently; every candidate is offered |
| Calendar.CalendarPicker.constructor | src/components/CalendarPicker.tsx:18-23 | the picker starts on today with no dates, not loading, and the chooser closed and empty |
| Calendar.CalendarPicker.FetchDiaryDates | src/components/CalendarPicker.tsx:28-42 | on data the dates become `data ?? []`. On an error or a throw, the dates are kept and an error toast is shown |
| Calendar.CalendarPicker.HandleDateSelect | src/components/CalendarPicker.tsx:48-84 | an undefined pick changes nothing. Otherwise it shows the day and queries its key with loading on. Failure shows an error and no diary shows info, both without navigating or touching the chooser. One diary navigates to it. Several fill and open the chooser without navigating. Loading ends false on every path |
| Calendar.CalendarPicker.HandleCloseModal | src/components/CalendarPicker.tsx:87-89 | closing or dismissing the chooser only closes it |
| Calendar.CalendarPicker.SelectDiary | src/components/diary/DiaryDateSelector.tsx:37-40 | choosing a candidate navigates to `/diary/<id>` first and then closes the chooser |
| Calendar.PickThenChoose | src/components/CalendarPicker.tsx:69-74 | picking a day with several diaries and choosing one opens exactly that diary |
| DateSelector.ChoiceFor | src/components/diary/DiaryDateSelector.tsx:63-76 | one button of `diaries.map`: keyed by the diary's id, showing its title, its formatted `created_at`, its emotion and its weather |
| DateSelector.Choices | src/components/diary/DiaryDateSelector.tsx:63-76 | one button per diary in the given order: its id as key, and its title, formatted creation time, emotion and weather |
| DateSelector.View | src/components/diary/DiaryDateSelector.tsx:56-69 | the shown count equals the number of diaries passed in and of buttons |
| DateSelector.ChoosableIds | src/components/diary/DiaryDateSelector.tsx:63-68 | an id can be chosen exactly when it is the id of one of the diaries passed in |
| ImageUpload.IsImage | src/lib/imageUpload.ts:11 | the type starts with `image/`; Admission rejects exactly the files for which this fails |
| ImageUpload.ErrorMessage | src/lib/imageUpload.ts:12-42 | each rejection throws a non-empty message of its own |
| ImageUpload.ErrorMessagesDistinct | src/lib/imageUpload.ts:12-42 | the three messages differ, so the thrown message tells which guard or the storage failed |
| ImageUpload.Admission | src/lib/imageUpload.ts:11-19 | rejects a non-image type first. Then it rejects a size above 5·1024·1024. Otherwise it admits the file |
| ImageUpload.AdmissionBoundary | src/lib/imageUpload.ts:16-19 | exactly 5 MiB is accepted, one byte more is too large, and an oversized non-image gets the type error |
| ImageUpload.FilePath | src/lib/imageUpload.ts:22-24 | `<timestamp>-<random>.<ext>`; FilePathKeepsExtension and FilePathHasNoFolder state what it guarantees |
| ImageUpload.FilePathKeepsExtension | src/lib/imageUpload.ts:22-24 | the stored path ends in the file's own extension |
| ImageUpload.FilePathHasNoFolder | src/lib/imageUpload.ts:23-24 | the path has no folder part |
| ImageUpload.Upload | src/lib/imageUpload.ts:9-44 | a guard failure gives that error with no upload. Otherwise it succeeds exactly when storing the computed path succeeds, and returns that path with its public URL. Any storage failure is the one generic error |
| Editor.Extension | src/components/editor/TiptapEditor.tsx:33 | the last segment of the name, or `jpg` exactly when that segment is empty |
| Editor.ExtensionIsOneSegment | src/components/editor/TiptapEditor.tsx:33 | the extension is never empty and never contains '.' |
| Editor.Folder | src/components/editor/TiptapEditor.tsx:25 | the diary id when non-empty, else `temp-<render timestamp>` |
| Editor.TempFolderPerRender | src/components/editor/TiptapEditor.tsx:25 | without a diary id, renders at different times name different `temp-` folders, and equal times the same one |
| Editor.UploadPath | src/components/editor/TiptapEditor.tsx:33-35 | `<folder>/<timestamp>.<ext>`; UploadPathExtension and UploadPathFolder state what it guarantees |
| Editor.UploadPathExtension | src/components/editor/TiptapEditor.tsx:33-35 | the stored path's extension is the file's, or `jpg` |
| Editor.UploadPathFolder | src/components/editor/TiptapEditor.tsx:35 | the stored path starts with the folder and '/' |
| Editor.ImageFiles | src/components/editor/TiptapEditor.tsx:83 | keeps exactly the files whose type starts with `image/` |
| Editor.ImageFilesAppend | src/components/editor/TiptapEditor.tsx:106 | the filter keeps order: filtering a concatenation concatenates the filtered parts |
| Editor.Take | src/components/editor/TiptapEditor.tsx:85-99 | taken over exactly when some image file is present, uploading exactly those |
| Editor.HandleDrop | src/components/editor/TiptapEditor.tsx:80-102 | handled exactly when not a move, files are present and at least one is an image. Then it uploads the image files; otherwise false and no upload |
| Editor.HandlePaste | src/components/editor/TiptapEditor.tsx:103-125 | handled exactly when files are present and at least one is an image; otherwise false |
| Editor.PasteIsUnmovedDrop | src/components/editor/TiptapEditor.tsx:80-125 | a paste decides like an unmoved drop of the same files |
| Editor.TiptapEditor.HandleImageUpload | src/components/editor/TiptapEditor.tsx:25-65 | the handler uploads into the `tempDiaryId` of the render that created it. One upload to `<folder>/<now>.<ext>` runs with `isUploading` true. The flag is false afterwards on every path. Success yields the public URL; a rejection or a throw yields none, with the matching error toast |
| Editor.TiptapEditor.InsertImage | src/components/editor/TiptapEditor.tsx:89-95 | an image is inserted, with a success toast, only when the upload yields a non-empty URL; a failed upload inserts nothing and adds only handleImageUpload's error toast (the storage message, or the generic one after a throw) |
| Search.Get | src/components/SearchBar.tsx:15 | `get` is absent exactly when no pair has the name; otherwise it is the value of the pair at the least index with that name |
| Search.Without | src/components/SearchBar.tsx:25 | keeps exactly the pairs of other names |
| Search.WithoutAppend | src/components/SearchBar.tsx:25 | the filter keeps order and count: filtering a concatenation concatenates the filtered parts |
| Search.Delete | src/components/SearchBar.tsx:25 | after `delete`, the name is absent and every other pair is unchanged, in order |
| Search.Set | src/components/SearchBar.tsx:23 | after `set`, the name reads as the value and occurs once, and every other pair is unchanged, in order |
| Search.SetAppendsWhenAbsent | src/components/SearchBar.tsx:23 | with no pair of that name, `set` appends the new pair after all the others |
| Search.SetReplacesFirst | src/components/SearchBar.tsx:23 | with a pair of that name, the new pair takes the place of the first one, the pairs before it stay, and later pairs of that name go |
| Search.GetOther | src/components/SearchBar.tsx:20-26 | lists that agree outside one name read the same for every other name |
| Search.UpdatedParams | src/components/SearchBar.tsx:22-26 | a non-empty term sets `search`: it replaces the first `search` pair in place, or is appended when there is none. An empty term removes every `search` pair. The other pairs are unchanged, in order |
| Search.UpdateKeepsOtherParams | src/components/SearchBar.tsx:20-26 | every parameter other than `search` reads the same after an update |
| Search.Serialize | src/components/SearchBar.tsx:28 | `name=value` pairs joined by `&`, in list order (no percent-encoding, see below) |
| Search.SearchUrl | src/components/SearchBar.tsx:28 | the pushed URL is the pathname, `?`, and the updated list serialized |
| Search.CurrentTerm | src/components/SearchBar.tsx:54 | the URL's term, with an absent parameter read as `''` |
| Search.ShouldPush | src/components/SearchBar.tsx:54 | the debounced push is due exactly when the local term differs from the URL's; PushSettles is its partner |
| Search.PushSettles | src/components/SearchBar.tsx:52-60 | once the URL carries the pushed parameters, the debounced condition is false |
| Search.SearchBar.constructor | src/components/SearchBar.tsx:15 | the local term starts as the URL's `search` value, or `''` |
| Search.SearchBar.UpdateSearchParam | src/components/SearchBar.tsx:18-31 | pushes `pathname?` followed by the serialized updated parameters |
| Search.SearchBar.HandleSearch | src/components/SearchBar.tsx:34-37 | typing only changes the local term |
| Search.SearchBar.HandleSubmit | src/components/SearchBar.tsx:40-43 | submit pushes the current term, changed or not |
| Search.SearchBar.ClearSearch | src/components/SearchBar.tsx:46-49 | clearing empties the term and pushes a URL without `search` |
| Search.SearchBar.DebounceElapsed | src/components/SearchBar.tsx:52-57 | the timer pushes exactly when the term differs from the URL's |
| Search.SearchBar.ParamsChanged | src/components/SearchBar.tsx:14-15 | a new URL replaces the parameters and keeps the local term |
| Search.TypeAndSettle | src/components/SearchBar.tsx:34-60 | typing and waiting pushes at most once. Once the URL has caught up, no further push is due |

## Left out

- Network and storage: the entry store, the server actions and the storage
  bucket are not modelled. Their answers are inputs: `SaveOutcome`,
  `StoreResult`, `StorageReply`, and the `stored`/`publicUrl` functions.
- Clock and randomness: `Date.now()`, `new Date()` (today) and
  `Math.random().toString(36)` are parameters.
- Locale formatting: date-fns' `"a h:mm"` and `"yyyy년 MM월 dd일"` come in as a
  function and a string. `formatDate` in `src/lib/utils.ts` is not modelled.
- Calendar.IsDisabled: compares at day granularity. The source compares
  instants, and `new Date("1900-01-01")` is UTC midnight. In time zones east
  of UTC, that can also disable 1900-01-01 itself.
- Search.Serialize: `URLSearchParams.toString()` percent-encodes names and
  values (form-urlencoded); the model joins them verbatim.
- Editor.TiptapEditor.InsertImage: the source starts one asynchronous upload per image
  file at once (`forEach(async …)`), and the images are inserted in
  completion order. The model covers one file's upload and insertion, not
  their interleaving.
- The debounce timer (`setTimeout`/`clearTimeout`): only its firing
  (`DebounceElapsed`) and its condition are modelled.
- The editor surface: the Tiptap document, `onUpdate` HTML, toolbar
  commands and the editor configuration (`src/lib/editor.ts`) are an
  external library.
- `src/components/DiaryCard.tsx:4` imports `extractFirstImageUrl` and
  `extractTextPreview` from `@/lib/utils`, which does not define them.
  `src/components/CalendarPicker.tsx:7` imports `getDiaryByDate` and
  `getDiaryDates` from `@/lib/diary`, which does not define them either. Their
  results are inputs here (`StoreResult`). `getDiaries`
  (`src/lib/diary.ts:34-45`) has no title filter. None of these is modelled.
- Form.DiaryForm.HandleSubmit: modelled as running without interleaved
  events. In the source, the field inputs stay enabled during the `await` at
  `DiaryForm.tsx:183`; only the buttons are disabled (`:257`, `:261`). So a
  SET_TITLE or another field action can land mid-save. The save still sends
  the fields read before the `await`, but the model does not capture those
  interleaved edits.
- Calendar.CalendarPicker.HandleDateSelect: modelled as running without
  interleaved events. The source has no loading guard (`CalendarPicker.tsx:119-126`),
  so a second pick during the `await` at `:56` starts a second lookup. The
  first lookup's `finally` (`:81-83`) then lowers `isLoading` while the second
  is still in flight, and a late answer can navigate after a newer pick.
- Rendering, routing pages, the delete button, `src/lib/constants.ts` (a copy
  of the tag tables) and the older `calendar-picker.tsx`: presentational or
  duplicate.
- The toast after a successful save is followed by `router.push` and
  `router.refresh`. These are recorded as effects; the page change itself is
  not modelled.
