# Dealership front end: the logic of its pages, in Dafny

This project models the sequential logic of a car dealership's web pages:

- the inventory page (`Estoque`): the search, brand, year and price filter,
  and the list of brand options;
- the Zod schemas that check the forms on the admin page, the sign-in page,
  the proposal form and the sell-your-car form;
- the controllers behind those four forms, as classes whose fields are the
  page's state:
  - the admin's vehicle draft: create, edit, save and delete;
  - the sign-in / register toggle;
  - the purchase and financing proposal form;
  - the sell-your-car form with its upload loop;
- the file-extension rule used to name uploads, and the picture gallery with
  its placeholder fallback.

Modules:

- `Text` holds the string operations the pages use: `toLowerCase`, `trim`,
  `includes`, `split('.').pop()` and the order of the default `sort`.
- `Zod` is a small interpreter for the schema checks these pages use:
  - the length and email checks on strings;
  - the bounds on numbers;
  - the rule that the first issue, in key order, is the message shown.
- `Platform` models the hosted backend:
  - the requests a page sends (upload, insert, update, delete, sign-in,
    sign-up);
  - the `Environment` that answers them;
  - a `Service` that logs every call with its reply;
  - the toast type.
- `Inventory`, `AdminPanel`, `SignIn`, `Proposals` and `SellVehicle` model one
  page each.

Each state-changing handler is a method of its page's class. Its `ensures`
ties the new state and the calls it made to a function of the old state, such
as `SaveSpec`, `SubmitSpec` or `UploadAll`. Lemmas about those functions state
what the page promises:

- validation comes before any backend call;
- a failed upload stops the loop and no row is written;
- an accepted form is written exactly once, and the written row carries the
  validated fields;
- the state after success, and the state after failure.

The backend is an environment. It fixes the reply to the n-th call, the
random stem of a file name uploaded as the n-th call, and the public URL of a
stored path. Any backend behaviour can be chosen this way, so every property
holds whatever the backend does.

## Model

| member | source | states |
|---|---|---|
| Text.LowerIdempotent | src/pages/Estoque.tsx:38-40 | lower-casing an already lower-cased text changes nothing |
| Text.ContainsIff | src/pages/Estoque.tsx:38-40 | `includes` holds exactly when the needle occurs at some index of the text; the empty needle occurs in every text |
| Text.TrimStartSpec | src/pages/Admin.tsx:14 | removing leading white space keeps a suffix whose first character is not white space; everything removed was white space |
| Text.TrimEndSpec | src/pages/Admin.tsx:14 | removing trailing white space keeps a prefix whose last character is not white space; everything removed was white space |
| Text.TrimSpec | src/pages/Admin.tsx:14-16 | `trim` returns the contiguous piece of the text between the leading and trailing white space; neither end of the piece is white space; every character outside it is white space |
| Text.TrimBoundaries | src/pages/Auth.tsx:12 | a text whose ends are not white space is left as it is; an all-white-space text trims to empty |
| Text.TrimIdempotent | src/pages/Admin.tsx:14-16 | trimming twice gives the same result as trimming once |
| Text.ExtensionIsLastPart | src/pages/VenderVeiculo.tsx:60 | `split('.').pop()` is a suffix of the name with no '.' in it, preceded by a '.' when the name has one; a name without '.' is its own extension |
| Text.ExtensionAfterDot | src/pages/Admin.tsx:97-98 | the name `${stem}.${ext}` has extension `ext` whenever `ext` has no '.' |
| Text.LessIrreflexive | src/pages/Estoque.tsx:32 | the default `sort` order never puts a string before itself |
| Text.LessTransitive | src/pages/Estoque.tsx:32 | the default `sort` order is transitive |
| Text.LessTotal | src/pages/Estoque.tsx:32 | any two different strings are ordered one way or the other |
| Zod.StringIssues | src/pages/Admin.tsx:14 | a string key raises at most one issue per check, and when its first check fails, that check's message comes first |
| Zod.StringIssuesNone | src/pages/Admin.tsx:14-16 | a string key raises no issue exactly when every one of its checks passes |
| Zod.LengthBetween | src/pages/Admin.tsx:14 | `.min(lo).max(hi)` accepts exactly the lengths from lo to hi |
| Zod.LengthAtLeast | src/pages/VehicleDetails.tsx:17 | `.min(lo)` accepts exactly the lengths of at least lo |
| Zod.LengthAtMost | src/pages/Admin.tsx:20 | `.max(hi)` accepts exactly the lengths of at most hi |
| Zod.EmailAtMost | src/pages/Auth.tsx:12 | `.email().max(hi)` accepts exactly the e-mail addresses of length at most hi |
| Zod.EmailOnly | src/pages/VehicleDetails.tsx:18 | `.email()` accepts exactly the texts the e-mail pattern accepts |
| Zod.NumberIssues | src/pages/Admin.tsx:17-19 | NaN is rejected once, as not a number, before any bound is checked; otherwise a number key raises at most one issue per bound |
| Zod.NumberBetween | src/pages/Admin.tsx:17 | `.min(lo).max(hi)` accepts exactly the finite numbers from lo to hi |
| Zod.NumberAtLeast | src/pages/Admin.tsx:18 | `.min(lo)` accepts exactly the numbers of at least lo, +Infinity included and NaN excluded |
| Zod.FirstIssue | src/pages/Admin.tsx:147-148 | parsing succeeds exactly when there is no issue and then returns the value; otherwise it carries the first issue's message |
| Platform.UploadNameKeepsExtension | src/pages/Admin.tsx:97-98 | the stored name `${Math.random()}.${fileExt}` has the same extension as the chosen file |
| Platform.Service.Call | src/pages/Admin.tsx:101-105 | a backend call appends the request and the environment's reply to the log, and returns that reply |
| Inventory.Filter | src/pages/Estoque.tsx:36-56 | the result is never longer than the input; every kept vehicle matches all four criteria, and every input vehicle that matches them is kept |
| Inventory.FilteredVehicles | src/pages/Estoque.tsx:36 | the filtered list exists exactly when the vehicles are loaded, and is then the filter of them |
| Inventory.FilterIsSubsequence | src/pages/Estoque.tsx:36 | the filtered list is a subsequence of the loaded vehicles, in their order |
| Inventory.FilterIdempotent | src/pages/Estoque.tsx:36-56 | filtering the filtered list again changes nothing |
| Inventory.FilterKeepsMatching | src/pages/Estoque.tsx:36-56 | a list whose vehicles all match comes back unchanged |
| Inventory.SearchTerm | src/pages/Estoque.tsx:37-40 | an empty search term matches every vehicle; otherwise a vehicle matches exactly when the lower-cased term occurs in its lower-cased name, model or brand |
| Inventory.BrandSelection | src/pages/Estoque.tsx:42 | the brand "all" admits every vehicle; any other brand admits exactly the vehicles of that brand |
| Inventory.YearBuckets | src/pages/Estoque.tsx:44-47 | every vehicle is either "new" or "used", never both; the year 2022 is "new" |
| Inventory.PriceBuckets | src/pages/Estoque.tsx:49-53 | "low", "mid" and "high" partition the prices; 50000 is "mid" and 100000 is "high" |
| Inventory.ToyotaExample | src/pages/Estoque.tsx:36-56 | a 2023 Toyota at 80000 passes Toyota / new / mid, and a 2019 Ford at 40000 does not |
| Inventory.BrandsOf | src/pages/Estoque.tsx:32 | `vehicles.map(v => v.brand)` has one brand per vehicle, in order |
| Inventory.Distinct | src/pages/Estoque.tsx:32 | `new Set(...)` keeps exactly the values present, each once |
| Inventory.SortSorted | src/pages/Estoque.tsx:32 | the sorted list is in order and is a permutation of its input |
| Inventory.BrandOptionsSpec | src/pages/Estoque.tsx:31-33 | the brand options are strictly sorted, have no duplicates, and are exactly the brands of the loaded vehicles |
| AdminPanel.ParseVehicle | src/pages/Admin.tsx:13-21 | a draft is accepted exactly when the trimmed name and model have 1 to 100 characters, the trimmed brand 1 to 50, the year is in 1900..2030, km and price are at least 0 and the trimmed description has at most 1000; the accepted value is the trimmed draft |
| AdminPanel.VehicleIssuesIff | src/pages/Admin.tsx:13-21 | the schema raises no issue exactly when the draft meets those conditions |
| AdminPanel.BlankNameFirst | src/pages/Admin.tsx:14 | a blank name is reported as "Nome é obrigatório", whatever the other fields |
| AdminPanel.NegativePriceMessage | src/pages/Admin.tsx:19 | an otherwise acceptable draft with price -1 is rejected with the price's own minimum message |
| AdminPanel.EditDraft | src/pages/Admin.tsx:172-184 | editing copies the vehicle's fields into the draft, a missing description as "", sets `editingId` to the vehicle's id and shows the form |
| AdminPanel.Payload | src/pages/Admin.tsx:123-126 | the row carries the validated fields, and has an `image_url` key exactly when the URL is truthy, then with that URL |
| AdminPanel.SaveValidatesFirst | src/pages/Admin.tsx:116-139 | a rejected draft makes no backend call, keeps the state and shows the first issue; an accepted draft makes a call |
| AdminPanel.NegativePriceMakesNoCall | src/pages/Admin.tsx:116 | a price of -1 means no upload, update or insert, and the draft is unchanged |
| AdminPanel.SaveUploadsFirst | src/pages/Admin.tsx:96-121 | with a file chosen, the first call uploads it to `vehicle-images` under a name keeping its extension, and a write follows exactly when the upload succeeded |
| AdminPanel.SaveWritesOnce | src/pages/Admin.tsx:128-139 | an accepted draft is written exactly once unless its upload failed: an update keyed by `editingId` when that is set, an insert otherwise |
| AdminPanel.SavePayload | src/pages/Admin.tsx:118-126 | the written row carries the validated fields; it has `image_url` only when a file was uploaded and its public URL is not empty, and then it is that URL |
| AdminPanel.SaveOutcome | src/pages/Admin.tsx:141-152 | a save whose write succeeds resets the form and reports "atualizado" or "adicionado" by the mode before the reset; any other save leaves the draft unchanged and shows the first issue or "Erro ao salvar veículo" |
| AdminPanel.DeleteSpec | src/pages/Admin.tsx:155-170 | nothing happens unless the user confirms; then exactly one delete keyed by the given id, followed by the success or the error toast |
| AdminPanel.AdminPage.constructor | src/pages/Admin.tsx:26-39 | the page starts with the default draft for the current year: no image, not editing, form hidden |
| AdminPanel.AdminPage.OpenForm | src/pages/Admin.tsx:210 | "add vehicle" shows the form and changes nothing else |
| AdminPanel.AdminPage.SetFormData | src/pages/Admin.tsx:232 | typing replaces the draft's fields and changes nothing else |
| AdminPanel.AdminPage.ChooseImage | src/pages/Admin.tsx:311 | choosing files keeps the first one, or none when the list is empty |
| AdminPanel.AdminPage.ResetForm | src/pages/Admin.tsx:81-94 | the draft returns to its defaults with no image, not editing, form hidden |
| AdminPanel.AdminPage.HandleEdit | src/pages/Admin.tsx:172-184 | the new state is the edit draft of the old one for that vehicle |
| AdminPanel.AdminPage.HandleDelete | src/pages/Admin.tsx:186-190 | the calls and toast are those of `DeleteSpec`; the draft is unchanged |
| AdminPanel.AdminPage.Save | src/pages/Admin.tsx:114-153 | the calls made, the new state and the toast are those of `SaveSpec` for the old state |
| AdminPanel.AdminPage.SaveParsedForm | src/pages/Admin.tsx:146-152 | once the schema has run, the page's calls, state and toast follow `SaveParsed` |
| AdminPanel.AdminPage.SaveValid | src/pages/Admin.tsx:118-121 | an accepted draft uploads its file if any, then writes, as `SaveParsed` says |
| AdminPanel.AdminPage.Write | src/pages/Admin.tsx:123-145 | the write and its outcome follow `WriteSpec` |
| SignIn.CredentialIssuesIff | src/pages/Auth.tsx:11-14 | the schema raises no issue exactly when the trimmed e-mail is an address of at most 255 characters and the password has 6 to 100 |
| SignIn.ParseCredentials | src/pages/Auth.tsx:11-14 | credentials are accepted exactly under those conditions, and the accepted e-mail is the trimmed one |
| SignIn.ShortPasswordMessage | src/pages/Auth.tsx:13 | a valid e-mail with a 4-character password is rejected with the password's message |
| SignIn.ErrorMessage | src/pages/Auth.tsx:64-73 | a schema error shows its first message; a backend error shows "Email ou senha incorretos" exactly when its text contains "Invalid login credentials", else "Este email já está cadastrado" exactly when it contains "User already registered", else the generic text |
| SignIn.BothErrorsNamed | src/pages/Auth.tsx:67-70 | a backend text naming both errors gets the wrong-credentials message |
| SignIn.SubmitValidatesFirst | src/pages/Auth.tsx:37-38 | a rejected form makes no call and never sets `loading`; an accepted one makes a call and sets it |
| SignIn.ShortPasswordMakesNoCall | src/pages/Auth.tsx:37-38 | registering with a 4-character password makes no call and never sets `loading` |
| SignIn.SubmitCallsMatchMode | src/pages/Auth.tsx:40-57 | an accepted form makes exactly one call: a sign-in in login mode, a sign-up redirecting to `/admin` in register mode, each with the trimmed e-mail |
| SignIn.SubmitOutcome | src/pages/Auth.tsx:46-76 | `loading` ends false; a successful login goes to `/admin`, a successful sign-up switches to login mode; a failure keeps the mode and shows the cascade's message |
| SignIn.AuthPage.constructor | src/pages/Auth.tsx:17-20 | the page starts in login mode, with empty inputs and not loading |
| SignIn.AuthPage.ToggleMode | src/pages/Auth.tsx:137 | the toggle flips the mode and changes nothing else, so two toggles restore it |
| SignIn.AuthPage.SetInputs | src/pages/Auth.tsx:110 | typing replaces the two inputs and changes nothing else |
| SignIn.AuthPage.SetLoading | src/pages/Auth.tsx:20 | `setLoading` sets the flag and records the value |
| SignIn.AuthPage.Submit | src/pages/Auth.tsx:33-77 | the call, mode, toast, navigation and `loading` values are those of `SubmitSpec` for the old state |
| SignIn.AuthPage.SubmitWith | src/pages/Auth.tsx:38-76 | once the schema has run, the page follows `SubmitParsed` |
| Proposals.Gallery | src/pages/VehicleDetails.tsx:154-156 | the gallery is never empty: the fetched URLs in order when there are any, else the vehicle's picture when truthy, else "/placeholder.svg" |
| Proposals.URLs | src/pages/VehicleDetails.tsx:155 | one URL per fetched row, in order |
| Proposals.GalleryOrigin | src/pages/VehicleDetails.tsx:154-156 | every picture shown is a fetched URL, the vehicle's own non-empty picture, or the placeholder |
| Proposals.ProposalIssuesIff | src/pages/VehicleDetails.tsx:16-21 | the schema raises no issue exactly when the name has at least 3 characters, the e-mail is an address, and the phone and the message have at least 10, untrimmed |
| Proposals.ParseProposal | src/pages/VehicleDetails.tsx:16-21 | a proposal is accepted exactly under those conditions, and returned unchanged |
| Proposals.ShortNameFirst | src/pages/VehicleDetails.tsx:17 | a name shorter than 3 is reported first, whatever the other fields |
| Proposals.KindFor | src/pages/VehicleDetails.tsx:270 | the type is "purchase" exactly when the proposal form is shown, even when the financing form is shown too |
| Proposals.RowFor | src/pages/VehicleDetails.tsx:84-91 | the row carries the route's vehicle id, the type and the four fields under `customer_*` and `message` |
| Proposals.SubmitInsertsValidated | src/pages/VehicleDetails.tsx:82-91 | no insert unless validation succeeds; then exactly one, of that row |
| Proposals.SubmitOutcome | src/pages/VehicleDetails.tsx:93-119 | `isSubmitting` goes true then false; a success clears the form and hides both forms; a failure keeps the state and shows the first issue or "Erro ao enviar" |
| Proposals.ProposalPage.constructor | src/pages/VehicleDetails.tsx:28-36 | the page starts with an empty form, both forms hidden, not submitting |
| Proposals.ProposalPage.ToggleProposalForm | src/pages/VehicleDetails.tsx:243 | the purchase button flips its flag only |
| Proposals.ProposalPage.ToggleFinancingForm | src/pages/VehicleDetails.tsx:252 | the financing button flips its flag only |
| Proposals.ProposalPage.Cancel | src/pages/VehicleDetails.tsx:316-319 | "Cancelar" hides both forms and keeps what was typed |
| Proposals.ProposalPage.SetFormData | src/pages/VehicleDetails.tsx:276 | typing replaces the form and changes nothing else |
| Proposals.ProposalPage.SetSubmitting | src/pages/VehicleDetails.tsx:30 | `setIsSubmitting` sets the flag and records the value |
| Proposals.ProposalPage.Submit | src/pages/VehicleDetails.tsx:270 | the form's submit sends the type chosen by the flags, then behaves as `SubmitSpec` |
| Proposals.ProposalPage.HandleSubmitProposal | src/pages/VehicleDetails.tsx:77-120 | the insert, the new state, the toast and the `isSubmitting` values are those of `SubmitSpec` |
| Proposals.ProposalPage.SubmitWith | src/pages/VehicleDetails.tsx:81-116 | once the schema has run, the page follows `SubmitParsed` |
| SellVehicle.Coerce | src/pages/VenderVeiculo.tsx:51-55 | the two number inputs become `Number` of the typed text; the other keys pass through unchanged |
| SellVehicle.SaleIssuesIff | src/pages/VenderVeiculo.tsx:15-23 | the schema raises no issue exactly when the name has 3 to 100 characters, the e-mail is an address, the phone has at least 10, the vehicle name at least 3, km and price are at least 0 and the observation has at most 500 |
| SellVehicle.ParseSale | src/pages/VenderVeiculo.tsx:15-23 | a request is accepted exactly under those conditions, and returned unchanged |
| SellVehicle.NaNKmMessage | src/pages/VenderVeiculo.tsx:20 | a km input that is not a number is rejected with Zod's not-a-number message, not "KM inválido" |
| SellVehicle.UploadAll | src/pages/VenderVeiculo.tsx:58-73 | the loop makes at most one call per file, one per file when nothing fails, and at least one when there is a file |
| SellVehicle.UploadNext | src/pages/VenderVeiculo.tsx:59-72 | one turn of the loop makes exactly one call and collects at most one URL |
| SellVehicle.UploadCalls | src/pages/VenderVeiculo.tsx:59-64 | the i-th call uploads the i-th selected file to `vehicle-sale-images` under the i-th random stem and the file's extension |
| SellVehicle.UploadReplies | src/pages/VenderVeiculo.tsx:66 | the loop fails exactly when its last call failed, and every earlier call succeeded |
| SellVehicle.UploadUrlCount | src/pages/VenderVeiculo.tsx:58-73 | one URL is collected per successful upload |
| SellVehicle.UploadUrls | src/pages/VenderVeiculo.tsx:68-72 | the i-th URL is the public URL of the i-th file's stored path |
| SellVehicle.FailureStopsUploads | src/pages/VenderVeiculo.tsx:66 | once an upload fails, the remaining files make no call |
| SellVehicle.AllUploadsSucceed | src/pages/VenderVeiculo.tsx:58-73 | when nothing fails, `imageUrls` has exactly one entry per selected file |
| SellVehicle.RowFor | src/pages/VenderVeiculo.tsx:76-85 | the row maps the validated fields to `seller_*` and `vehicle_*` and sets `images` to the collected URLs |
| SellVehicle.SubmitValidatesFirst | src/pages/VenderVeiculo.tsx:51-59 | a rejected form makes no upload and no insert, keeps the state and shows the first issue |
| SellVehicle.SubmitInsertsAfterUploads | src/pages/VenderVeiculo.tsx:58-87 | a failed upload ends the calls with no insert; otherwise every file is uploaded and one insert of that row follows, with one URL per file |
| SellVehicle.SubmitOutcome | src/pages/VenderVeiculo.tsx:87-120 | `isSubmitting` goes true then false; a successful insert clears the form and the selected files; anything else keeps them and shows an error |
| SellVehicle.SalePage.constructor | src/pages/VenderVeiculo.tsx:28-38 | the page starts with an empty form, no files, not submitting |
| SellVehicle.SalePage.SetFormData | src/pages/VenderVeiculo.tsx:157 | typing replaces the form and changes nothing else |
| SellVehicle.SalePage.HandleImageChange | src/pages/VenderVeiculo.tsx:40-44 | a new selection replaces the previous one; no selection leaves it as it was |
| SellVehicle.SalePage.SetSubmitting | src/pages/VenderVeiculo.tsx:28 | `setIsSubmitting` sets the flag and records the value |
| SellVehicle.SalePage.HandleSubmit | src/pages/VenderVeiculo.tsx:46-121 | the calls, the new state, the toast and the `isSubmitting` values are those of `SubmitSpec` for the old state |
| SellVehicle.SalePage.SubmitWith | src/pages/VenderVeiculo.tsx:50-117 | once the schema has run, the page follows `SubmitParsed` |
| SellVehicle.SalePage.InsertRow | src/pages/VenderVeiculo.tsx:76-103 | one insert of the row; on success the form and the files are cleared with the success toast, on failure the state is kept with "Erro ao enviar" |
| SellVehicle.SalePage.UploadImages | src/pages/VenderVeiculo.tsx:58-73 | the `for` loop's calls, URLs and failure are exactly those of `UploadAll` on the selected files |
| SellVehicle.SalePage.UploadImage | src/pages/VenderVeiculo.tsx:60-72 | one upload under a random stem and the file's extension, with its success and the public URL of that name |
| SellVehicle.LoopTurn | src/pages/VenderVeiculo.tsx:59-73 | after the i-th upload, the loop over the first i + 1 files is one more turn, the log gained exactly its call, and the turn fails exactly when the upload did |

## Left out

- Backend I/O (Supabase queries, storage, `getPublicUrl`, auth) is not executed. The environment's replies, random stems and public URLs are parameters. The call log is ordinary state of the `Service` object.
- The `vehicles` queries of the inventory, admin and details pages are left out. So are their ordering by `created_at` and their loading states. The loaded list is an input.
- react-query caching, `invalidateQueries` and the `isPending` button states are left out.
- The admin page's session check and `onAuthStateChange` redirect (`src/pages/Admin.tsx:41-60`) are left out. So are its logout and its `if (!user) return null` guard.
- The sign-in page's redirect of an existing session (`src/pages/Auth.tsx:23-31`) is left out.
- Concurrency is left out. Each handler runs to completion before the next one starts. Two overlapping submissions, which the pages do not prevent, are not modelled.
- Browser form validation (`required`, `type="number"`) is left out. The model accepts whatever the inputs hold.
- `Math.random()` is the environment's `randomName`.
- `parseInt`, `parseFloat` and `Number(...)` are left out:
  - On the admin page the draft's numbers are already converted `JsNumber` values.
  - On the sell page `Number` is the parameter `toNumber`.
  - So `Number("") == 0` is a property of that parameter, not of the model.
- `toLowerCase` is modelled on ASCII letters only.
- String lengths count Dafny characters (code points), whereas Zod counts UTF-16 code units. The two differ for characters outside the Basic Multilingual Plane. The default `sort` order likewise compares code points.
- Zod's e-mail pattern is the parameter `isEmail`.
- Zod's default messages for `.max`, `.min` and a non-number are opaque values (`TooBig`, `TooSmall`, `NotANumber`), not their text.
- Zod's behaviour on non-finite numbers is stated as the model assumes it:
  - NaN gives a single not-a-number issue.
  - ±Infinity is compared against the bounds.
- `new Date().getFullYear()` is the `currentYear` parameter.
- `Intl.NumberFormat` price and km formatting is not part of this model.
- The gallery's `selectedImageIndex` and all rendering are not part of this model.
- Presentational components are not part of this model: `src/pages/Index.tsx`, `src/pages/Sobre.tsx`, `Navbar`, `Footer`, `VehicleCard` and the UI primitives.
- A backend error always carries a message text. An error whose `message` is undefined behaves like one whose text names neither known error, so it gets the generic text.
- `confirm(...)` on delete is the `confirmed` parameter.
- `navigate(...)` after a login is recorded as a navigation. The sell page's unused `navigate` is left out.
- Text.TrimStart: its own contract states only that the result is no longer than its input; what it removes is stated by `TrimStartSpec`.
- Text.TrimEnd: its own contract states only that the result is no longer than its input; what it removes is stated by `TrimEndSpec`.
