# Mivora core in Dafny

Mivora is a small media-upload web application: users sign in, upload images and
videos to an ImageKit account, and keep a per-user gallery in MongoDB. This project
models the parts of it that are logic rather than rendering, and proves what they
promise:

- the middleware that decides, per request, whether to pass, send a signed-in user
  home, or send an anonymous user to the login page (`RouteGate`);
- the image and video REST routes over an in-memory store of records with ids and a
  logical clock, and the Mongoose image schema as a caster from the merged request
  document to a typed record (`MediaStore`, `ApiReply`, `ImageRoute`, `VideoRoute`,
  `ImageSchema`);
- the client-side upload coordination of the two upload modals and the bare file
  picker: file checks, title derivation, form-field updates, progress, the payload
  sent for persistence, the error messages, and the order in which the external
  calls happen (`UploadRules`, `UploadFlow`);
- the register page's password grade and submit short-circuit (`Register`), the
  dashboard's duration label, card mapping and tab selection (`Dashboard`), the
  navbar's first-name extraction and theme toggle (`Navbar`), the initial theme of
  the providers (`Providers`) and the notification queue (`Notification`).

JSON bodies and forms are maps from keys to `Json.Value`, so that JavaScript's
truthiness, `??`, `?.`, object spread and `JSON.stringify` dropping absent fields are
written out as functions. Network calls (credential request, upload SDK, persistence
POST, list requests), the clock, randomness and browser storage are parameters: each
operation receives the outcome it would observe and returns what it does.

## Model

| member | source | states |
|---|---|---|
| RouteGate.Gate | middleware.ts:9-30 | Total decision: home exactly for a token on "/login" or "/register"; login exactly for no token, a non-public path, and a "/dashboard" or "/api/videos" prefix; pass otherwise; a login redirect never has a token |
| RouteGate.HomeDisjunctIsDead | middleware.ts:13-28 | Dropping the `pathname === "/"` disjunct of the last rule changes no decision, because "/" has already passed |
| RouteGate.SignedInAuthPageGoesHome | middleware.ts:9-20 | The auth pages send a signed-in user home and let an anonymous one through; the first rule wins over the pass-through rule |
| RouteGate.PublicPathsPass | middleware.ts:13-20 | "/" and every "/api/auth" path pass whatever the token |
| RouteGate.DashboardPrefixIsRaw | middleware.ts:22-28 | The prefix test is raw: "/dashboardX" and "/api/videos/1" redirect anonymous users, "/api/image" does not |
| ImageSchema.ParseFormat | models/Image.ts:30-34 | Accepts exactly jpg, png, webp, avif, and reading a format's name gives back that format |
| ImageSchema.ParseFit | models/Image.ts:39-43 | Accepts exactly cover, contain, fill, and reading a fit's name gives back that fit |
| ImageSchema.CastString | models/Image.ts:26-31 | A String path keeps a string, turns a number or boolean into its JavaScript text, and fails on anything else |
| ImageSchema.RenderedScalarsAreNotNames | models/Image.ts:30-43 | The text of a number or a boolean is never a format or fit name, so only a string can pass those enums |
| ImageSchema.RequiredString | models/Image.ts:26-28 | A required path passes exactly when it is present, casts to text, and that text is non-empty; the stored value is the cast |
| ImageSchema.StringOr | models/Image.ts:29 | An absent string path takes its default; a present one is exactly its String cast |
| ImageSchema.CastNumber | models/Image.ts:36-37 | A Number path accepts a number as is, a boolean as 1 or 0, and a string of decimal digits as the number it spells; anything else is a cast error |
| ImageSchema.CastNumberOfRendered | models/Image.ts:44 | The text of any natural casts back to that natural, so a range input's value reaches the schema as the number chosen |
| ImageSchema.NumberOr | models/Image.ts:36-37 | An absent number path takes its default; a present one is exactly its Number cast |
| ImageSchema.CastBoolean | models/Image.ts:38 | A Boolean path reads true, "true", 1, "1" and "yes" as true, and false, "false", 0, "0" and "no" as false; anything else is a cast error |
| ImageSchema.RenderedScalarsCastBack | models/Image.ts:26-38 | The text the String cast gives a boolean or a natural is read back to the same value by the Boolean and Number casts |
| ImageSchema.BooleanOr | models/Image.ts:38 | An absent boolean path takes its default; a present one is exactly its Boolean cast |
| ImageSchema.FormatOf | models/Image.ts:30-34 | Absent format becomes webp; a present one passes exactly when its String cast is in the enum, and only a string with that name does |
| ImageSchema.FitOf | models/Image.ts:39-43 | Absent fit becomes cover; a present one passes exactly when its String cast is in the enum, and only a string with that name does |
| ImageSchema.QualityOf | models/Image.ts:44 | Quality has no default; a present one is accepted exactly when its Number cast succeeds and lies in [1, 100], and is stored as that cast |
| ImageSchema.TransformationsOf | models/Image.ts:35-45 | Absent transformations get 1080 by 1080, no crop, cover, no quality; a non-object fails; an object passes exactly when all five of its paths cast, and each field is its path's cast or default; any stored quality lies in [1, 100] |
| ImageSchema.CastImage | models/Image.ts:24-46 | The cast succeeds exactly when all six paths cast; the result is valid and each field is its path's cast or default; a required path that is missing, uncastable or empty makes the cast fail |
| ImageSchema.CastFromFields | models/Image.ts:24-46 | A document whose six paths each cast to a record's field is cast to that record |
| ImageSchema.MinimalDocumentGetsDefaults | models/Image.ts:24-46 | A document with only title, description and URL casts to empty alt, webp and the default transformations |
| MediaStore.InsertDesc | app/api/image/route.ts:19-21 | Insertion into a newest-first list keeps it newest-first and adds exactly the new element |
| MediaStore.SortDesc | app/api/image/route.ts:20 | The result is ordered newest-first and is a permutation of the input |
| MediaStore.OwnedBy | app/api/image/route.ts:19 | Every kept record belongs to the owner, and none is invented |
| MediaStore.OwnedByCounts | app/api/image/route.ts:19 | Every record of the owner is kept as often as it occurs, and no other record is |
| ApiReply.Status | app/api/image/route.ts:81-122 | Failures map to 4xx/5xx codes: 401 exactly for unauthorized, 404 exactly for not found, 500 exactly for a server failure |
| ImageRoute.ListImages | app/api/image/route.ts:7-30 | 401 without a session email; otherwise 200 with exactly the session owner's records, newest first |
| ImageRoute.MergeTransformations | app/api/image/route.ts:59-66 | Every caller-supplied key wins; every default key the caller omits keeps its default |
| ImageRoute.ImageData | app/api/image/route.ts:54-67 | Body fields pass through, the owner is the session email, alt and format default only when nullish, transformations are the merge |
| ImageRoute.CreateImage | app/api/image/route.ts:32-79 | 401, then 400 for a missing title, description or URL, then 500 when the schema rejects; on 201 the record belongs to the session, gets the next id and time, and is appended; failures leave the store alone |
| ImageRoute.FindOwned | app/api/image/route.ts:106-109 | Finds the first record matching both id and owner, or reports none |
| ImageRoute.DeleteImage | app/api/image/route.ts:81-122 | 401, then 400 without an id, then 404 when no record of the owner has that id; otherwise removes exactly that one record and returns it |
| ImageRoute.QualityCoalesceIsRedundant | app/api/image/route.ts:59-66 | The `quality ?? 80` line adds nothing: the merge equals defaults overlaid by the caller's object |
| ImageRoute.CreatedTransformations | app/api/image/route.ts:59-69 | A stored record's transformations are the schema's casts of the caller's values where given and the route defaults elsewhere |
| ImageRoute.CreatedCastsMerge | app/api/image/route.ts:59-69 | A stored record's transformations are the schema's cast of the route's merge |
| ImageRoute.MergeCastFields | app/api/image/route.ts:59-66 | The cast of the merge takes each supplied field's cast and the route default for every other field |
| ImageRoute.AbsentTransformationsGetDefaults | app/api/image/route.ts:59-69 | Without caller transformations the record gets 1080 by 1080, no crop, cover, quality 80 |
| ImageRoute.QualityOnlyOverridesQuality | app/api/image/route.ts:64-65 | A caller sending only a quality changes only the quality |
| ImageRoute.AltAndFormatDefaults | app/api/image/route.ts:57-58 | Stored alt is the String cast of the caller's when given, else ""; stored format is the caller's when given, else webp |
| ImageRoute.BodyOwnerIsIgnored | app/api/image/route.ts:54-56 | Whatever `userEmail` the body claims, the outcome is the same |
| ImageRoute.MinimalBodyIsCreated | app/api/image/route.ts:45-72 | A body with just the three required fields is created for the session owner with every default |
| ImageRoute.NumericTitleIsStoredAsText | app/api/image/route.ts:45-72 | A non-zero number as title passes the truthiness check and is stored as its text, so `{"title": 5, ...}` is created with title "5" |
| ImageRoute.MinimalBodyCreated | app/api/image/route.ts:45-72 | A signed-in minimal body whose title is truthy and casts to a text is created with that title and every default |
| ImageRoute.MinimalBodyCast | app/api/image/route.ts:54-69 | The route's data for a minimal body casts to the record with every default |
| ImageRoute.CreateIsolatesOwners | app/api/image/route.ts:54-69 | A create leaves every other owner's records unchanged |
| ImageRoute.DeleteIsolatesOwners | app/api/image/route.ts:106-109 | A delete leaves every other owner's records unchanged |
| ImageRoute.ForeignDeleteIsNotFound | app/api/image/route.ts:106-113 | Deleting an id held only by other owners is a 404 that changes nothing |
| ImageRoute.CreatePreservesWellFormed | app/api/image/route.ts:69-72 | Distinct ids, increasing times and valid documents survive a create |
| ImageRoute.DeletePreservesWellFormed | app/api/image/route.ts:106-115 | Distinct ids, increasing times and valid documents survive a delete |
| ImageRoute.TwoCreatesAreDistinct | app/api/image/route.ts:69-72 | Posting the same body twice stores two records with different ids, the second newer |
| VideoRoute.ListVideos | app/api/video/route.ts:7-28 | 401 without a session email; otherwise 200 with every video of every owner, newest first |
| VideoRoute.VideoTransformations | app/api/video/route.ts:61-65 | Stored transformations are always 1080 wide and 1920 high; quality is the caller's or 100; nothing else is kept |
| VideoRoute.VideoData | app/api/video/route.ts:57-66 | Body fields pass through, the owner is the session email, controls default to true only when nullish |
| VideoRoute.CreateVideo | app/api/video/route.ts:30-77 | 401, then 400 for a missing title, description, video URL or thumbnail URL; otherwise 201 with the record appended under the next id and time |
| VideoRoute.OnlyQualityIsTakenFromCaller | app/api/video/route.ts:61-65 | Two caller objects with the same quality give the same stored transformations |
| VideoRoute.ExplicitControlsAreKept | app/api/video/route.ts:60 | An explicit boolean `controls`, false included, is stored as given |
| VideoRoute.ListIsTheSameForEveryone | app/api/video/route.ts:19-21 | Every signed-in user sees the same list |
| VideoRoute.CreatePreservesWellFormed | app/api/video/route.ts:68-70 | The store invariant survives a video create |
| UploadRules.ValidateImageFile | app/components/ImageUpload.tsx:70-82 | Accepted exactly for an "image/" type of at most 104857600 bytes; the type check comes first |
| UploadRules.ValidateVideoFile | app/components/VideoUpload.tsx:72-84 | Accepted exactly for a "video/" type of at most 524288000 bytes; the type check comes first |
| UploadRules.ValidateForFileType | app/components/FileUpload.tsx:40-57 | The type check applies only for the declared type, and the cap is 100 MiB for images and videos alike |
| UploadRules.FileUploadAgreesOnImages | app/components/FileUpload.tsx:40-57 | For images the picker's check and the image modal's give the same verdict and message on every file |
| UploadRules.FileUploadIsStricterOnVideos | app/components/FileUpload.tsx:40-57 | Every video the picker's check accepts, the video modal's check accepts too |
| UploadRules.SizeBoundaries | app/components/FileUpload.tsx:51-54 | Exactly 100 MiB passes the image check and one byte more fails; a 200 MiB video passes the modal but not the picker |
| UploadRules.StripExtension | app/components/ImageUpload.tsx:93 | Removes the one final ".ext" (no dot or slash inside) when there is one, and nothing otherwise |
| UploadRules.StripExtensionRoundTrip | app/components/ImageUpload.tsx:93 | `base + "." + ext` loses exactly its extension |
| UploadRules.NamesWithoutExtensionAreKept | app/components/VideoUpload.tsx:95 | A name without a dot, or ending in a dot, is the title unchanged |
| UploadRules.OnlyOneExtensionIsStripped | app/components/ImageUpload.tsx:93 | "clip.tar.gz" becomes "clip.tar" |
| UploadRules.ApplyInput | app/components/ImageUpload.tsx:97-127 | A dotted name sets one sub-field of its parent and keeps the siblings; an undotted name sets one top-level field; nothing else changes |
| UploadRules.ApplyInputKeepsKeys | app/components/VideoUpload.tsx:107-137 | No field is ever removed from the form |
| UploadRules.DottedUpdate | app/components/ImageUpload.tsx:112-120 | For "p.c", the new form is the old one with `p` replaced by its spread plus `c` |
| UploadRules.Percent | app/components/ImageUpload.tsx:151-156 | The percentage is the half-up rounding of loaded·100/total, within [0, 100] when loaded is at most total, 100 when complete |
| UploadRules.PercentMonotone | app/components/VideoUpload.tsx:161-166 | More bytes loaded never shows a smaller percentage |
| UploadRules.ProgressOf | app/components/FileUpload.tsx:87-92 | An event updates progress exactly when its length is computable and its total non-zero, never above 100 for a partial load |
| UploadRules.Percents | app/components/ImageUpload.tsx:151-156 | No more values than events, each at most 100 when no event has loaded more than its total |
| UploadRules.PercentsNonDecreasing | app/components/ImageUpload.tsx:151-156 | Over one upload the shown values never decrease, and the last comes from some event |
| UploadRules.UploadErrorMessage | app/components/ImageUpload.tsx:199-215 | An Error shows its message, a non-Error the generic text, and each SDK error kind its own non-generic text |
| UploadRules.SdkMessagesAreDistinct | app/components/VideoUpload.tsx:212-229 | The four SDK error kinds show four different messages |
| UploadFlow.ReplayProgress | app/components/ImageUpload.tsx:151-156 | Replaying the SDK's events shows exactly the computable percentages in order (or nothing without a callback) and ends at the last one |
| UploadFlow.SelectFile | app/components/ImageUpload.tsx:84-95 | A rejected file sets only the error; an accepted one is selected and previewed, clears the error and sets the title to the name without its extension, other fields kept |
| UploadFlow.RemoveSelection | app/components/VideoUpload.tsx:355-362 | Removal clears file, preview and error; the video modal also resets the duration to 0; the form is kept |
| UploadFlow.DurationMeasured | app/components/VideoUpload.tsx:98-104 | The metadata callback records the duration and changes nothing else |
| UploadFlow.SavedDurationIsMeasured | app/components/VideoUpload.tsx:169-177 | The saved duration is the measured one |
| UploadFlow.Payload | app/components/VideoUpload.tsx:169-180 | The saved body holds the form's listed fields where present, the upload URL and ids, and for a video the URL plus "/ik-thumbnail.jpg" and the duration |
| UploadFlow.Report | app/components/VideoUpload.tsx:198-208 | The report keeps the whole form and adds the URL; for a video, the bare URL as thumbnail and the duration |
| UploadFlow.ReportedThumbnailDiffersFromSaved | app/components/VideoUpload.tsx:169-208 | The thumbnail the video modal reports is never the one it saves |
| UploadFlow.SubmitUpload | app/components/ImageUpload.tsx:129-223 | Nothing happens without a file or during an upload. A started upload whose credentials fail or lack the nested parameters makes only the credential request. Otherwise the calls are exactly the request, the upload with the nested credentials, one progress call per computable event, and a save of the payload exactly when the upload returned a result. A report comes exactly when every step succeeds; the last call is then the save, and the bar shows the last percent. Otherwise the error is the mapped message with progress 0 |
| UploadFlow.ModalCallsShape | app/components/ImageUpload.tsx:143-188 | In those calls the credentials come first, the upload second and the progress values next; a save, if any, is last and only after a successful upload |
| UploadFlow.Transfer | app/components/ImageUpload.tsx:143-197 | Once credentials are in hand, the calls are exactly the progress calls followed by a save when, and only when, the upload returned a URL. A report comes exactly when upload and save both succeed, with the bar at the last percent; otherwise the error is the first failure's message with progress 0 |
| UploadFlow.Failed | app/components/ImageUpload.tsx:199-215 | The catch ends the upload, resets progress to 0 and shows the mapped message; selection, preview, form and duration survive |
| UploadFlow.FlatOnlyCredentialsFailTheModal | app/components/ImageUpload.tsx:137-141 | A credential reply without the nested parameters fails the modal before any upload |
| UploadFlow.ChangeFile | app/components/FileUpload.tsx:59-102 | A rejected file only sets the error. For an accepted file the calls are exactly: a video's duration read; once the duration is known, the credential request; once credentials arrive, the upload into "videos" exactly for videos, followed by every computed percent when a callback is given. The result is delivered exactly when the duration, credentials and upload all succeed, with the duration 0 unless video. Any failure shows the generic message, and uploading is always cleared |
| UploadFlow.PickerUpload | app/components/FileUpload.tsx:64-101 | After the file check: the calls are the staged ones, and the result reaches `onSuccess` exactly when every stage succeeds, else the generic message |
| UploadFlow.PickerCallsShape | app/components/FileUpload.tsx:67-93 | In the picker's calls the credential request is first, or second after a successful duration read; the upload directly follows it with the flat credentials; progress calls appear only with a callback |
| UploadFlow.ModalImageIsSaved | app/components/ImageUpload.tsx:159-179 | The image modal's payload, posted by a signed-in user, is stored under that user at the uploaded URL with the modal's defaults |
| UploadFlow.ModalFormIsSaved | app/components/ImageUpload.tsx:159-179 | Any modal form carrying a title, a description, the default alt and format, and complete transformations that the schema accepts is stored under the session's user with exactly those values |
| UploadFlow.SliderFormFields | app/components/ImageUpload.tsx:97-126 | Moving the quality slider writes its text into `transformations.quality` and leaves every other field of the form as it was |
| UploadFlow.SliderTransformationsCast | app/components/ImageUpload.tsx:470-478 | The slider's transformations are complete, and the schema casts the slider's text back to the chosen quality |
| UploadFlow.ModalImageWithSliderIsSaved | app/components/ImageUpload.tsx:97-179 | After the slider is moved to any quality in [1, 100], the saved image carries that quality and every other default |
| Register.PasswordStrength | app/register/page.tsx:80-93 | Lengths in UTF-16 code units: grade 0 exactly when empty, 1 below six, 2 below eight, 4 when the pattern matches from eight on, 3 otherwise; always in 0..4 |
| Register.PlainPasswordsCountCharacters | app/register/page.tsx:81-87 | Without characters beyond the Basic Multilingual Plane, the grade's thresholds count characters |
| Register.AstralCharacterCountsTwice | app/register/page.tsx:81-85 | An emoji counts as two code units: four letters and an emoji rate "Fair", not "Weak" |
| Text.Utf16Length | app/register/page.tsx:81-87 | `password.length` lies between the number of characters and twice it, and equals it exactly when no character lies beyond the Basic Multilingual Plane |
| Register.PatternMeansAllThreeClasses | app/register/page.tsx:88 | On a single line, the lookahead pattern matches exactly when a lowercase letter, an uppercase letter and a digit occur |
| Register.StrongMeansMixedClasses | app/register/page.tsx:86-91 | A single-line password is "Strong" exactly when its length is eight or more and it has all three classes |
| Register.LineBreakSplitsTheClasses | app/register/page.tsx:88 | With a line break between the classes the pattern fails and the grade is 3 |
| Register.SubmitRegistration | app/register/page.tsx:29-63 | Differing passwords give "Passwords do not match!" and no request; otherwise the email and password are sent, success moves to login, a refusal shows the server's error or "Registration failed" |
| Register.SubmitDisabled | app/register/page.tsx:515-517 | The button is enabled exactly when nothing is loading and the passwords agree |
| Register.EnabledSubmitSendsRequest | app/register/page.tsx:34-47 | An enabled button always reaches the server |
| Register.MismatchHint | app/register/page.tsx:444-462 | No hint until the confirmation is typed; then "match" exactly when the two agree |
| Dashboard.FormatDuration | app/dashboard/page.tsx:74-78 | The label is digits, a colon third from the end, and two digits; they read back as whole minutes and the remaining seconds |
| Dashboard.DurationRoundTrip | app/dashboard/page.tsx:74-78 | Reading the label back gives minutes and seconds below 60 that add up to the duration |
| Dashboard.FormatDurationInjective | app/dashboard/page.tsx:74-78 | Distinct durations get distinct labels |
| Dashboard.CardId | app/dashboard/page.tsx:105 | The record's id, or "" when absent |
| Dashboard.DateOf | app/dashboard/page.tsx:108-110 | "Unknown" exactly when the timestamp is absent or empty |
| Dashboard.ImageCardOf | app/dashboard/page.tsx:104-112 | An image card shows the record's id, title, image URL and date, with the two image features |
| Dashboard.VideoCardOf | app/dashboard/page.tsx:149-158 | A video card shows the thumbnail URL and carries the duration unchanged, with the three video features |
| Dashboard.ImageCards | app/dashboard/page.tsx:104-112 | One card per record, in the same order |
| Dashboard.VideoCards | app/dashboard/page.tsx:149-158 | One card per record, in the same order |
| Dashboard.ImageCardsAppend | app/dashboard/page.tsx:104 | Mapping distributes over concatenation |
| Dashboard.LoadImages | app/dashboard/page.tsx:80-123 | No request without an email; a failed request keeps the cards; a non-array or empty answer clears them; records become their cards |
| Dashboard.LoadVideos | app/dashboard/page.tsx:125-169 | The same rules for the video cards |
| Dashboard.RefreshImages | app/dashboard/page.tsx:198-225 | After an upload, only an array answer replaces the cards |
| Dashboard.RefreshVideos | app/dashboard/page.tsx:227-255 | After an upload, only an array answer replaces the video cards |
| Dashboard.LoadAndRefreshAgreeOnRecords | app/dashboard/page.tsx:98-112 | The first load and the refresh agree exactly unless the answer is not an array and cards are already shown |
| Dashboard.HandleUpload | app/dashboard/page.tsx:182-188 | The image modal opens exactly on the "images" tab |
| Dashboard.CurrentData | app/dashboard/page.tsx:257-258 | The image cards show exactly on the "images" tab, the video cards otherwise |
| Dashboard.UploadMatchesDisplayedTab | app/dashboard/page.tsx:182-188 | The Upload button adds to the dataset on display |
| Navbar.StripTrailingDigits | app/components/Navbar.tsx:72 | Removes the whole run of trailing digits and nothing else, so the result does not end in a digit |
| Navbar.Capitalize | app/components/Navbar.tsx:73 | Only the first character is upper-cased; the rest is kept |
| Navbar.MainPart | app/components/Navbar.tsx:70-71 | The prefix before the first "@" and then before the first ".", holding neither |
| Navbar.ExtractFirstName | app/components/Navbar.tsx:69-74 | No "@" or ".", no trailing digit, no longer than the address; the first word of the local part with its digits cut and first letter raised |
| Navbar.ExtractFirstNameIdempotent | app/components/Navbar.tsx:69-74 | Extracting from an extracted name changes nothing |
| Navbar.FirstWordOfDottedAddress | app/components/Navbar.tsx:69-74 | For `first.rest@domain`, the name is the capitalised first word |
| Navbar.DisplayName | app/components/Navbar.tsx:176-177 | The session's name when non-empty, else the first name from the address, else nothing |
| Navbar.InitialDark | app/components/Navbar.tsx:15-20 | Dark for a stored "dark", light for any other non-empty stored value, and the system preference when nothing (or "") is stored |
| Navbar.MountTheme | app/components/Navbar.tsx:15-31 | The root shows the initial rule's theme and storage is untouched |
| Navbar.ToggleTheme | app/components/Navbar.tsx:34-49 | Flips the flag, shows, stores and announces the new theme |
| Navbar.ToggleTwiceRestores | app/components/Navbar.tsx:34-46 | Two toggles give back the displayed theme, now also stored |
| Navbar.ToggledThemeSurvivesReload | app/components/Navbar.tsx:15-46 | After a toggle, a reload shows the same theme whatever the system prefers |
| Providers.ResolveTheme | app/components/Providers.tsx:11-13 | A non-empty stored theme is used verbatim; otherwise dark or light by the system preference |
| Providers.MountRoot | app/components/Providers.tsx:15-20 | `data-theme` is the resolved theme and the dark class is set exactly for "dark" |
| Providers.DarkClassAgreesWithNavbar | app/components/Providers.tsx:16-20 | Providers and the navbar set the dark class in exactly the same cases, for every stored value |
| Providers.DataThemeAgreesWithNavbar | app/components/Providers.tsx:13-15 | Their `data-theme` values agree exactly when nothing, "", "dark" or "light" is stored |
| Notification.Show | app/components/Notification.tsx:24-33 | Appends one toast at the end, keeps the others in order, defaults the duration to 4000, and schedules its own removal |
| Notification.Hide | app/components/Notification.tsx:35-37 | No survivor has the id, and nothing is added |
| Notification.HideRemovesOnlyThatId | app/components/Notification.tsx:36 | Every toast with another id keeps its number of occurrences |
| Notification.HideKeepsOrder | app/components/Notification.tsx:36 | Hiding works entry by entry, so the survivors keep their order |
| Notification.HideAbsentId | app/components/Notification.tsx:36 | An id not in the queue changes nothing |
| Notification.HideIdempotent | app/components/Notification.tsx:35-37 | Hiding twice is hiding once |
| Notification.ExpiryUndoesShow | app/components/Notification.tsx:24-37 | When a fresh toast's timer fires, the queue is as before it was shown |
| Notification.StyleOf | app/components/Notification.tsx:152-199 | Total over every kind: success, error and warning get their own style, everything else the info style |
| Notification.PaletteOf | app/components/Notification.tsx:152-199 | Accent, glow and progress share one colour per style |
| Notification.PalettesAreDistinct | app/components/Notification.tsx:152-199 | Different styles have different icon colours |
| Notification.UnknownKindLooksLikeInfo | app/components/Notification.tsx:187-199 | An unknown kind looks exactly like "info" |
| Notification.UseNotification | app/components/Notification.tsx:202-209 | Inside a provider the hook returns its context; outside it throws "useNotification must be used within a NotificationProvider" |

## Left out

- Rendering, CSS and animation (framer-motion, particles, mouse glow, drag-and-drop styling): they decide nothing the model states.
- `utils/auth.ts`, `app/login/page.tsx`, `app/components/Hero.tsx` and `utils/data.ts`: configuration, sign-in plumbing, animation and fixtures, outside the modelled core.
- `models/Video.ts` is not part of this model: a stored video keeps the route's merged document as a JSON object, and the video schema's own defaults and checks are not modelled.
- The database connection and its failures: every route branch that a thrown `connectToDatabase` or lookup would turn into a 500 is not modelled. Of the failures of `Image.create`, only the schema's rejection of its declared paths is modelled.
- ImageRoute.CreateImage: a body's own `_id` and `createdAt` are ignored; the record always gets the next id and the store's time. Mongoose keeps both (the `_id` path is implicit, and `timestamps` fills `createdAt` only when it is absent), and a value that does not cast to an ObjectId or a Date fails the create, which the route's catch answers with 500.
- ImageRoute.TwoCreatesAreDistinct: the second record is newer only because the model ignores a body's own `createdAt` and `_id`; with Mongoose a body carrying them keeps its date and id, or fails with 500 when they do not cast.
- Mongoose strict mode: the image schema declares no `userEmail` path, so Mongoose would drop the owner the route writes and then filters on; the model keeps the owner on every record, as the routes evidently intend.
- ImageSchema.CastNumber: only strings of decimal digits are cast to numbers (which covers what a range input reports); Mongoose also casts signed, fractional, exponent and space-padded strings through JavaScript's `Number`, turns "" into `null`, and reads an object through its `valueOf`; these fail here.
- ImageSchema.CastString: an object carrying a string `_id` is cast by Mongoose to that `_id`, and an object with its own `toString` to that text; every object fails here.
- ImageSchema.StringOr: `null` on this path is kept as `null` by Mongoose; it fails here, because the record has no `null` field.
- ImageSchema.BooleanOr: `null` on this path is kept as `null` by Mongoose; it fails here, because the record has no `null` field.
- ImageSchema.NumberOr: `null` on this path is kept as `null` by Mongoose; it fails here, because the record has no `null` field.
- ImageSchema.FormatOf: `null` on this path is kept as `null` by Mongoose; it fails here, because the record has no `null` field.
- ImageSchema.FitOf: `null` on this path is kept as `null` by Mongoose; it fails here, because the record has no `null` field.
- ImageSchema.QualityOf: `null` on this path is kept as `null` by Mongoose; it fails here, because the record has no `null` field.
- ImageSchema.CastImage: `null` on a path with a default fails here, where Mongoose would store `null`.
- Spreading a string as `...body.transformations` would add index keys; the model treats any non-object as contributing no keys.
- `Number(value)` for number inputs is not computed from the text: the event carries its numeric reading as an integer.
- UploadRules.ProgressOf: an event whose length is computable but whose total is 0 updates nothing here, where the browser would compute NaN or Infinity.
- Floating point: progress uses integer half-up rounding, and durations are whole seconds (the label's floors are then exact). JSON numbers are integers and JSON has no arrays in this model, so a request body with a fractional value (a `quality` of 50.5, which Mongoose would store) or an array cannot be written down.
- Reading a video's metadata through a `<video>` element is a parameter (`DurationRead`, `DurationMeasured`), as are the credential reply, the SDK's events and outcome, and the persistence reply.
- UploadFlow.SubmitUpload: the 500 ms delay before `onUpload`, the modal closing, and the `file`, `uploadResponse` and `savedImage`/`savedVideo` fields of the report are not modelled; the TypeError text for missing credentials is the engine's and stands in as a constant; the upload's own request fields (public key, token, signature, expiry) other than the credentials object are not compared.
- Register.SubmitRegistration: a non-string `error` in the response body, and the exact text of a JSON-parsing failure, are not modelled; the Google sign-up button is not modelled.
- Register.PasswordStrength: the bar's width and colour classes are not modelled, only the grade, text and text colour. The pattern is matched over characters rather than UTF-16 code units; the two halves of a surrogate pair are neither letters, digits nor line terminators, so this changes no match.
- Dashboard.DateOf: rendering the timestamp with `toLocaleDateString` depends on the browser's locale and is left as the raw timestamp.
- Dashboard: the loading flags, the empty-state panel and the hovered card are not modelled.
- Navbar.Capitalize: upper-casing is ASCII only; `toUpperCase` on other letters is not modelled.
- Navbar: sign-out, the scroll shadow and the dropdown are not modelled.
- Notification.Show: the id `Date.now() + Math.random()` is a parameter; its uniqueness is not guaranteed, which is why `ExpiryUndoesShow` asks for a fresh id. Timer delays and the close animation are not modelled.
- Register.PatternMeansAllThreeClasses: the equivalence holds only for passwords without line terminators; `LineBreakSplitsTheClasses` shows the difference a line break makes.
- VideoRoute.VideoTransformations: every video is stored at 1080 by 1920, whatever width and height the caller sends; only its quality is taken.
- ImageRoute.MergeTransformations: the route does not clamp quality; a value outside [1, 100] reaches the schema, which rejects it.
