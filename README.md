# JEN Remodeling site — a verified model of its logic

The JEN Remodeling web site is a Next.js front end backed by Supabase. Visitors
browse a project gallery, read and post reviews and send a contact request. An
administrator signs in to read and delete contact requests and reviews. A
Supabase edge function e-mails a notification when a row changes. A legacy
Create-React-App front end (`*.js` components) keeps older versions of the same
pages, with reviews held in the browser's `localStorage`.

This project models that logic in Dafny and proves what the code promises.

- **Library code** (`src/lib/…`) is pure, so it is modelled as functions with
  named results and lemmas:
  - contact validation;
  - the contact, review and project data-access helpers;
  - administrator sign-in;
  - notification formatting.
- **React components** keep state that their handlers update. Each component
  is modelled in three layers:
  - a state record;
  - one pure transition function per handler or effect, with lemmas about
    those transitions;
  - a class whose fields mirror the record, with one method per handler. Each
    method's `ensures` ties the new state to the transition function.
- **The edge function's request handler** is a method. Its result is fixed,
  branch by branch, by the contract.

Modules, one per file:

| module | models |
|---|---|
| `Wrappers`, `Backend` | `Option`, and the error object the Supabase client hands back |
| `Text` | the JavaScript string operations used: `trim`, `slice`, `split`/`join`, `replace`, `toLowerCase`, `includes`, a run of `String.replace(/x/g, …)` |
| `JsValues` | `unknown` record fields: `??`, truthiness, `String(x)`, `Number(x)` on the values the records carry |
| `ContactValidation` | `src/lib/contact-validation.ts` |
| `ContactApi` | `src/lib/api/contact.ts` |
| `ReviewsApi` | `src/lib/api/reviews.ts` |
| `ProjectsApi` | `src/lib/api/projects.ts` |
| `AdminAuth` | `src/lib/admin-auth.ts` |
| `NotificationFormat` | `src/lib/notification-format.ts` |
| `SendNotification` | `supabase/functions/send-notification/index.ts` |
| `ContactForm` | `src/components/Contact.tsx` |
| `ContactFormLegacy` | `src/components/Contact.js` |
| `ReviewsPage` | `src/components/Reviews.tsx` |
| `ReviewsLegacy` | `src/components/Reviews.js` |
| `ProjectsPage` | `src/components/Projects.tsx` and `src/components/Projects.js`, which share their catalogue, categories and handlers |
| `AdminDashboard` | `src/app/admin/page.tsx` |

Where the two versions of a component, or a component and the library it could
have used, disagree, lemmas state the difference exactly. Examples:

- `ContactForm.NineDigitPhoneDiverges`;
- `ContactForm.PlusPhoneDiverges`;
- `ContactForm.PayloadKeepsLongName`;
- `SendNotification.EscapesAgree`;
- `SendNotification.EdgeSubjectKeepsLineBreaks`.

## Model

| member | source | states |
|---|---|---|
| Text.Trim | src/lib/contact-validation.ts:39 | `trim()`: the result is the slice left after dropping the leading and trailing whitespace, all of the dropped characters are whitespace, and the result neither starts nor ends with whitespace |
| Text.TrimOfTrimmed | src/lib/contact-validation.ts:39 | trimming text with no whitespace at either end returns it unchanged |
| Text.TrimAround | src/lib/contact-validation.ts:39 | trimming whitespace + `b` + whitespace gives `b` back, when `b` has no whitespace at its ends |
| Text.BlankIffAllWhitespace | src/lib/contact-validation.ts:39 | `!s.trim()` holds exactly when every character of `s` is whitespace |
| Text.Clip | src/lib/api/contact.ts:6-8 | `s.trim().slice(0, n)`: a prefix of the trimmed text of length at most `n`, which is the whole trimmed text when that fits and exactly its first `n` characters otherwise |
| Text.ClipKeepsCleanText | src/lib/api/contact.ts:6-8 | trimmed text within the limit is stored unchanged |
| Text.ClipDropsSurroundingWhitespace | src/lib/api/contact.ts:6-8 | only the surrounding whitespace is removed from text that fits |
| Text.Before | src/lib/api/reviews.ts:17 | `s.split('T')[0]`: a prefix of `s` without `T`, followed in `s` by a `T` whenever it is shorter than `s` |
| Text.IndexOf | src/components/Projects.tsx:165 | the first position of a character, or none exactly when it does not occur |
| Text.IndexOfFirst | src/components/Projects.tsx:165 | a position holding the character with no earlier occurrence is the one `IndexOf` finds |
| Text.ReplaceFirst | src/components/Projects.tsx:165 | `replace('-', ' ')` with a string pattern: only the first occurrence is replaced, everything else is unchanged, and the text is returned as is when there is none |
| Text.Split | src/components/Reviews.tsx:67 | `split('-')` gives at least one part and no part contains the separator |
| Text.JoinSplit | src/components/Reviews.tsx:67 | joining the parts of `split(c)` with `c` gives the original text back |
| Text.ToLower | src/lib/admin-auth.ts:29 | `toLowerCase()` keeps the length and lowers each character |
| Text.Take | src/lib/notification-format.ts:14 | `slice(0, n)`: a prefix whose length is the smaller of `n` and the text's length |
| Text.Filter | src/lib/contact-validation.ts:29 | the characters of a class in their order (`match(/\d/g)`): no longer than the input, and all of the class |
| Text.FilterConcat | src/lib/contact-validation.ts:29 | filtering distributes over concatenation |
| Text.FilterAll | src/lib/contact-validation.ts:28 | filtering leaves the text unchanged exactly when every character is of the class (a `^[…]+$` test) |
| Text.FilterNone | src/lib/contact-validation.ts:29 | text with no character of the class filters to nothing |
| Text.FilterTrim | src/lib/notification-format.ts:49 | `trim()` does not change the non-whitespace characters of a class |
| Text.FilterWrapped | src/lib/notification-format.ts:38-49 | whitespace around text adds no character of a non-whitespace class |
| Text.ReplaceAll | src/lib/notification-format.ts:19 | `replace(/c/g, rep)` leaves text without `c` unchanged |
| Text.ReplaceAllConcat | src/lib/notification-format.ts:19-23 | a global replace distributes over concatenation |
| Text.FillStart | src/lib/notification-format.ts:38-50 | an interpolated template starts with the first character of its first literal |
| Text.FillEnd | src/lib/notification-format.ts:38-50 | an interpolated template ends with the last character of its last literal |
| Text.FillFilterLits | src/lib/notification-format.ts:38-50 | when no interpolated value holds a character of a class, the template's characters of that class are exactly those of its literals |
| Text.FillFilterCount | src/lib/notification-format.ts:38-50 | the number of class characters in a filled template is the literals' count plus the values' count |
| Text.FillShowsHole | src/lib/notification-format.ts:38-50 | every interpolated value appears in the filled template, directly followed by the next literal |
| Text.ContainsAt | src/lib/notification-format.ts:38-50 | a slice equal to `sub` makes `includes(sub)` true |
| Text.ContainsShift | src/lib/notification-format.ts:38-50 | text containing `sub` still contains it with anything put in front |
| Text.ContainsPrefix | src/lib/notification-format.ts:38-50 | text containing `a + b` contains `a` |
| Text.NatToString | src/lib/notification-format.ts:57 | the decimal form of a natural number: non-empty digits whose value is `n`, with a leading `0` only for 0 |
| Text.IntToString | src/lib/notification-format.ts:57 | `${n}` for an integer: a `-` exactly when negative, followed by the digits whose value is the magnitude |
| JsValues.Get | src/lib/notification-format.ts:27-32 | the stored value for a key in the record; `undefined` for a missing key |
| JsValues.Coalesce | src/lib/notification-format.ts:27-32 | `v ?? d` gives `d` exactly for `undefined` and `null`, and `v` otherwise |
| JsValues.TextOf | src/lib/notification-format.ts:27-32 | `String(v ?? '')`: empty for `undefined` and `null`, the string itself for a string |
| JsValues.NumberText | src/lib/notification-format.ts:57 | `NaN` exactly for NaN; otherwise the digits of the number's value, after a `-` when it is negative |
| JsValues.NumberTextRoundTrip | src/lib/notification-format.ts:57 | `Number(String(n))` is `n` again for every integer, so the rating text denotes the rating |
| ContactValidation.ValidateEmailMatchesPattern | src/lib/contact-validation.ts:22-25 | the character scan accepts exactly the strings `/^[^\s@]+@[^\s@]+\.[^\s@]+$/` matches: non-empty runs without whitespace or `@` around one `@` and a later `.` |
| ContactValidation.EmailScanSound | src/lib/contact-validation.ts:22-25 | every accepted address has the regular expression's shape |
| ContactValidation.EmailScanComplete | src/lib/contact-validation.ts:22-25 | every string of that shape, with any split point, is accepted |
| ContactValidation.PartsArePlain | src/lib/contact-validation.ts:23 | in a string without whitespace, the parts around the only `@` and a `.` are plain address text |
| ContactValidation.DigitCount | src/lib/contact-validation.ts:29 | `(phone.match(/\d/g) ?? []).length` is the number of digits in the text |
| ContactValidation.ValidatePhone | src/lib/contact-validation.ts:27-31 | an accepted number has at least ten characters |
| ContactValidation.ValidatePhoneIff | src/lib/contact-validation.ts:27-31 | a number is accepted exactly when it has at least ten digits and is a non-empty string of digits, whitespace, `-`, `(`, `)` and `+` |
| ContactValidation.PhoneOrderIrrelevant | src/lib/contact-validation.ts:27-31 | acceptance depends only on which characters occur, not on their order: `a + b` and `b + a` are judged alike |
| ContactValidation.PhoneCharsConcat | src/lib/contact-validation.ts:28 | a concatenation matches the character class exactly when both parts do |
| ContactValidation.NameError | src/lib/contact-validation.ts:39-40 | no error exactly when the trimmed name has 1 to 200 characters; "required" exactly when it is blank; "too long" exactly when it is not blank and over 200 once trimmed |
| ContactValidation.EmailError | src/lib/contact-validation.ts:41-42 | no error exactly when the address passes `validateEmail`; "required" exactly when it is blank; the invalid-address message exactly when it is not blank and fails the test |
| ContactValidation.PhoneError | src/lib/contact-validation.ts:43-44 | no error exactly when the number passes `validatePhone`; "required" exactly when it is blank; the invalid-phone message exactly when it is not blank and fails the test |
| ContactValidation.ServiceError | src/lib/contact-validation.ts:45 | no error exactly when a service is chosen (non-empty) |
| ContactValidation.MessageError | src/lib/contact-validation.ts:46-48 | no error exactly when the trimmed message has 20 to 10000 characters; "required" exactly when it is blank; "too short" exactly when it is not blank and under 20 once trimmed; "too long" exactly when over 10000 once trimmed |
| ContactValidation.ValidateContactForm | src/lib/contact-validation.ts:37-50 | each field of the error object holds that field's rule result, one message per field; `valid` holds exactly when the error object is empty, and exactly when all five rules hold |
| ContactValidation.BlankEmailInvalid | src/lib/contact-validation.ts:41-42 | a blank address never passes `validateEmail`, so "required" is the only error it gets |
| ContactValidation.BlankPhoneInvalid | src/lib/contact-validation.ts:43-44 | a blank number never passes `validatePhone` |
| ContactValidation.NotBlankAt | src/lib/contact-validation.ts:39 | text with a non-whitespace character is not blank |
| ContactValidation.DigitInPhone | src/lib/contact-validation.ts:29 | text with a digit has a non-whitespace character |
| ContactValidation.Repeat | src/lib/contact-validation.ts:33-35 | `c.repeat(n)`: `n` copies of `c` |
| ContactValidation.NameLimitBoundary | src/lib/contact-validation.ts:33-40 | 200 characters pass and 201 give "Name is too long" |
| ContactValidation.MessageLimitBoundary | src/lib/contact-validation.ts:34-48 | 20 and 10000 characters pass, 19 give "more details", 10001 give "too long" |
| ContactValidation.LeadingSpaceEmailIsInvalid | src/lib/contact-validation.ts:41-42 | the address is tested untrimmed: `" a@b.co"` is rejected as invalid |
| ContactValidation.BlankServicePasses | src/lib/contact-validation.ts:45 | the service is not trimmed: `" "` counts as chosen |
| ContactValidation.EmptyFormGetsAllErrors | src/lib/contact-validation.ts:37-50 | an empty form gets the five "required" messages and is invalid |
| ContactApi.NullIfEmpty | src/lib/api/contact.ts:11-13 | `x \|\| null`: `null` exactly for a missing or empty value, the value otherwise |
| ContactApi.ContactPayload | src/lib/api/contact.ts:5-15 | the inserted row: name, email, phone and message are the trimmed input cut to 200, 255, 50 and 10000 characters (the whole trimmed text when it fits, its first N characters otherwise); each optional field is `x \|\| null` of the input, `null` exactly when missing or empty; the preferred contact and service pass through |
| ContactApi.SubmitContact | src/lib/api/contact.ts:4-17 | one insert of that row, and the backend's error handed back as it came |
| ContactApi.CleanInputStoredUnchanged | src/lib/api/contact.ts:5-15 | trimmed input within every limit is stored unchanged, with empty optional fields as `null` |
| ReviewsApi.MapRow | src/lib/api/reviews.ts:12-20 | a row becomes a review with the same id, name, service, rating and text; the date is the part of `created_at` before the first `T`; `helpful ?? 0` |
| ReviewsApi.DateOfTimestamp | src/lib/api/reviews.ts:17 | the date of `date + "T" + time` is `date` |
| ReviewsApi.DateWithoutTime | src/lib/api/reviews.ts:17 | a timestamp without `T` is kept whole |
| ReviewsApi.MapRows | src/lib/api/reviews.ts:12-20 | the rows are mapped one by one, in order |
| ReviewsApi.FetchReviews | src/lib/api/reviews.ts:6-21 | an error or no data gives the empty list; otherwise the mapped rows |
| ReviewsApi.ReviewPayload | src/lib/api/reviews.ts:33-38 | the inserted review: name and text are the trimmed input cut to 200 and 5000 characters (the whole trimmed text when it fits, its first N characters otherwise); service and rating pass through |
| ReviewsApi.SubmitReview | src/lib/api/reviews.ts:30-56 | one insert of that payload; an error comes back with no data; otherwise the returned row, mapped as `fetchReviews` maps it, or none |
| ReviewsApi.ReadSwallowsWriteSurfaces | src/lib/api/reviews.ts:11-41 | a failed read yields an empty list, while a failed write hands the error back |
| ReviewsApi.SubmitMapsLikeFetch | src/lib/api/reviews.ts:12-55 | a submitted review comes back exactly as the same row would from `fetchReviews` |
| ProjectsApi.Select | src/lib/api/projects.ts:25-32 | the images of one project and one label (before or after): exactly those of the list, and nothing else |
| ProjectsApi.SelectCounts | src/lib/api/projects.ts:25-32 | each image of that project and label is kept as many times as it occurs in the list, every other image not at all |
| ProjectsApi.SelectConcat | src/lib/api/projects.ts:25-32 | the filter keeps the list's order: selecting from a concatenation is the concatenation of the selections |
| ProjectsApi.Insert | src/lib/api/projects.ts:26-30 | one step of the sort: adds one element and loses none |
| ProjectsApi.InsertSorted | src/lib/api/projects.ts:26-30 | inserting into a list sorted by `sort_order` keeps it sorted |
| ProjectsApi.SortByOrder | src/lib/api/projects.ts:26-30 | `sort((a, b) => a.sort_order - b.sort_order)`: sorted, and a permutation of its input |
| ProjectsApi.InsertKeepsKeyOrder | src/lib/api/projects.ts:26-30 | an insert keeps the relative order of images with equal `sort_order` |
| ProjectsApi.SortIsStable | src/lib/api/projects.ts:26-30 | the sort is stable: images with equal `sort_order` keep their order |
| ProjectsApi.Urls | src/lib/api/projects.ts:27-31 | `map(i => i.url)` |
| ProjectsApi.GalleryIsSortedSelection | src/lib/api/projects.ts:25-32 | a gallery is the URLs of the project's images with that label, sorted stably by `sort_order` |
| ProjectsApi.GalleryHasNoForeignUrls | src/lib/api/projects.ts:25-32 | every URL in a gallery comes from an image of that project with that label |
| ProjectsApi.ToProject | src/lib/api/projects.ts:33-40 | a project keeps its id, title and category, with `description ?? ''`; its before and after lists are the galleries of its own images with that label, stably sorted by `sort_order` |
| ProjectsApi.FetchProjects | src/lib/api/projects.ts:4-42 | images are queried exactly when the project query returned rows; otherwise there are no projects; otherwise one project per row, in order, built with the images or an empty list |
| ProjectsApi.NoImagesGiveEmptyGalleries | src/lib/api/projects.ts:25-32 | a project without images has empty galleries |
| ProjectsApi.NullImagesGiveEmptyGalleries | src/lib/api/projects.ts:17-24 | a `null` image result (`images ?? []`) leaves every gallery empty |
| AdminAuth.GetAdminSession | src/lib/admin-auth.ts:9-21 | the admin table is queried exactly when a user is signed in; a session exists exactly when there is a user and an admin row, and belongs to that user |
| AdminAuth.SignInAdmin | src/lib/admin-auth.ts:26-48 | no error exactly when the credentials work and the user is an admin; "Invalid email or password." exactly for an auth error whose text mentions invalid, credentials, email or password; "Sign in failed." for any other auth error or a missing user; "Access denied." with one sign-out for a non-admin |
| AdminAuth.SignInAgreesWithSession | src/lib/admin-auth.ts:9-47 | a sign-in succeeds exactly when the session lookup for the same user finds an admin session |
| AdminAuth.KeywordTestIgnoresCase | src/lib/admin-auth.ts:29-30 | the keyword test gives the same answer on a message and its lower-cased form |
| AdminAuth.ToLowerIdempotent | src/lib/admin-auth.ts:29 | lower-casing twice is lower-casing once |
| AdminAuth.ToLowerConcat | src/lib/admin-auth.ts:29 | lower-casing distributes over concatenation |
| AdminAuth.PasswordAnywhereIsInvalidCredentials | src/lib/admin-auth.ts:29-31 | any auth error whose text contains `Password` is reported as invalid credentials |
| NotificationFormat.SanitizeSubject | src/lib/notification-format.ts:9-15 | at most 200 characters, a prefix of the normalised text: exactly the normalised text when it fits and exactly its first 200 characters otherwise |
| NotificationFormat.SanitizedIsSafe | src/lib/notification-format.ts:8-15 | a sanitised subject holds no CR or LF, its only whitespace is single spaces, and it does not start with a space |
| NotificationFormat.SanitizeCleanSubject | src/lib/notification-format.ts:9-15 | a subject that is already clean is returned unchanged |
| NotificationFormat.DropRun | src/lib/notification-format.ts:13 | dropping a leading run of a character class |
| NotificationFormat.CollapseRuns | src/lib/notification-format.ts:11-12 | `replace(/[…]+/g, ' ')`: afterwards the class occurs only as single spaces, never twice in a row |
| NotificationFormat.CollapseRunsFixed | src/lib/notification-format.ts:11-12 | text already collapsed is unchanged |
| NotificationFormat.DropRunKeepsOthers | src/lib/notification-format.ts:11-12 | dropping a leading run of a class loses no character outside the class |
| NotificationFormat.CollapseKeepsOthers | src/lib/notification-format.ts:11-12 | collapsing runs keeps every character that is neither in the class nor a space, in order |
| NotificationFormat.NormalizeKeepsText | src/lib/notification-format.ts:9-14 | normalising a subject keeps every non-whitespace character, in order: only whitespace changes |
| NotificationFormat.CollapsePlainPrefix | src/lib/notification-format.ts:11-12 | text without class characters passes through a collapse unchanged |
| NotificationFormat.DropRunPrefix | src/lib/notification-format.ts:11-12 | a whole leading run is dropped, up to the next other character |
| NotificationFormat.CollapseRunPrefix | src/lib/notification-format.ts:11-12 | a whole leading run becomes exactly one space |
| NotificationFormat.CollapseStep | src/lib/notification-format.ts:11-12 | a run followed by a word becomes one space and the word |
| NotificationFormat.CollapseTwoWords | src/lib/notification-format.ts:11-12 | two words around a run become the words with one space between them |
| NotificationFormat.CollapseThreeWords | src/lib/notification-format.ts:11-12 | three words between runs become the words separated and surrounded by single spaces |
| NotificationFormat.LineBreakBecomesSpace | src/lib/notification-format.test.ts:12 | `"hello\r\nworld"` sanitises to `"hello world"` |
| NotificationFormat.SpacesCollapse | src/lib/notification-format.test.ts:13 | `"  a   b   c  "` sanitises to `"a b c"` |
| NotificationFormat.SingleSpacedSlice | src/lib/notification-format.ts:13-14 | slicing keeps text single-spaced |
| NotificationFormat.EscapeHtmlPerChar | src/lib/notification-format.ts:17-24 | the chain of five global replaces equals escaping each character on its own |
| NotificationFormat.EscapeCharByChain | src/lib/notification-format.ts:17-24 | on one character the chain gives that character's entity, or the character itself |
| NotificationFormat.EscapeAmpersand | src/lib/notification-format.ts:19 | `&` becomes `&amp;` and is not escaped again by the later replaces |
| NotificationFormat.EscapeMarkupChar | src/lib/notification-format.ts:20-23 | each of `<`, `>`, `"`, `'` becomes its entity |
| NotificationFormat.ReplaceAllOne | src/lib/notification-format.ts:19-23 | a global replace on one character |
| NotificationFormat.ChainStep | src/lib/notification-format.ts:19-23 | a replace of another character leaves a finished entity alone |
| NotificationFormat.EscapeEachConcat | src/lib/notification-format.ts:17-24 | per-character escaping distributes over concatenation |
| NotificationFormat.EscapeHtmlConcat | src/lib/notification-format.ts:17-24 | escaping distributes over concatenation |
| NotificationFormat.EscapeHtmlPlain | src/lib/notification-format.ts:17-24 | text without `&<>"'` is unchanged |
| NotificationFormat.EscapeEachPlain | src/lib/notification-format.ts:17-24 | the same for per-character escaping |
| NotificationFormat.EscapeHtmlSafe | src/lib/notification-format.ts:17-24 | escaped text holds none of `<>"'`, and every `&` in it opens one of the five entities |
| NotificationFormat.EscapeCharFacts | src/lib/notification-format.ts:17-24 | each character's escape is non-empty, free of markup, and has an `&` only at its start, where an entity begins |
| NotificationFormat.EntityExtends | src/lib/notification-format.ts:17-24 | text starting with an entity still does with more text after it |
| NotificationFormat.EscapeEachNoMarkup | src/lib/notification-format.ts:17-24 | per-character escaping leaves no markup character |
| NotificationFormat.EscapeEachEntities | src/lib/notification-format.ts:17-24 | every `&` of per-character escaping opens an entity |
| NotificationFormat.EscapeHtmlRoundTrip | src/lib/notification-format.ts:17-24 | unescaping the five entities gives the original text back, so escaping loses nothing |
| NotificationFormat.UnescapeEntity | src/lib/notification-format.ts:17-24 | unescaping reads one escaped character back |
| NotificationFormat.EscapeEachRoundTrip | src/lib/notification-format.ts:17-24 | the round trip for per-character escaping |
| NotificationFormat.OptText | src/lib/notification-format.ts:33-35 | an optional field's text is non-empty exactly when the value is truthy |
| NotificationFormat.ContactLits | src/lib/notification-format.ts:38-50 | the contact template has 11 literal parts |
| NotificationFormat.ReviewLits | src/lib/notification-format.ts:61-68 | the review template has 5 literal parts |
| NotificationFormat.ContactHoles | src/lib/notification-format.ts:38-50 | the contact template has 10 interpolated values |
| NotificationFormat.ContactLitsFor | src/lib/notification-format.ts:33-50 | the literals of a given record's contact mail, 11 of them |
| NotificationFormat.ReviewHoles | src/lib/notification-format.ts:61-68 | the review template has 4 interpolated values |
| NotificationFormat.FormatContactEmail | src/lib/notification-format.ts:26-52 | the subject is `[JEN Site] New contact: ` followed by the sanitised `String(record.name ?? '')` |
| NotificationFormat.FormatReviewEmail | src/lib/notification-format.ts:54-70 | the subject is `[JEN Site] New review from ` followed by the sanitised name |
| NotificationFormat.IndentIsWhitespace | src/lib/notification-format.ts:38-50 | the template's indentation is whitespace |
| NotificationFormat.TrimmedTemplate | src/lib/notification-format.ts:38-50 | `.trim()` removes exactly the indentation around the template |
| NotificationFormat.ContactHtmlIsTemplate | src/lib/notification-format.ts:38-50 | the contact HTML is its literal parts filled with the escaped values, in order |
| NotificationFormat.ReviewHtmlIsTemplate | src/lib/notification-format.ts:61-68 | the review HTML is its literal parts filled with the escaped values and the rating, in order |
| NotificationFormat.EscapedHasNoMarkup | src/lib/notification-format.ts:17-24 | escaped text contributes no markup character |
| NotificationFormat.TemplateClassFixed | src/lib/notification-format.ts:38-50 | two fillings whose values hold no character of a class have the same characters of that class, also after trimming |
| NotificationFormat.ContactLitsShape | src/lib/notification-format.ts:38-50 | the contact template starts with `<` and ends with `</pre>` |
| NotificationFormat.ReviewLitsShape | src/lib/notification-format.ts:61-68 | the review template starts with `<` and ends with `</pre>` |
| NotificationFormat.NumberTextNoMarkup | src/lib/notification-format.ts:57-65 | the interpolated rating holds no markup character |
| NotificationFormat.OptionalNoMarkup | src/lib/notification-format.ts:33-47 | an optional field's value, escaped, holds no markup character |
| NotificationFormat.NoneIn4 | src/lib/notification-format.ts:61-68 | four values free of a class make a free list |
| NotificationFormat.NoneIn10 | src/lib/notification-format.ts:38-50 | ten values free of a class make a free list |
| NotificationFormat.ContactHolesNoMarkup | src/lib/notification-format.ts:38-50 | no value interpolated into the contact mail holds a markup character |
| NotificationFormat.ReviewHolesNoMarkup | src/lib/notification-format.ts:61-68 | no value interpolated into the review mail holds a markup character |
| NotificationFormat.ContactMarkupIndependent | src/lib/notification-format.ts:26-52 | the markup characters of the contact HTML depend only on which optional fields are truthy, not on anything the visitor typed |
| NotificationFormat.ReviewMarkupIndependent | src/lib/notification-format.ts:54-70 | the markup characters of the review HTML are the same for every record |
| NotificationFormat.ContactShowsMessage | src/lib/notification-format.ts:48-49 | the contact HTML contains the escaped message directly followed by `</pre>`, and the message can be read back from it |
| NotificationFormat.HoleBeforeLiteral | src/lib/notification-format.ts:38-50 | a value is directly followed by the start of the next literal |
| NotificationFormat.ReviewRatingLiteral | src/lib/notification-format.ts:65 | the literal after the rating starts with `/5` |
| NotificationFormat.ReviewShowsRating | src/lib/notification-format.ts:57-65 | the review HTML contains `Number(record.rating ?? 0)` followed by `/5` |
| NotificationFormat.PrefixedSubject | src/lib/notification-format.ts:37-60 | a fixed prefix without line breaks keeps a sanitised subject free of them |
| NotificationFormat.SubjectsHaveNoLineBreak | src/lib/notification-format.ts:37-60 | neither subject can carry a CR or LF, so no header can be injected |
| SendNotification.Escape4MarkupChar | supabase/functions/send-notification/index.ts:63-65 | the edge function's escape turns each of `<`, `>`, `"` into its entity |
| SendNotification.Escape4ByChain | supabase/functions/send-notification/index.ts:60-66 | on one character its four replaces give that character's entity, or the character itself |
| SendNotification.EscapeHtml4PerChar | supabase/functions/send-notification/index.ts:60-66 | its chain equals escaping each character on its own |
| SendNotification.EscapeEachAgree | supabase/functions/send-notification/index.ts:60-66 | per character, the two escapes agree exactly on text without `'`, and the edge one is never longer |
| SendNotification.EscapesAgree | supabase/functions/send-notification/index.ts:60-66 | the edge function's escape equals the library's exactly when the text has no `'`, which it leaves unescaped |
| SendNotification.EscapeEach4NoTag | supabase/functions/send-notification/index.ts:60-66 | per-character escaping leaves no `<`, `>` or `"` |
| SendNotification.Escaped4HasNoTagChar | supabase/functions/send-notification/index.ts:60-66 | the edge escape leaves no `<`, `>` or `"`, and keeps `'` as it is |
| SendNotification.EdgeContactEmail | supabase/functions/send-notification/index.ts:14-40 | the contact subject is the prefix followed by the raw `String(record.name ?? '')` |
| SendNotification.EdgeReviewEmail | supabase/functions/send-notification/index.ts:42-58 | the review subject is the prefix followed by the raw name |
| SendNotification.EdgeSubjectKeepsLineBreaks | supabase/functions/send-notification/index.ts:15-25 | a name holding CR LF reaches the edge function's subject, while the library's subject has none |
| SendNotification.EdgeSubjectUncapped | supabase/functions/send-notification/index.ts:25 | the edge subject is 24 characters plus the whole name, with no 200-character cap |
| SendNotification.Optional4NoTag | supabase/functions/send-notification/index.ts:21-35 | an optional field's escaped value holds no `<`, `>` or `"` |
| SendNotification.EdgeContactHolesNoTag | supabase/functions/send-notification/index.ts:26-38 | no value interpolated into the edge contact mail holds `<`, `>` or `"` |
| SendNotification.EdgeContactTagsIndependent | supabase/functions/send-notification/index.ts:26-38 | the `<`, `>`, `"` characters of the edge contact HTML depend only on which optional fields are truthy |
| SendNotification.ParseEventType | supabase/functions/send-notification/index.ts:91-92 | an event type is accepted exactly when it is the string `INSERT`, `UPDATE` or `DELETE` |
| SendNotification.ChooseEmailTable | supabase/functions/send-notification/index.ts:110-124 | the mail chosen for each table and event: contact and review inserts use their formatters; their updates get the `updated:` subject with the formatter's HTML; `projects` and `project_images` get the `Change:` subject and the generic HTML; every other table, a delete, or contacts and reviews without data get the generic mail |
| SendNotification.HandleRequest | supabase/functions/send-notification/index.ts:68-153 | 204 for `OPTIONS`; 500 without configuration; 400 for invalid JSON; 500 from the runtime for a JSON `null` body, whose destructuring throws; 400 for an unsupported event type or a missing record; the mail is sent exactly when none of these applies, using the old record on delete; 200 with the id or 502 by the mail API's answer |
| ContactForm.FormData.Set | src/components/Contact.tsx:96 | `{ ...prev, [name]: value }` changes exactly that field |
| ContactForm.WithError | src/components/Contact.tsx:97-98 | setting one field's error changes that error only |
| ContactForm.ComponentNameError | src/components/Contact.tsx:82 | the component's name rule: an error, "required", exactly when the name is blank; there is no length limit |
| ContactForm.ComponentPhoneError | src/components/Contact.tsx:85-86 | no error exactly when the number is not blank and passes the component's own test (ten characters, no `+`); "required" exactly when blank; the invalid-phone message exactly when not blank and failing that test |
| ContactForm.ComponentMessageError | src/components/Contact.tsx:88-89 | no error exactly when the trimmed message has at least 20 characters; "required" exactly when blank; "too short" exactly when not blank and under 20 once trimmed |
| ContactForm.ComponentFormValidIff | src/components/Contact.tsx:80-92 | `validateForm` returns true exactly when every rule of the component holds |
| ContactForm.PayloadMatchesLibraryWithinLimits | src/components/Contact.tsx:108-118 | within the library's limits the component inserts the row `submitContact` would |
| ContactForm.PayloadKeepsLongName | src/components/Contact.tsx:109 | a name over 200 characters is stored whole by the component, but cut by the library |
| ContactForm.LibraryPhoneWithoutPlusPasses | src/components/Contact.tsx:75-78 | every number without `+` that the library accepts, the component accepts |
| ContactForm.ComponentPhoneNeedsTenDigits | src/components/Contact.tsx:75-78 | a number the component accepts passes the library exactly when it has ten digits |
| ContactForm.NineDigitPhoneDiverges | src/components/Contact.tsx:75-78 | `(123) 456-789` passes the component, which counts characters, and fails the library, which counts digits |
| ContactForm.PlusPhoneDiverges | src/components/Contact.tsx:76 | a leading `+` passes the library and fails the component |
| ContactForm.BlankPhoneIsRequired | src/components/Contact.tsx:85-86 | ten spaces pass the component's pattern, yet the blank check reports "required" first |
| ContactForm.NoUpperBounds | src/components/Contact.tsx:82-89 | the component accepts names and messages the library rejects as too long |
| ContactForm.ChangeTouchesOneField | src/components/Contact.tsx:94-100 | a change sets that field, clears its error and leaves every other field and error as it was |
| ContactForm.StartInsertsOnlyValidForms | src/components/Contact.tsx:102-118 | once the submit handler runs, it stores the validation errors; the row is inserted exactly when there are none, and is then the trimmed payload with `isSubmitting` set |
| ContactForm.CompleteEndsSubmission | src/components/Contact.tsx:119-129 | completion always clears `isSubmitting`; a failure sets "Failed to send." and keeps the form; a success resets the form and errors and shows success |
| ContactForm.SuccessfulCycleRestoresInitialState | src/components/Contact.tsx:102-130 | a valid form submitted successfully, after the success timer, returns the component to its initial state |
| ContactForm.ContactFormView.constructor | src/components/Contact.tsx:64-68 | the initial state |
| ContactForm.ContactFormView.HandleChange | src/components/Contact.tsx:94-100 | the change handler's state update |
| ContactForm.ContactFormView.ValidateForm | src/components/Contact.tsx:80-92 | stores the errors and returns whether there are none |
| ContactForm.ContactFormView.SubmitStart | src/components/Contact.tsx:103-118 | the submit handler up to the insert, and the row it sends |
| ContactForm.ContactFormView.MarkSubmitting | src/components/Contact.tsx:105-106 | clears the error and sets `isSubmitting` |
| ContactForm.ContactFormView.SubmitComplete | src/components/Contact.tsx:119-129 | the state after the insert answers |
| ContactForm.ContactFormView.HideSuccess | src/components/Contact.tsx:124 | the success timer hides the message |
| ContactFormLegacy.LegacyChangeTouchesOneField | src/components/Contact.js:90-104 | a change sets that field, clears its error and leaves the rest |
| ContactFormLegacy.LegacySubmitGate | src/components/Contact.js:106-114 | once the submit handler runs, the errors are stored; the simulated send starts exactly when there are none |
| ContactFormLegacy.ResetKeepsErrors | src/components/Contact.js:122-135 | the reset restores the form and hides success but keeps the error object, unlike the TypeScript component, which clears it |
| ContactFormLegacy.LegacyCycleRestoresInitialState | src/components/Contact.js:106-137 | a valid form, after the simulated response and the reset, is back at the initial state |
| ContactFormLegacy.LegacyContactForm.constructor | src/components/Contact.js:5-19 | the initial state |
| ContactFormLegacy.LegacyContactForm.HandleChange | src/components/Contact.js:90-104 | the change handler's update |
| ContactFormLegacy.LegacyContactForm.HandleSubmit | src/components/Contact.js:106-114 | the submit handler, and whether it sends |
| ContactFormLegacy.LegacyContactForm.OnSimulatedResponse | src/components/Contact.js:116-119 | the simulated response |
| ContactFormLegacy.LegacyContactForm.OnReset | src/components/Contact.js:122-135 | the delayed reset |
| ReviewsPage.Capitalize | src/components/Reviews.tsx:67 | `w.charAt(0).toUpperCase() + w.slice(1)`: same length, first letter upper-cased, the rest unchanged |
| ReviewsPage.CapitalizeAll | src/components/Reviews.tsx:67 | every word capitalised, in order |
| ReviewsPage.JoinCapitalizedLength | src/components/Reviews.tsx:67 | capitalising the words and joining with a space keeps the length of the dashed name |
| ReviewsPage.ServiceNameLength | src/components/Reviews.tsx:66-68 | the display name is as long as the service id plus ` Remodeling`, and ends with it |
| ReviewsPage.OneWordService | src/components/Reviews.tsx:66-68 | a one-word id is capitalised and followed by ` Remodeling` |
| ReviewsPage.TwoWordService | src/components/Reviews.tsx:66-68 | `a-b` becomes `A B Remodeling` (e.g. `living-room` to `Living Room Remodeling`) |
| ReviewsPage.Toggle | src/components/Reviews.tsx:70-79 | clicking "helpful" flips the review's mark and leaves every other review's mark as it was |
| ReviewsPage.ToggleTwice | src/components/Reviews.tsx:70-79 | two clicks give the marks back |
| ReviewsPage.ToggleTwiceDropsFalseMark | src/components/Reviews.tsx:70-79 | two clicks on an entry stored as `false` drop that entry |
| ReviewsPage.HelpfulCount | src/components/Reviews.tsx:269 | the count shown is `helpful + 1` for a marked review and `helpful` otherwise |
| ReviewsPage.ToggleMovesOneCount | src/components/Reviews.tsx:70-79 | a click moves that review's count by exactly one and leaves every other count |
| ReviewsPage.Persist | src/components/Reviews.tsx:192-196 | the marks are written only when there are some; otherwise storage keeps what it had |
| ReviewsPage.Restore | src/components/Reviews.tsx:179-190 | saved marks replace the current ones; nothing saved or an unreadable entry keeps them |
| ReviewsPage.UnmarkLastIsForgotten | src/components/Reviews.tsx:179-196 | unmarking the last marked review is never written, so a reload shows it marked again |
| ReviewsPage.UnmarkWithOthersIsSaved | src/components/Reviews.tsx:192-196 | unmarking while other marks remain is saved |
| ReviewsPage.ByService | src/components/Reviews.tsx:199-200 | the filter keeps exactly the reviews of that service |
| ReviewsPage.ByServiceConcat | src/components/Reviews.tsx:199-200 | the filter distributes over concatenation, so order is kept |
| ReviewsPage.ByServiceBounds | src/components/Reviews.tsx:199-200 | all of one service pass whole; none of it give nothing |
| ReviewsPage.Filtered | src/components/Reviews.tsx:199-200 | `all` shows every review; a service shows that service's |
| ReviewsPage.Visible | src/components/Reviews.tsx:201 | `slice(0, displayed)`: a prefix of the filtered list of length `min(displayed, length)` |
| ReviewsPage.HasMoreIffHidden | src/components/Reviews.tsx:202 | "Load more" shows exactly when some filtered review is hidden |
| ReviewsPage.LoadMoreExtends | src/components/Reviews.tsx:282 | loading six more keeps the shown reviews as a prefix and shows more when any were hidden |
| ReviewsPage.LoadsReachEnd | src/components/Reviews.tsx:201-202 | after enough loads every filtered review is shown and "Load more" is gone |
| ReviewsPage.SetInput | src/components/Reviews.tsx:96-99 | an input change sets that field and keeps the others and the rating |
| ReviewsPage.SelectFilterShowsFirstPage | src/components/Reviews.tsx:199-235 | choosing a service shows the first six of its reviews, only of that service, with "Load more" exactly when it has more than six |
| ReviewsPage.FetchDoneAgainstLibrary | src/components/Reviews.tsx:105-124 | loading ends either way; an error keeps the reviews; otherwise they are what `fetchReviews` returns |
| ReviewsPage.SubmitRequest | src/components/Reviews.tsx:141-156 | once the submit handler runs, it sends nothing exactly when no star is chosen; otherwise the trimmed name and text, the service and the rating |
| ReviewsPage.PayloadAgainstLibrary | src/components/Reviews.tsx:148-156 | within the limits the component sends what `submitReview` would; a name over 200 characters is sent whole |
| ReviewsPage.SubmittedReviewShownFirst | src/components/Reviews.tsx:160-172 | a stored review is put first and shown first under `all` or its own service |
| ReviewsPage.FailedSubmitKeepsForm | src/components/Reviews.tsx:158-176 | an error, or no row returned, leaves the state as it was |
| ReviewsPage.ReviewsView.constructor | src/components/Reviews.tsx:33-40 | the initial state, with what storage held |
| ReviewsPage.ReviewsView.SetFilter | src/components/Reviews.tsx:231-235 | the filter buttons' update |
| ReviewsPage.ReviewsView.LoadMoreReviews | src/components/Reviews.tsx:282 | "Load more" adds six |
| ReviewsPage.ReviewsView.ToggleHelpful | src/components/Reviews.tsx:70-79 | the click, and the effect that writes the marks |
| ReviewsPage.ReviewsView.ReadSaved | src/components/Reviews.tsx:179-190 | the effect that reads the saved marks |
| ReviewsPage.ReviewsView.FetchComplete | src/components/Reviews.tsx:105-124 | the fetch's outcome |
| ReviewsPage.ReviewsView.Open | src/components/Reviews.tsx:81-86 | opens the modal |
| ReviewsPage.ReviewsView.Close | src/components/Reviews.tsx:88-94 | closes the modal and resets the form |
| ReviewsPage.ReviewsView.HandleInputChange | src/components/Reviews.tsx:96-99 | one field of the form |
| ReviewsPage.ReviewsView.HandleStarClick | src/components/Reviews.tsx:101-103 | the rating |
| ReviewsPage.ReviewsView.SubmitStart | src/components/Reviews.tsx:141-156 | returns the request the submit handler sends, changing nothing |
| ReviewsPage.ReviewsView.SubmitComplete | src/components/Reviews.tsx:157-172 | the state after the insert answers |
| ReviewsPage.ReviewsView.SuccessTimeout | src/components/Reviews.tsx:173 | the timer hides the success message |
| ReviewsLegacy.AllReviews | src/components/Reviews.js:288 | the visitor's reviews first, then the twelve built-in ones |
| ReviewsLegacy.OverallTotal | src/components/Reviews.js:133-139 | the total is the number of reviews, or 127 when there are none |
| ReviewsLegacy.TotalCountsEveryReview | src/components/Reviews.js:133-139 | there are 12 built-in reviews, so the total is the visitor's count plus 12 and the fallback never applies |
| ReviewsLegacy.FilterKeepsUserReviewsFirst | src/components/Reviews.js:288-292 | filtering by service keeps the visitor's reviews of that service before the built-in ones |
| ReviewsLegacy.NewReview | src/components/Reviews.js:229-237 | the new review keeps the untrimmed form values, has 0 helpful votes and today's date without time |
| ReviewsLegacy.LegacySubmitGate | src/components/Reviews.js:221-246 | once the submit handler runs, without a rating nothing happens; otherwise one review is put first, all of them are saved at once and success shows |
| ReviewsLegacy.SubmittedReviewLeads | src/components/Reviews.js:229-241 | the new review is dated by the date part of the clock and shown first under `all` |
| ReviewsLegacy.SecondSubmitBeforeTimerAddsAgain | src/components/Reviews.js:221-253 | a second submit before the reset timer adds the same form again |
| ReviewsLegacy.SubmitCycleResets | src/components/Reviews.js:249-253 | after the timer the form is reset, the modal closed, success hidden and six shown, with the review kept |
| ReviewsLegacy.SubmittedReviewSurvivesReload | src/components/Reviews.js:244-278 | reloading the page reads back exactly the reviews saved on submit |
| ReviewsLegacy.LegacyReviews.constructor | src/components/Reviews.js:118-129 | the initial state, with what storage held |
| ReviewsLegacy.LegacyReviews.LoadSaved | src/components/Reviews.js:257-278 | the effect that reads saved reviews and marks |
| ReviewsLegacy.LegacyReviews.SetFilter | src/components/Reviews.js:322-346 | the filter buttons |
| ReviewsLegacy.LegacyReviews.LoadMoreReviews | src/components/Reviews.js:393 | "Load more" |
| ReviewsLegacy.LegacyReviews.ToggleHelpful | src/components/Reviews.js:167-176 | the click, and the effect that writes the marks |
| ReviewsLegacy.LegacyReviews.OpenModal | src/components/Reviews.js:179-184 | opens the modal, changing nothing else |
| ReviewsLegacy.LegacyReviews.CloseModal | src/components/Reviews.js:186-201 | closes the modal and resets the form, changing nothing else |
| ReviewsLegacy.LegacyReviews.HandleInputChange | src/components/Reviews.js:204-210 | one field of the form |
| ReviewsLegacy.LegacyReviews.HandleStarClick | src/components/Reviews.js:213-218 | the rating |
| ReviewsLegacy.LegacyReviews.HandleSubmit | src/components/Reviews.js:221-246 | once the submit handler runs, it adds a review exactly when a rating is chosen |
| ReviewsLegacy.LegacyReviews.SubmitTimer | src/components/Reviews.js:249-253 | the reset timer |
| ProjectsPage.ButtonIds | src/components/Projects.tsx:85-91 | the buttons' ids, in order |
| ProjectsPage.ButtonsCoverCatalog | src/components/Projects.tsx:18-91 | the buttons are `all` and the four categories, and every project's category has a button |
| ProjectsPage.ByCategory | src/components/Projects.tsx:97-100 | the filter keeps exactly the projects of that category |
| ProjectsPage.ByCategoryConcat | src/components/Projects.tsx:97-100 | the filter distributes over concatenation |
| ProjectsPage.ByCategoryIsSubsequence | src/components/Projects.tsx:97-100 | the filtered projects keep the catalogue's order |
| ProjectsPage.Shown | src/components/Projects.tsx:97-100 | `all` shows the whole catalogue, a category its projects |
| ProjectsPage.CategoriesPartitionCatalog | src/components/Projects.tsx:18-100 | no project shows under two categories, and every project shows under one of the buttons |
| ProjectsPage.CategoryLabel | src/components/Projects.tsx:165 | the label keeps the length, and a category without `-` is shown as it is |
| ProjectsPage.LabelReplacesFirstDashOnly | src/components/Projects.tsx:165 | only the first `-` becomes a space |
| ProjectsPage.ProjectsView.Cards | src/components/Projects.tsx:97-100 | the cards are catalogue projects, all of them under `all` |
| ProjectsPage.ProjectsView.constructor | src/components/Projects.tsx:94-95 | starts at `all` with nothing selected |
| ProjectsPage.ProjectsView.SetCategory | src/components/Projects.tsx:122 | sets the category only |
| ProjectsPage.ProjectsView.SelectProject | src/components/Projects.tsx:138 | opens the project, changing nothing else |
| ProjectsPage.ProjectsView.Close | src/components/Projects.tsx:175 | closes the project, changing nothing else |
| AdminDashboard.GenerateStars | src/app/admin/page.tsx:32-33 | five stars; position `i` is filled exactly when `i < rating`, empty otherwise |
| AdminDashboard.StarsAreTwoRuns | src/app/admin/page.tsx:32-33 | the filled stars come first, then the empty ones, with the number filled clamped to 0..5 |
| AdminDashboard.StarsAtTheEnds | src/app/admin/page.tsx:32-33 | a rating of 0 or less shows five empty stars, one of 5 or more five filled ones |
| AdminDashboard.FirstClickOnlyMarks | src/app/admin/page.tsx:106-122 | a first click on Delete only asks for confirmation |
| AdminDashboard.SecondClickDeletesOnce | src/app/admin/page.tsx:106-128 | a second click on the same row issues one delete and clears the confirmation |
| AdminDashboard.CancelStartsOver | src/app/admin/page.tsx:402 | after Cancel a click only asks again |
| AdminDashboard.DeleteCycle | src/app/admin/page.tsx:106-128 | a confirmed delete issues one request, reloads that list (`data ?? []`) and ends with nothing pending |
| AdminDashboard.ToggleExpanded | src/app/admin/page.tsx:327-335 | clicking the open contact closes it; any other opens that one |
| AdminDashboard.ExpandMovesToOther | src/app/admin/page.tsx:327-335 | opening another contact moves the expansion to it; clicking it again closes it |
| AdminDashboard.LoginRequest | src/app/admin/page.tsx:91 | sign-in uses the trimmed e-mail and the password as typed |
| AdminDashboard.FailedLoginKeepsPassword | src/app/admin/page.tsx:87-96 | a failed sign-in shows its message and keeps the password and the session |
| AdminDashboard.AdminLoginClearsPassword | src/app/admin/page.tsx:87-99 | a successful admin sign-in loads the session and clears the password |
| AdminDashboard.LogoutEndsSession | src/app/admin/page.tsx:81-104 | signing out ends the session, and no list is loaded without one |
| AdminDashboard.AdminPage.constructor | src/app/admin/page.tsx:36-50 | the initial state |
| AdminDashboard.AdminPage.Delete | src/app/admin/page.tsx:106-124 | a click on Delete |
| AdminDashboard.AdminPage.DeleteAnswered | src/app/admin/page.tsx:113-126 | the list reload after the delete |
| AdminDashboard.AdminPage.Loaded | src/app/admin/page.tsx:61-79 | a list arrives |
| AdminDashboard.AdminPage.DeleteReloaded | src/app/admin/page.tsx:114-127 | the reload ends the delete |
| AdminDashboard.AdminPage.Cancel | src/app/admin/page.tsx:402 | the Cancel button |
| AdminDashboard.AdminPage.ClickContact | src/app/admin/page.tsx:327-335 | expands or collapses a contact |
| AdminDashboard.AdminPage.SetEmail | src/app/admin/page.tsx:170 | the e-mail input |
| AdminDashboard.AdminPage.SetPassword | src/app/admin/page.tsx:183 | the password input |
| AdminDashboard.AdminPage.MountSession | src/app/admin/page.tsx:52-59 | the session found on mount ends loading |
| AdminDashboard.AdminPage.SessionEffect | src/app/admin/page.tsx:81-85 | with a session both lists start loading |
| AdminDashboard.AdminPage.Login | src/app/admin/page.tsx:87-91 | returns the credentials sign-in is called with |
| AdminDashboard.AdminPage.LoginAnswer | src/app/admin/page.tsx:92-97 | the session is reloaded exactly when sign-in gave no error |
| AdminDashboard.AdminPage.LoginSession | src/app/admin/page.tsx:97-98 | the reloaded session, with the password cleared |
| AdminDashboard.AdminPage.SignOut | src/app/admin/page.tsx:101-104 | drops the session |

## Left out

- Strings are sequences of Unicode characters. The model does not capture JavaScript's UTF-16 code units: `length` and `slice` on text outside the Basic Multilingual Plane count differently.
- `toLowerCase` and `toUpperCase` are modelled on ASCII letters only; full Unicode case mapping is not modelled. The whitespace class of `\s` and `trim()` is modelled in full.
- `JSON.parse` and `JSON.stringify`, and `localStorage`, are not modelled. Stored values are a datatype: nothing saved, unreadable, or saved.
- JSON in the generic notification mail is an opaque string parameter.
- Timers (`setTimeout`), `alert`, `document.body.style`, the Escape-key listener and focus handling are not modelled. A timer's callback is a transition of its own; the Escape key runs the same code as the close button.
- The average rating shown on the reviews pages (floating-point mean, `toFixed(1)`) is not modelled; only the review total is.
- Dates are not modelled: `toLocaleDateString` and `formatDate` are display only, and `Date.now()` and `new Date().toISOString()` are parameters.
- `Number(x)` is modelled on integers, strings of digits with an optional leading `-`, `undefined` and `null`. Fractions, exponents and the full string-to-number grammar are not.
- JsValues.ToNumber, JsValues.NumberText: numbers are exact unbounded integers, not IEEE doubles; the 2^53 precision limit (`Number("9007199254740993")` is 9007199254740992) and exponent formatting from 1e21 up (`${1e21}` is `1e+21`) are not modelled. Ratings 1 to 5 and helpful counts are far inside both limits.
- AdminDashboard.GenerateStars: a fractional rating is not modelled, because ratings are whole numbers.
- The edge function declares `const data` twice in one scope (`supabase/functions/send-notification/index.ts:99` and `:140`), which does not compile as written. The model reads the second `data` as the mail API's reply, passed in as a parameter.
- The generic subject's dash is kept as the three characters the file holds (`â€“`), not as an en dash.
- `console.error` logging, CORS headers and the HTTP transport are not modelled; the mail API call is a parameter that answers `ok` with an id or not.
- The Supabase client calls (`auth.signInWithPassword`, `auth.getUser`, the `admin_users` query, table reads, inserts and deletes) are parameters of the functions that use them. The model records which calls are made, not how.
- `signOutAdmin` (`src/lib/admin-auth.ts:50-52`) only forwards to the client's sign-out; the model counts the sign-out inside `SignInAdmin` and drops the session in `AdminDashboard.Logout`.
- The admin page's contact and review lists are modelled as lists of row ids. Their tabs, mobile menu, initials and formatting are display only.
- The built-in reviews and projects are kept as literal data. The proofs use their number, ids, services and categories, not their wording.
- The marks of `src/components/Reviews.js` are keyed by numeric ids that JavaScript turns into strings; the model uses string ids throughout.
- The browser's constraint validation, which runs before any submit handler, is not modelled: `required` fields (src/components/Reviews.tsx:312, 316 and 344; src/components/Reviews.js:423, 434 and 468; src/app/admin/page.tsx:171 and 184) and `type="email"` fields (src/components/Contact.tsx:206; src/components/Contact.js:229; src/app/admin/page.tsx:168) block the submit event while empty or malformed. ReviewsPage.SubmitRequest, ReviewsPage.ReviewsView.SubmitStart, ReviewsLegacy.LegacySubmitGate, ReviewsLegacy.LegacyReviews.HandleSubmit, ContactForm.StartInsertsOnlyValidForms, ContactForm.ContactFormView.SubmitStart, ContactFormLegacy.LegacySubmitGate, ContactFormLegacy.LegacyContactForm.HandleSubmit and AdminDashboard.AdminPage.Login state what the handler does once it runs, so an empty review name or an address such as `abc` reaches them in the model but not on the page.
- Error strings set to `''` and `undefined` are both modelled as "no error" (`None`), since the components only test them for truthiness.
- ContactValidation.ValidatePhone: its own contract states only the ten-character consequence; the full rule is stated by `ContactValidation.ValidatePhoneIff`.
- Layout and styling components (`Header`, `Footer`, `Landing`, `Services`, the skeletons, the route pages) and the test files are not part of this model.
