# Courseify front-end core in Dafny

Courseify is a small course marketplace. Its Next.js front end lists courses and packages
priced for a chosen country, lets owners create, edit and delete their courses and packages,
and keeps a signed-in session. This project models the deterministic rules inside that
front end and proves properties about them:

- the country catalog and the location context that picks and remembers a country;
- the location-parameter precedence that four pages write out inline (`LocationParam.Resolve`);
- the price badge shared by the course and package cards (`PriceDisplay`);
- the API layer: each operation's method, path and `location` query, unwrapping of
  `data.data`, and the bearer-token request interceptor;
- the image-upload reply classification and its error messages;
- the Zod schemas for courses, packages, login and registration;
- the course and package dialogs and forms: default values, the `imageUrl` state,
  and the course-id checkbox toggle;
- the public list pages and the two owner dashboards: fetch guards, state after
  success or failure, redirects, payloads and deletes;
- the two session holders: the persisted zustand store and the React auth context.

Components that update state become classes. Their fields are the state, and each method
has `modifies this` plus `ensures` for the whole new state. Pure rules become functions
with lemmas.

Some outside effects become parameters or logs:
- `localStorage` is a `map<string, string>` field.
- The zustand `persist` entry "auth-storage" is a field holding the persisted part of the
  store (JSON encoding abstracted): written after every `set`, read back on a page load.
- `router.push` appends to a `navigation` log.
- Each network call appends the request it would send to a `requests` log.
- The awaited outcome of a network call is a `Result` parameter.

One module per source file; `Wrappers`, `Js` (JavaScript truthiness, `||`, `filter`, `join`,
number to string) and `Domain` (the records of `src/lib/api.ts`) are shared.

Behaviour of the code worth knowing:

- The cards pick the amount (`localizedPrice ?? price`) and the currency
  (`localizedCurrency ?? "USD"`) independently. A localized amount without a localized
  currency is therefore labelled USD (`PriceDisplay.LocalizedAmountCanBeLabelledUsd`).
- The cards do not implement the blacklist rule: `isBlacklisted` and `message` change
  nothing they show (`PriceDisplay.BlacklistDoesNotAffectBadge`). The course detail page
  does handle it (src/app/courses/[courseId]/page.tsx:97-106,147, which is not part of this
  model): it shows `message` in a notice and hides the localized price lines.
- The catalog has no `"GLOBAL"` entry. The location context therefore falls back to the
  first entry, "Default INR", and `setSelectedLocation("GLOBAL")` selects nothing.

## Model

| member | source | states |
|---|---|---|
| Countries.FindByCode | src/lib/countries.ts:26 | `countries.find` by code: nothing exactly when no entry has the code, otherwise the first entry with it |
| Countries.CountryNameByCode | src/lib/countries.ts:25-27 | the name of the first entry with the code, nothing when there is none |
| Countries.InLooksUpDefaultInr | src/lib/countries.ts:13-15 | "IN" finds the first entry and names "Default INR", not "India" |
| Countries.GlobalIsAbsent | src/lib/countries.ts:12-22 | no catalog entry has the code "GLOBAL" |
| Countries.CatalogShape | src/lib/countries.ts:12-22 | nine entries; "IN" at positions 0 and 2; every other code occurs once |
| Countries.CatalogFieldsNonEmpty | src/lib/countries.ts:13-21 | every entry has non-empty code, name and currency |
| Countries.OtherLengthsFindNothing | src/lib/countries.ts:12-22 | a code that is not two characters long finds nothing |
| Countries.IndiaNeverFoundByCode | src/lib/countries.ts:13-15 | no code ever finds the "India" entry |
| Countries.FoundIsInCatalog | src/lib/countries.ts:26 | what a lookup finds is an element of the searched list with that code |
| LocationContext.LocationProvider.constructor | src/contexts/LocationContext.tsx:18-19 | nothing selected and loading at start |
| LocationContext.LocationProvider.Initialize | src/contexts/LocationContext.tsx:21-36 | a stored code that matches selects the first entry with it; otherwise the first entry; loading ends; storage untouched |
| LocationContext.LocationProvider.SetSelectedLocation | src/contexts/LocationContext.tsx:38-48 | a catalog code selects its first entry and stores that code; "GLOBAL" selects nothing and stores "GLOBAL"; any other code changes nothing |
| LocationContext.StoredInScenario | src/contexts/LocationContext.tsx:23-28 | a stored "IN" selects "Default INR" |
| LocationContext.ResetScenario | src/contexts/LocationContext.tsx:43-47 | resetting to "GLOBAL" and then choosing an unknown code leaves no selection and "GLOBAL" stored |
| LocationParam.Resolve | src/app/courses/page.tsx:29-39 | the selected country's name when the selection is not "GLOBAL", else a truthy profile location, else nothing, with the nothing case as an if-and-only-if |
| LocationParam.SelectionOverridesProfile | src/app/packages/page.tsx:25-30 | with a counting selection the profile location is irrelevant |
| LocationParam.CatalogSelectionWins | src/app/dashboard/my-courses/page.tsx:58-62 | selecting any catalog entry always sends its non-empty name |
| LocationParam.ResolvedComesFromInputs | src/app/dashboard/my-packages/page.tsx:63-68 | what is sent is the selected name or a non-empty profile location |
| PriceDisplay.FormatPrice | src/components/courses/CourseCard.tsx:17-20 | "N/A" exactly when the price is undefined or the currency is absent or empty; otherwise the amount in that currency |
| PriceDisplay.MultiplierNote | src/components/courses/CourseCard.tsx:57 | absent or 1: nothing; 0: the bare text "0" that JSX prints for a falsy number; any other: the note with exactly that multiplier |
| PriceDisplay.BadgeSelection | src/components/courses/CourseCard.tsx:23-24 | amount is the localized price when present (0 kept) else the fallback; currency is the localized currency when present else USD; "N/A" exactly when no amount or an empty currency |
| PriceDisplay.LocalizedAmountCanBeLabelledUsd | src/components/packages/PackageCard.tsx:23-24 | a localized amount without a localized currency is labelled USD |
| PriceDisplay.BlacklistDoesNotAffectBadge | src/components/packages/PackageCard.tsx:61-65 | `isBlacklisted` and `message` change neither badge nor note |
| CourseCard.Render | src/components/courses/CourseCard.tsx:22-79 | the badge shows the localized price when present (0 kept), else the course price, in the localized currency when present, else USD, and "N/A" exactly for an empty localized currency; the multiplier text is nothing for absent or 1, the "0" text for 0 and the note with that multiplier otherwise; owner buttons only with `isOwner` and the callback; Delete passes (courseId, title); a populated creator's name, else "Unknown Creator" |
| CourseCard.UsdCourseExample | src/components/courses/CourseCard.tsx:17-24 | 49.99 without localized info shows 49.99 USD |
| CourseCard.LocalizedCourseExample | src/components/courses/CourseCard.tsx:55-59 | localized 4150 INR with multiplier 1.2 shows 4150 INR and the note 1.2 |
| CourseCard.ZeroMultiplierExample | src/components/courses/CourseCard.tsx:55-58 | a localized price 0 INR with multiplier 0 shows 0 INR followed by the text "0" |
| PackageCard.Titles | src/components/packages/PackageCard.tsx:56 | one title per course entry, in order |
| PackageCard.Render | src/components/packages/PackageCard.tsx:22-85 | the badge shows the localized price when present, else the base total, in the localized currency when present, else USD, and "N/A" exactly when neither amount is present or the currency is empty; the multiplier text as on the course card; the count is the length of the course array (0 without one) and the label is "Course" exactly for 1; the summary of the course array; a populated creator's name, else "Unknown Creator"; owner buttons only with `isOwner` and the callback; Delete passes (packageId, title) |
| PackageCard.SummaryFallback | src/components/packages/PackageCard.tsx:55-57 | no array or an empty one gives the fixed fallback text |
| PackageCard.SummaryStartsWithFirstTitle | src/components/packages/PackageCard.tsx:56 | a non-empty list's summary starts with its first title |
| PackageCard.SummaryOfAtMostThree | src/components/packages/PackageCard.tsx:55-57 | one to three courses: all titles joined by ", ", no "..." |
| PackageCard.SummaryOfMoreThanThree | src/components/packages/PackageCard.tsx:56 | more than three: ends in "..." and depends only on the first three |
| Api.LocationQuery | src/lib/api.ts:69 | a `location` parameter exactly when the location is truthy, holding that location, and no other key |
| Api.RequestOf | src/lib/api.ts:68-193 | reads and `/auth/me` are GETs, updates PUTs, removals DELETEs and the rest POSTs; each path under its resource ("/courses", "/packages", "/auth/"); a query exactly for the located reads; a body exactly for POST and PUT, carrying the operation's payload |
| Api.QueryOnlyForLocatedReads | src/lib/api.ts:68-85 | only the six reads with a location send a query, and it is exactly `location` |
| Api.ByIdPathsCarryTheId | src/lib/api.ts:74-103 | by-id operations put the id verbatim after "/courses/" or "/packages/" |
| Api.CreationAndOwnerRoutes | src/lib/api.ts:70-183 | the lists GET "/courses" and "/packages"; course creation POSTs "/courses"; owner lists GET "/courses/my-courses" and "/packages/my-packages"; package creation POSTs "/packages/create" |
| Api.AuthRoutes | src/contexts/AuthContext.tsx:51-85 | sign-in POSTs "/auth/login", sign-up POSTs "/auth/register", the current user is a GET of "/auth/me" |
| Api.MyCoursesPathCollision | src/lib/api.ts:74-85 | fetching course "my-courses" sends the owner-list request, and no other id does |
| Api.MyPackagesPathCollision | src/lib/api.ts:163-176 | fetching package "my-packages" sends the owner-list request, and no other id does |
| Api.Unwrap | src/lib/api.ts:68-103 | a rejection passes through; success yields `data.data`, except the deletes, which yield nothing |
| Api.InterceptedHeaders | src/lib/api.ts:14-23 | `Authorization: Bearer <token>` exactly when the stored token is truthy, else headers unchanged |
| Api.BearerNamesTheStoredToken | src/lib/api.ts:17-19 | the header reads back as the stored token after "Bearer " |
| Api.Intercept | src/lib/api.ts:14-23 | the config is updated in place to the intercepted headers and returned |
| ImageUpload.RequestFor | src/lib/imageUpload.ts:12-22 | a multipart POST to the media endpoint with the single field "file" |
| ImageUpload.Classify | src/lib/imageUpload.ts:24-35 | success exactly for an object with a url (then that url) or a text starting "http" (then that text); an error key without url fails with that error (the network-failure text when it is empty); failures never empty |
| ImageUpload.UploadImage | src/lib/imageUpload.ts:11-46 | success exactly for an object with a url (checked before error) or a text starting "http"; an error key fails with its text; a no-response failure keeps its message; failure messages are never empty |
| ImageUpload.HttpFailureMessage | src/lib/imageUpload.ts:38-43 | an HTTP failure reports `error`, else `message`, else the status text |
| ImageUpload.StatusMessageNamesStatus | src/lib/imageUpload.ts:42 | the status text is the fixed prefix followed by the decimal status, which reads back as the status |
| ImageUpload.UrlCheckedBeforeError | src/lib/imageUpload.ts:24-27 | an object with both url and error returns the url |
| ImageUpload.EmptyServerErrorBecomesNetworkText | src/lib/imageUpload.ts:26-27 | an empty error text surfaces as the network-failure text |
| ImageUpload.InvalidReplies | src/lib/imageUpload.ts:28-35 | non-http text, an object with neither key, or other data fail as an invalid response |
| Js.ParseNatToString | src/lib/imageUpload.ts:42 | the decimal rendering of a number reads back as that number |
| Zod.UrlOrEmpty | src/lib/validations/course.ts:10 | accepted exactly when absent, empty or a URL |
| CourseSchema.Validate | src/lib/validations/course.ts:4-12 | accepted exactly when title has at least 3 characters, price is a number above 0, image absent, empty or a URL; accepted values are the input |
| CourseSchema.IssueMessages | src/lib/validations/course.ts:5-10 | each message appears exactly when its rule is broken; the description is never reported |
| CourseSchema.DescriptionIsOptional | src/lib/validations/course.ts:6 | the description never decides acceptance |
| PackageSchema.Validate | src/lib/validations/package.ts:4-9 | accepted exactly when title has at least 3 characters, at least one course id, every id non-empty, image absent, empty or a URL |
| PackageSchema.ElementIssueAt | src/lib/validations/package.ts:6 | an element issue at an index is reported exactly for an empty id there |
| PackageSchema.CourseIdsMessages | src/lib/validations/package.ts:6-7 | "Please select at least one course for the package." exactly for no ids; "Course ID cannot be empty" at index k exactly for an empty id k |
| AuthSchema.ValidateLogin | src/lib/validations/auth.ts:4-7 | accepted exactly for a recognised email and a password of at least 1 character |
| AuthSchema.ValidateRegister | src/lib/validations/auth.ts:9-16 | accepted exactly for name of at least 2, recognised email, password of at least 6, phone of at least 10 characters, and profile image absent, empty or a URL |
| AuthSchema.PhoneIsNotCheckedForDigits | src/lib/validations/auth.ts:13 | ten letters pass the phone rule |
| AuthSchema.LocationIsOptional | src/lib/validations/auth.ts:14 | the location never decides acceptance |
| AuthSchema.ShortPasswordMessage | src/lib/validations/auth.ts:12 | a short password alone reports exactly the password-length message |
| CourseModal.FormInitialData | src/components/courses/CourseModal.tsx:36-43 | nothing without a course; otherwise title, description, price and image copied |
| CourseModal.Render | src/components/courses/CourseModal.tsx:31-60 | nothing when closed; "Create Course" exactly in create mode (the default), "Save Changes" otherwise |
| CourseModal.EditPrefillsCourse | src/components/courses/CourseModal.tsx:36-43 | editing starts the form from the course's title and price, with missing description or image as "" |
| CourseForm.Defaults | src/components/courses/CourseForm.tsx:45-50 | title, description and image default to "", the price to 0 (also for 0) |
| CourseForm.FinalValues | src/components/courses/CourseForm.tsx:102 | the values with image replaced by `imageUrl` or "" |
| CourseForm.CourseFormState.constructor | src/components/courses/CourseForm.tsx:38-51 | defaults, `imageUrl` from a truthy initial image, form image in step with it; the upload control starts disabled exactly when there is an initial image, and submit starts enabled |
| CourseForm.CourseFormState.HandleImageUpload | src/components/courses/CourseForm.tsx:59-83 | no file changes nothing; one upload per file; success sets `imageUrl` and form image to the url, and a non-empty url disables further upload; failure keeps both and the upload control's state; uploading ends false, so submit is enabled again |
| CourseForm.CourseFormState.RemoveImage | src/components/courses/CourseForm.tsx:85-91 | clears `imageUrl` and sets the form image to ""; upload is enabled again unless the form is loading |
| CourseForm.CourseFormState.Submitted | src/components/courses/CourseForm.tsx:100-104 | submits exactly for valid values, with the image taken from `imageUrl` or "" |
| CourseForm.CourseFormState.UploadDisabled | src/components/courses/CourseForm.tsx:165 | enabled exactly when not uploading, not loading and no image |
| CourseForm.CourseFormState.SubmitDisabled | src/components/courses/CourseForm.tsx:198 | disabled exactly when uploading or loading |
| CourseForm.SubmitOverrideAgrees | src/components/courses/CourseForm.tsx:54-56 | with the image effect applied, the submitted values are exactly the validated form values |
| PackageModal.CourseIdsOf | src/components/packages/PackageModal.tsx:36-39 | one id per entry in order: a string kept, an object's `_id` |
| PackageModal.FormInitialData | src/components/packages/PackageModal.tsx:41-47 | nothing without a package; title and image copied; course ids only when the extracted list is non-empty |
| PackageModal.Render | src/components/packages/PackageModal.tsx:34-65 | nothing when closed; "Create Package" exactly in create mode (the default), "Save Changes" otherwise; submit enabled exactly when not loading and some course is selectable |
| PackageModal.EditPrefillsSelection | src/components/packages/PackageModal.tsx:41-47 | editing ticks exactly the package's course `_id`s in order |
| PackageForm.Defaults | src/components/packages/PackageForm.tsx:41-45 | title "", course ids [] and image "" when missing |
| PackageForm.SubmitDisabled | src/components/packages/PackageForm.tsx:131 | enabled exactly when not loading and some course is available |
| PackageForm.EnabledSubmitAllowsSelection | src/components/packages/PackageForm.tsx:90-131 | whenever submit is enabled a course exists whose ticking gives a selection free of the "at least one course" issue |
| PackageForm.CheckAppends | src/components/packages/PackageForm.tsx:91-93 | ticking appends the `_id` at the end and leaves the box ticked |
| PackageForm.UncheckRemovesAll | src/components/packages/PackageForm.tsx:94-98 | unticking removes every copy of the `_id`, keeps every other id's count, and leaves the box unticked |
| PackageForm.CheckThenUncheck | src/components/packages/PackageForm.tsx:90-98 | ticking then unticking an unselected course restores the list |
| PackageForm.SelectionUsesMongoId | src/components/packages/PackageForm.tsx:81-89 | the box depends on `_id` only |
| CoursesPage.Page.LoadCourses | src/app/courses/page.tsx:19-52 | while a context loads nothing but the loader; otherwise one request with the resolved location, then the list on success or the fixed error with the list kept; loading ends |
| CoursesPage.Page.constructor | src/app/courses/page.tsx:12-14 | no courses, page loading, no error, no request sent |
| CoursesPage.Page.Render | src/app/courses/page.tsx:60-87 | the prices note (naming the selected country), loader, empty message and grid each show exactly under their conditions |
| CoursesPage.Cards | src/app/courses/page.tsx:83-85 | one public course card per course, in order |
| CoursesPage.FailedLoadShowsNoList | src/app/courses/page.tsx:72-81 | after a failed load nothing below the heading shows |
| CoursesPage.LoadedShowsOneList | src/app/courses/page.tsx:78-81 | once loaded without error exactly one of empty message and grid shows |
| PackagesPage.Page.LoadPackages | src/app/packages/page.tsx:18-40 | as the course list, for packages |
| PackagesPage.Page.constructor | src/app/packages/page.tsx:12-14 | no packages, page loading, no error, no request sent |
| PackagesPage.Page.Render | src/app/packages/page.tsx:46-74 | the prices note naming the selected country exactly when the contexts are ready and one is selected; error text whenever set; empty and grid only with every flag clear and no error |
| PackagesPage.Cards | src/app/packages/page.tsx:70-72 | one public package card per package, in order |
| PackagesPage.ViewsExclusive | src/app/packages/page.tsx:58-68 | empty message, grid and error exclude one another, and neither list shows with the loader |
| MyCoursesPage.PayloadOf | src/app/dashboard/my-courses/page.tsx:102-106 | the values with an empty image or description sent as undefined |
| MyCoursesPage.SaveRequest | src/app/dashboard/my-courses/page.tsx:109-115 | update by the edited course's `courseId`, else create |
| MyCoursesPage.Page.constructor | src/app/dashboard/my-courses/page.tsx:34-39 | no courses, page loading, dialog closed, not submitting, nothing edited or pending delete, no request or navigation |
| MyCoursesPage.Page.LoadMyCourses | src/app/dashboard/my-courses/page.tsx:46-73 | unauthenticated or a context loading: only the loader; otherwise one request, the list replaced on success and kept on failure |
| MyCoursesPage.Page.AuthEffect | src/app/dashboard/my-courses/page.tsx:75-82 | redirect to "/login?redirect=/dashboard/my-courses" exactly once auth settles unauthenticated, with nothing else changed; when authenticated, the load: one request and the list replaced on success once the contexts settle, else only the loader; dialog, submitting and pending delete untouched |
| MyCoursesPage.Page.OpenCreateModal | src/app/dashboard/my-courses/page.tsx:85-88 | open with no course being edited; list, requests, loader, submitting, pending delete and navigation unchanged |
| MyCoursesPage.Page.OpenEditModal | src/app/dashboard/my-courses/page.tsx:90-93 | open editing the given course; everything else unchanged |
| MyCoursesPage.Page.CloseModal | src/app/dashboard/my-courses/page.tsx:95-98 | closed and no course being edited; nothing else changes |
| MyCoursesPage.Page.FormSubmit | src/app/dashboard/my-courses/page.tsx:100-128 | one save request; on success the dialog closes and the list reloads (loader cleared when it loads, set otherwise); on failure the dialog, list and loader stay; submitting ends false; pending delete and navigation unchanged |
| MyCoursesPage.Page.DeleteConfirmation | src/app/dashboard/my-courses/page.tsx:130-132 | records the pending (id, title); everything else unchanged |
| MyCoursesPage.Page.ConfirmDelete | src/app/dashboard/my-courses/page.tsx:134-152 | no target, no change; otherwise one delete, the course removed on success, target cleared and submitting false either way; dialog, loader and navigation unchanged |
| MyCoursesPage.Page.Render | src/app/dashboard/my-courses/page.tsx:154-238 | full-page loader condition; refreshing note, empty message and owner cards; the dialog in edit mode exactly when a course is being edited |
| MyCoursesPage.RemoveCourseExact | src/app/dashboard/my-courses/page.tsx:140 | no course with the id remains; every other course keeps its count |
| MyCoursesPage.RemoveCourseKeepsOrder | src/app/dashboard/my-courses/page.tsx:140 | removal distributes over concatenation, so the order is kept |
| MyCoursesPage.RemoveAbsentCourse | src/app/dashboard/my-courses/page.tsx:140 | removing an absent id changes nothing |
| MyCoursesPage.OwnerCards | src/app/dashboard/my-courses/page.tsx:197-205 | every owner card has Edit and Delete with its (courseId, title) |
| MyPackagesPage.PayloadOf | src/app/dashboard/my-packages/page.tsx:111 | the values with an empty image sent as undefined |
| MyPackagesPage.SaveRequest | src/app/dashboard/my-packages/page.tsx:113-118 | update by the edited package's `packageId`, else create |
| MyPackagesPage.Page.constructor | src/app/dashboard/my-packages/page.tsx:27-34 | no packages or selectable courses, both loaders on, dialog closed, not submitting, nothing edited or pending delete, no request or navigation |
| MyPackagesPage.Page.LoadAvailableCourses | src/app/dashboard/my-packages/page.tsx:42-54 | no-op unauthenticated; otherwise the owner's courses fetched without a location, kept on failure, loading ended; packages, dialog, pending delete and submitting unchanged |
| MyPackagesPage.Page.LoadMyPackages | src/app/dashboard/my-packages/page.tsx:57-77 | the same guard and location rule as the course dashboard |
| MyPackagesPage.Page.AuthEffect | src/app/dashboard/my-packages/page.tsx:79-86 | redirect to "/login?redirect=/dashboard/my-packages" exactly once auth settles unauthenticated, with nothing else changed; when authenticated, the selectable courses loaded and the packages loaded once the contexts settle (else only the loader); dialog, pending delete and submitting untouched |
| MyPackagesPage.Page.OpenCreateModal | src/app/dashboard/my-packages/page.tsx:88-95 | no change while the selectable courses load; otherwise open with no package being edited and nothing else changed |
| MyPackagesPage.Page.OpenEditModal | src/app/dashboard/my-packages/page.tsx:97-104 | no change while the selectable courses load; otherwise open editing the given package and nothing else changed |
| MyPackagesPage.Page.CloseModal | src/app/dashboard/my-packages/page.tsx:107 | closed and no package being edited |
| MyPackagesPage.Page.FormSubmit | src/app/dashboard/my-packages/page.tsx:109-127 | one save request; on success the dialog closes and the packages reload (loader per the load guard); on failure dialog, list and loader stay; submitting ends false; selectable courses unchanged |
| MyPackagesPage.Page.DeleteConfirmation | src/app/dashboard/my-packages/page.tsx:128 | records the pending (id, title); everything else unchanged |
| MyPackagesPage.Page.ConfirmDelete | src/app/dashboard/my-packages/page.tsx:129-138 | one delete request; the list unchanged whatever the outcome; target cleared and submitting false; dialog, loaders, selectable courses and navigation unchanged |
| MyPackagesPage.Page.FullPageLoader | src/app/dashboard/my-packages/page.tsx:141-143 | while auth loads; otherwise exactly for an authenticated user with no packages while the location or the page loads |
| MyPackagesPage.Page.Modal | src/app/dashboard/my-packages/page.tsx:178-186 | the dialog for the edited package, in edit mode exactly when one is being edited; submit disabled exactly while submitting, while the selectable courses load, or when there are none |
| MyPackagesPage.OwnerCards | src/app/dashboard/my-packages/page.tsx:172-174 | one owner card per package, in order, each the package card of that package with Edit and Delete passing its (packageId, title) |
| AuthStore.Store.constructor | src/stores/authStore.ts:18-20 | no user, no token, not authenticated; the given storage and persisted entry |
| AuthStore.Store.SetUser | src/stores/authStore.ts:21 | the user set; authenticated exactly when a user is given; token untouched; the new state saved under "auth-storage" |
| AuthStore.Store.SetToken | src/stores/authStore.ts:22-29 | the token set; authenticated exactly with a user and a truthy token; a truthy token stored, otherwise removed; the new state saved |
| AuthStore.Store.Logout | src/stores/authStore.ts:30-35 | storage entry removed; user and token null, not authenticated; the cleared state saved |
| AuthStore.Store.Partialize | src/stores/authStore.ts:43 | exactly token, user and the flag persisted |
| AuthStore.Store.Rehydrate | src/stores/authStore.ts:37-53 | the persisted state merged in (the current one kept when nothing is saved), a truthy token mirrored to storage, the flag recomputed from user and token in either case; the saved entry untouched |
| AuthStore.Reload | src/stores/authStore.ts:37-53 | a page load after any saved state restores user and token and recomputes the flag; the saved entry matches the restored state exactly when the saved state was consistent |
| AuthStore.SetUserWithoutToken | src/stores/authStore.ts:21 | `setUser` alone can claim a session with no token |
| AuthStore.ReloadAfterSetUserWithoutToken | src/stores/authStore.ts:21-51 | the session claimed by `setUser` alone is saved as authenticated but a reload drops the flag |
| AuthStore.SetUserThenToken | src/stores/authStore.ts:21-29 | user then token leaves the flag consistent and the token mirrored |
| AuthContext.Provider.IsAuthenticated | src/contexts/AuthContext.tsx:113 | exactly a non-empty token |
| AuthContext.Provider.constructor | src/contexts/AuthContext.tsx:34-36 | no user, no token, loading, over the given storage, with no header, request or navigation |
| AuthContext.Provider.LoadUserFromToken | src/contexts/AuthContext.tsx:43-62 | no stored token: nothing but loading changes; with one: token and bearer header set and `/auth/me` asked; success sets the user; failure removes the token everywhere and clears the header; afterwards authenticated exactly on success, in agreement with the interceptor |
| AuthContext.Provider.Authenticate | src/contexts/AuthContext.tsx:64-98 | the shared sign-in handling: one request; success stores and sets the token, sets user and bearer header and navigates to "/", authenticated exactly for a non-empty token; failure is rethrown with the session kept; loading ends false |
| AuthContext.Provider.Login | src/contexts/AuthContext.tsx:64-80 | success stores and sets the token, sets user and header and navigates to "/", authenticated exactly for a non-empty token, in agreement with the interceptor; failure is rethrown and leaves the session; loading ends false |
| AuthContext.Provider.Register | src/contexts/AuthContext.tsx:82-98 | as login, posting the registration values to "/auth/register" (`Api.AuthRoutes`) |
| AuthContext.Provider.Logout | src/contexts/AuthContext.tsx:100-106 | token removed, token and user null, header "", navigation to "/login"; unauthenticated and the interceptor adds nothing |
| AuthContext.InterceptorAgreesAfterSignIn | src/contexts/AuthContext.tsx:69-72 | after sign-in the interceptor sends the same bearer header the context installed |
| AuthContext.InterceptorSilentAfterLogout | src/contexts/AuthContext.tsx:101 | after logout the interceptor adds nothing |

## Left out

- Currency formatting with `Intl.NumberFormat` is a foreign call. A formatted badge records the amount and currency code it would format.
- Prices are exact reals. NaN, infinities and floating-point rounding are not modelled, except that a price input which is not a number coerces to `None`.
- Zod's email and URL recognisers are library code. Models of them take a caller-supplied `string -> bool` predicate.
- Zod measures string length in UTF-16 code units; the model measures in characters.
- Network, timing and concurrency are not modelled. An awaited call's outcome is a method parameter, and its effects are applied in one step. Overlapping async runs and intermediate renders are not modelled, so the transient `isUploadingImage == true` and `isSubmitting == true` are not observable.
- React rendering mechanics are left out: hooks, effect scheduling, memoisation and the server-side `typeof window` guards. The auth effect of each dashboard is one method run with the context values of that render.
- The file input's DOM reset (`fileInputRef`) in the course form is not modelled.
- `console` logging is not modelled.
- An upload response is modelled with string values only. Non-string `url` or `error` values, and error bodies that are not objects, are not modelled.
- `CourseForm.CourseFormState.EditText` stands for the user typing into the react-hook-form inputs. Field-level form state beyond the submitted values is not modelled.
- The commented-out initialisation block at the end of the auth store has no effect and is not modelled.
- Nothing on the my-packages page lets the user confirm a delete, because its confirmation dialog is elided in the markup; `MyPackagesPage.Page.ConfirmDelete` models the handler as written.
- Dates (`createdAt`, `updatedAt`) are never read by the core and are not modelled.
- `MyPackagesPage` renders nothing under the heading for the location note (it is a comment in the markup), so no note is modelled there.
- The JSON serialisation of the "auth-storage" entry is abstracted: the entry holds the persisted values themselves, so a user record comes back exactly as saved.
