# Storefront logic: registration, persistence adapter, cart, server actions, try-on, dashboard

A Dafny model of the parts of the fashion storefront that carry logic rather than layout:

- **EmailSyntax** (`email.dfy`) and **Strings** (`strings.dfy`): the registration form's e-mail pattern
  `^[a-zA-Z0-9._%+-]+@[a-zA-Z0-9.-]+\.[a-zA-Z]{2,}$`. `IsEmail` states it as the regular expression reads: some
  split of the string into local part, `@`, domain, `.` and top-level domain. `Matches` is a scanner that splits
  at the first `@` and the last `.`. The two are proved to agree on every string.
- **Registration** (`registration.dfy`): the registration modal as a class with the component's state
  (`formData`, `emailError`, `emailValid`, `isSubmitting`, `open`). It covers the e-mail field's live validation, the
  select handler, the submit gate and the reset after a successful submission. `submitRegistration` is an oracle
  parameter from the submitted record to its result.
- **Firebase** (`firebase.dfy`): the singleton caching of the app and Firestore handles, the stored document, and the
  error-code-to-message mapping. The SDK's app registry is a field, and the answer of the document write is a parameter.
- **Cart** (`cart.dfy`): the cart sheet's items, the subtotal fold and removal by id.
- **Actions** (`actions.dfy`): the three server actions. Each validates the form fields, calls its flow (an oracle
  that returns or throws) and returns `{ message, errors, data }`.
- **TryOn** (`tryon.dfy`): the try-on flow. The product image is inlined as a base64 `data:` URL (section 3 of
  RFC 2397) and the image model is asked with the user's image first. `fetch`, the base64 encoder and the model call
  are parameters.
- **Dashboard** (`dashboard.dfy`): the status badge variants and the page state. The state goes from "not loaded"
  (skeleton) to the data rebuilt on the client. Dates are whole days.

Two facts about the dashboard code that shape the model:
- Assignment statuses are stored next to their due dates, not derived from them. `Dashboard.Rebuild` proves that
  only the Overdue item lies before today.
- The dashboard data is built once, in the mount effect, not on every render.

## Model

| member | source | states |
|---|---|---|
| `EmailSyntax.MatchesIffIsEmail` | src/components/registration-modal.tsx:23 | the scanner that splits at the first `@` and the last `.` accepts a string exactly when some local/`@`/domain/`.`/TLD split of it fits the pattern (both directions) |
| `EmailSyntax.ExactlyOneAt` | src/components/registration-modal.tsx:23 | every accepted address contains exactly one `@` |
| `EmailSyntax.AcceptsUserAtExampleCom` | src/components/registration-modal.tsx:23 | `user@example.com` is accepted by the pattern and by the scanner |
| `EmailSyntax.RejectsSamples` | src/components/registration-modal.tsx:23 | `user@`, `user.com` and the empty string are rejected by the pattern and by the scanner |
| `Registration.FormData.With` | src/components/registration-modal.tsx:47 | setting a form key gives that key the new value and leaves every other key as it was |
| `Registration.EmailFieldState` | src/components/registration-modal.tsx:50-61 | after an e-mail edit: empty gives no error and not valid; a value failing the pattern gives the error text and not valid; a passing value gives no error and valid |
| `Registration.RecordOf` | src/components/registration-modal.tsx:94-104 | the submitted record carries the six form fields verbatim (its form projection is the form), plus the modal's course id and title and the submission time |
| `Registration.StoredDocumentCopiesForm` | src/lib/firebase.ts:80-92 | the document stored for a submitted form carries that form verbatim, the course, status pending, and the write time as `submittedAt` |
| `Registration.FailureDescription` | src/components/registration-modal.tsx:127-136 | the failure toast shows the error's message, or the fixed fallback when that message is empty; never an empty text |
| `Registration.AdapterFailuresShowTheirMessage` | src/components/registration-modal.tsx:127-134 | every failure returned by the persistence adapter is shown with the adapter's own message |
| `Registration.FormatPrice` | src/components/registration-modal.tsx:142-150 | a zero price reads `Program Inquiry`; any other price reads as the currency formatter's text |
| `Registration.RegistrationModal.constructor` | src/components/registration-modal.tsx:33-43 | the modal starts with an empty form, no e-mail error, not valid, not submitting |
| `Registration.RegistrationModal.SubmitEnabled` | src/components/registration-modal.tsx:272 | the submit button is enabled exactly when the stored e-mail passes the pattern (between handlers nothing is submitting) |
| `Registration.RegistrationModal.HandleInputChange` | src/components/registration-modal.tsx:45-62 | only the edited key of the form changes; an e-mail edit sets error and validity from the new value alone; other edits leave them unchanged; the invariant is kept |
| `Registration.RegistrationModal.HandleSelectChange` | src/components/registration-modal.tsx:64-66 | a select change sets only its key; e-mail error and validity are unchanged |
| `Registration.RegistrationModal.HandleSubmit` | src/components/registration-modal.tsx:68-140 | a failing e-mail sets the error and sends nothing; otherwise an empty delivery method or experience level sends nothing and changes nothing; otherwise the record of the form is sent; success resets every field, clears error and validity and closes the modal; failure keeps the form and reports the message; afterwards nothing is submitting |
| `Registration.SubmitWhenEnabled` | src/components/registration-modal.tsx:72-91 | a call of the submit handler with the button enabled never fails the e-mail gate and sends exactly when both selects are set |
| `Firebase.BuildDocument` | src/lib/firebase.ts:80-92 | the stored document reads back as the caller's record with `submittedAt` replaced by the write time; `createdAt` is the write time and the status is pending |
| `Firebase.BuildDocumentIgnoresCallerTime` | src/lib/firebase.ts:89 | the caller's `submittedAt` has no effect on the stored document |
| `Firebase.ErrorMessage` | src/lib/firebase.ts:108-118 | the message is never empty; a known code gives one of the three fixed texts; otherwise it is the error's message when that is non-empty, else the default |
| `Firebase.KnownCodesTakePrecedence` | src/lib/firebase.ts:110-115 | for `permission-denied`, `unavailable` and `not-found` the error's message is ignored, and each code has its own text |
| `Firebase.ResultOf` | src/lib/firebase.ts:100-123 | success exactly when the write returned, with its document id; every failure carries a non-empty error string from the code mapping |
| `Firebase.FirebaseRuntime.constructor` | src/lib/firebase.ts:24-25 | at module load neither the app nor the Firestore instance is cached |
| `Firebase.FirebaseRuntime.GetFirebaseApp` | src/lib/firebase.ts:28-41 | a cached app is returned unchanged with no initialization; otherwise the first registered app is adopted; otherwise exactly one new app is initialized; the result is cached |
| `Firebase.FirebaseRuntime.LookupApp` | src/lib/firebase.ts:28-41 | the app a lookup settles on (the cached one, else the first registered one, else a new one) is in the registry after the lookup |
| `Firebase.FirebaseRuntime.LookupApps` | src/lib/firebase.ts:33-40 | a lookup leaves the registry as it was unless nothing was cached or registered, in which case it holds exactly the one new app |
| `Firebase.FirebaseRuntime.GetFirestoreInstance` | src/lib/firebase.ts:44-53 | a cached instance is returned with nothing changed; otherwise the instance of the app the lookup settles on is cached and returned, that app is cached, and the registry grows only when nothing was cached or registered |
| `Firebase.FirebaseRuntime.SubmitRegistration` | src/lib/firebase.ts:69-125 | the singletons end as after one instance lookup (untouched when an instance was cached); the document built from the record at the write time is written into that instance, and the result is the write's outcome shaped by the code mapping |
| `Firebase.FirestoreInstanceIsStable` | src/lib/firebase.ts:44-53 | two successive lookups return the same instance, that of the app the first lookup settles on, and the registry ends as after one lookup |
| `Cart.Subtotal` | src/components/cart-sheet.tsx:16 | the fold is 0 for an empty cart and not negative when no price is negative |
| `Cart.SubtotalAppend` | src/components/cart-sheet.tsx:16 | the subtotal of two carts put together is the sum of their subtotals |
| `Cart.RemoveById` | src/components/cart-sheet.tsx:19 | an item remains exactly when it was in the cart and its id differs from the removed id; the cart does not grow |
| `Cart.RemoveAppend` | src/components/cart-sheet.tsx:19 | removal distributes over concatenation, so kept items stay in their original relative order |
| `Cart.RemoveAbsent` | src/components/cart-sheet.tsx:19 | removing an id that no item has leaves the cart unchanged |
| `Cart.RemoveIdempotent` | src/components/cart-sheet.tsx:19 | removing the same id twice is removing it once |
| `Cart.RemovePartition` | src/components/cart-sheet.tsx:16-19 | the kept and the dropped items together are the old cart (as a multiset), and their subtotals add up to the old subtotal |
| `Cart.CartSheet.constructor` | src/components/cart-sheet.tsx:15 | the cart starts with the first two catalog products |
| `Cart.CartSheet.CurrentSubtotal` | src/components/cart-sheet.tsx:16 | the shown subtotal is not negative when no price is negative |
| `Cart.CartSheet.HandleRemove` | src/components/cart-sheet.tsx:18-20 | the cart becomes the filtered cart; no item with the id remains; the subtotal drops by the prices of the removed items |
| `Cart.InitialCartContents` | src/components/cart-sheet.tsx:15 | the initial cart is `prod_1` (95000) and `prod_2` (280000), subtotal 375000 |
| `Actions.MinLengthIssues` | src/app/actions.ts:9-10 | a field has no issue exactly when it is a string of at least the minimum length; a missing field is a type issue; a short one gets the field's message |
| `Actions.UrlIssues` | src/app/actions.ts:66 | the product URL has no issue exactly when it is a string that passes the URL test |
| `Actions.FieldErrorsOf` | src/app/actions.ts:19-25 | the field errors hold exactly the failing fields, each with its own issues |
| `Actions.Respond` | src/app/actions.ts:28-33 | a returned flow gives `success`, empty errors and the flow's output; a throw gives the action's message, empty errors and no data |
| `Actions.StylingAction` | src/app/actions.ts:13-34 | either field shorter than 10 gives `Invalid input.`, no data, and errors under exactly the short fields; otherwise the flow's output with `success`, or the fixed error message on a throw |
| `Actions.LearningPathAction` | src/app/actions.ts:41-62 | the same shape with a minimum of 3 characters and the learning-path error message |
| `Actions.TryOnFailureMessage` | src/app/actions.ts:88-89 | the fixed prefix followed by the error's message, or by `An unknown error occurred.` for a thrown non-Error |
| `Actions.TryOnAction` | src/app/actions.ts:69-91 | a missing user image or a product URL that is not a URL gives `Invalid input for virtual try-on.` and no data; otherwise the flow's output, or the prefixed error message |
| `Actions.InvalidInputNeverCallsFlow` | src/app/actions.ts:19-84 | on invalid input each action returns the same result whatever its flow would do |
| `Actions.UnreachableProductImageIsReported` | src/app/actions.ts:83-90 | a valid try-on request whose product image answers with a non-OK status returns the action prefix, the fetch-failure text and the status text, with no data |
| `TryOn.ParseDataUri` | src/ai/flows/virtual-try-on.ts:47 | a URL it reads is rebuilt exactly from the media type and payload it returns, and the payload has no `,` |
| `TryOn.DataUriRoundTrip` | src/ai/flows/virtual-try-on.ts:47 | a payload without `,` (as every base64 text is) is read back from the assembled URL together with its media type |
| `TryOn.ContentTypeOf` | src/ai/flows/virtual-try-on.ts:45 | the media type is the Content-Type header when it is present and non-empty, else `image/jpeg` |
| `TryOn.ImageUrlToDataUri` | src/ai/flows/virtual-try-on.ts:39-48 | a rejected fetch rethrows; a non-OK response fails with `Failed to fetch image: ` and the status text; an OK response gives a URL that reads back as (media type, base64 of the body) |
| `TryOn.VirtualTryOnFlow` | src/ai/flows/virtual-try-on.ts:63-86 | a failed inlining is the flow's failure; otherwise the model gets the user image, then the inlined product image, then the instruction; a missing or empty media URL fails with the fixed text; success returns the media URL unchanged |
| `TryOn.FetchFailureSkipsGeneration` | src/ai/flows/virtual-try-on.ts:65 | when the product image cannot be inlined, the model's behaviour has no effect on the result |
| `TryOn.UnreachableImageFails` | src/ai/flows/virtual-try-on.ts:41-43 | a non-OK product image fails the flow with the status text rather than an empty result |
| `Dashboard.StatusBadge` | src/app/dashboard/page.tsx:110-117 | `Overdue` is destructive, `Due Soon` secondary and `Submitted` default, each exactly; any other value is outlined |
| `Dashboard.Rebuild` | src/app/dashboard/page.tsx:87-100 | the active courses are kept; classes fall on today+2, +5, +9; assignments are due today+3, +10, -2; only the overdue assignment lies before today |
| `Dashboard.RebuildReplacesSchedule` | src/app/dashboard/page.tsx:88-100 | the rebuild does not depend on the static classes or assignments |
| `Dashboard.RebuildOnLoadDayIsStatic` | src/lib/data.ts:254-271 | rebuilding on the day the catalog was loaded gives the catalog's dashboard data back |
| `Dashboard.RebuiltBadges` | src/app/dashboard/page.tsx:95-117 | in the rebuilt data the destructive badge marks exactly the past-due assignment, and no assignment is outlined |
| `Dashboard.DashboardPage.constructor` | src/app/dashboard/page.tsx:85 | the page starts with no data |
| `Dashboard.DashboardPage.Render` | src/app/dashboard/page.tsx:104-106 | the skeleton is shown exactly while there is no data; otherwise the page shows the data |
| `Dashboard.DashboardPage.MountEffect` | src/app/dashboard/page.tsx:87-102 | the effect sets the data to the rebuilt static data, after which the page renders it |

## Left out

- Rendering, styling, toast presentation and `console` logging. Toasts are returned as values; only the failure toast's description text is modelled.
- React's asynchronous state batching. Each handler is one sequential transition, so `isSubmitting` is true only inside `HandleSubmit`.
- The browser's own form validation, which runs before `handleSubmit` (registration-modal.tsx:163, no `noValidate`): the `required` full name, e-mail and phone fields (lines 172, 188, 219) and the `type="email"` syntax check (line 185). A submit the browser blocks never reaches the handler; `HandleSubmit` models the handler once it is invoked.
- Closing the dialog through its own overlay or close button (`onOpenChange`). `open` changes only through the successful submission.
- Registration.RegistrationModal.HandleSelectChange: requires the key to be one of the two selects. Those are its only callers, and a select writing `email` would bypass the e-mail validation.
- Registration.FormatPrice: the non-zero branch is the currency formatter's output (`Intl.NumberFormat`, en-NG, NGN, no fraction digits). It is a parameter and is not modelled.
- The Firebase SDK: `initializeApp` is a registry append, `getFirestore` returns a handle for its app, and `addDoc` is a parameter. Initialization failures are not modelled; every failure of the try block is a failed write.
- The two timestamps of the stored document come from consecutive clock reads. They are modelled as one instant, the write time.
- Zod's URL grammar is the parameter `isUrl`. Other differences from the schema library:
  - string length counts Unicode scalar values, not UTF-16 code units;
  - a form entry that is a file is not modelled;
  - the issue texts for a missing field and a bad URL are the library's defaults, written as constants.
- The styling and learning-path flows (prompt templates around a hosted model) are oracle parameters with an arbitrary output type.
- Genkit's own schema checks on the try-on flow's input and output are not modelled.
- `fetch`, `response.arrayBuffer()`, `Buffer...toString('base64')` and `ai.generate` are parameters. A rejection of `arrayBuffer()` is not modelled.
- Dates are whole days. The `date-fns` arithmetic and formatting and the clock are not modelled.
- Catalog data beyond what the cart and the dashboard use is not modelled. Products carry only id, name and price.
- The camera and canvas handling of the try-on page, the catalog and course pages, and the detail-page lookups are not modelled.
