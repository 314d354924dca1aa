# WedLink front-end rules, modelled in Dafny

WedLink is a matrimony and wedding-agency web application. This project
models the rules in its React client's event handlers. It leaves out the
markup around them. The rules covered are:

- the agency listing's search, filters, city list and load classification;
- the three-step partner-preference wizard and its per-step validation;
- the payment-request, payment-proof upload and payment-verification modals;
- the agency chat window, with its send guard, socket announcements,
  message-log lifecycle, day separators and read ticks;
- the agency detail page's profile load and chat toggle;
- the user's profile page, with its visibility update, deletion and
  personal-information defaults;
- the visibility modal, the theme toggle, the payment card and the
  preference card.

Every network call is a parameter of the handler that makes it. A Redux
thunk or a socket emit becomes an outcome datatype (`Persisted | SendFailed`,
`Fetched(log) | FetchFailed`, ...). Each handler is one sequential step
taken after its calls have settled. Where the source keeps React state that
its handlers update step by step, the model is a `class` with those fields.
A handler is a method whose `ensures` gives the new state, usually as a pure
function of the old one, and lemmas prove what the source promises about
that function. Pure rules such as formatting, look-ups and predicates are
functions with lemmas.

JavaScript semantics the rules depend on are written out in `Text.dfy`:

- `undefined` and the empty string are both falsy (`Option<string>`,
  `Truthy`, `OrElse`);
- `toLowerCase`, `includes`, `startsWith` and `trim` on strings;
- `parseInt`: leading white space, a sign, then the longest run of digits,
  with NaN modelled as `None`;
- number-to-string conversion for whole numbers.

Modules, one per source file: `Text`, `AgenciesListing`, `MatchMakingForm`,
`PaymentModal`, `ProofModal`, `PaymentVerification`, `AgencyChat`,
`AgencyDetail`, `ProfilePageUser`, `VisibilityModal`, `ThemeToggle`,
`PaymentDetail`, `PreferenceCard`.

Points where the code, not a reading of its intent, decides the model:

- Step 1 of the wizard reports the order error only when both ages parse
  and `min >= max` (`MatchMakingForm.AgesOutOfOrder`). An age that
  `parseInt` cannot read compares as NaN, so the step passes. "Valid iff
  min < max" therefore holds only for ages typed as numbers
  (`MatchMakingForm.AgeStepForNumbers`).
- The listing's experience filter has a special case for `'5+'`, but the
  select only ever offers `'1'`, `'3'`, `'5'` and `'10'`. Both are modelled
  (`AgenciesListing.ExperienceOptionsThresholds`).
- A fulfilled agency load whose message is not a not-found message keeps
  whatever value the `error` state already had. Only the not-found branch and
  a 404 rejection clear it (`AgenciesListing.ClassifyLoad`). No markup of the
  listing page reads `error`, so the page never displays a load failure: a
  failed load looks like an empty list.
- `isOwnProfile` compares with `===`. When the user is missing, or lacks
  `id`, the left side is `undefined`, so the expression holds for a route
  without a user id (`ProfilePageUser.IsOwnProfile`). The page never gets
  that far in that case: the load effect only starts for a route user id,
  `loading` stays true from the start, and the page shows its spinner for
  good (`ProfilePageUser.ProfilePage.LoadData`).
- The chat's `message.senderId === user?.id` is the same comparison: with
  no user signed in, a message without a sender is drawn as one's own and
  gets ticks (`AgencyChat.NoTicksWithoutUser`).
- In the chat, `user.id` is read only after the input has been cleared. With
  no user signed in, a persisted send therefore clears the input, emits
  nothing and shows the failure toast (`AgencyChat.ChatWindow.FinishSend`).
- The visibility modal takes its selection from `currentVisibility` only
  when it is created (`useState`'s initial value). The page keeps the modal
  mounted and passes its own visibility on every render, so after a
  successful update the modal is shown the new value while its selection
  stays; the submit is then disabled until the other option is chosen
  (`ProfilePageUser.ProfilePage.SubmitFromModal`,
  `VisibilityModal.SubmittedSelectionStaysDisabled`).

## Model

| member | source | states |
|---|---|---|
| Text.ToLowerIdempotent | client/src/Pages/Phase_2/AgenciesListing.js:45-46 | lower-casing twice is lower-casing once, which is what makes the search case-insensitive |
| Text.ContainsIffOccurs | client/src/Pages/Phase_2/AgenciesListing.js:46 | `includes` holds exactly when the term occurs at some position of the string |
| Text.Trim | client/src/Components/Phase_2/paymentModal.jsx:19 | the trimmed string is a contiguous slice whose two ends are not white space, and everything cut off on either side is white space |
| Text.TrimEmptyIff | client/src/Components/Phase_2/paymentModal.jsx:19 | a string trims to empty exactly when every character is white space |
| Text.TrimIdempotent | client/src/Components/Phase_2/paymentVerificationModal.jsx:28 | trimming a trimmed string changes nothing |
| Text.DigitPrefix | client/src/Pages/Phase_2/MatchMakingForm.js:58 | the digits `parseInt` reads are the longest run of digits at the start |
| Text.ParseIntOfNatToString | client/src/Pages/Phase_2/MatchMakingForm.js:58 | `parseInt` reads back a whole number written in decimal, whatever non-digit text follows it |
| AgenciesListing.FilterAgencies | client/src/Pages/Phase_2/AgenciesListing.js:43-57 | the filtered list is an order-preserving subsequence that keeps every agency passing all four tests; each kept agency matches the lower-cased search on name or city, is verified when verified-only is on, meets the experience threshold when one is set, and has exactly the selected city |
| AgenciesListing.FilterKeepsEveryCopy | client/src/Pages/Phase_2/AgenciesListing.js:43-57 | like `filter`, every copy of a passing agency is kept: a record occurs in the result as often as in the loaded list if it passes all four tests, and not at all otherwise |
| AgenciesListing.FilterKeepsOnlyMatches | client/src/Pages/Phase_2/AgenciesListing.js:44-55 | every kept agency was loaded and passes the conjunction of the four tests |
| AgenciesListing.DefaultFiltersKeepAll | client/src/Pages/Phase_2/AgenciesListing.js:12 | an empty search with the default filters keeps every agency, in order |
| AgenciesListing.SearchIgnoresCase | client/src/Pages/Phase_2/AgenciesListing.js:45-46 | a search term and its lower-cased form select the same list |
| AgenciesListing.FilterDependsOnLowerTerm | client/src/Pages/Phase_2/AgenciesListing.js:45 | two terms with the same lower-case form select the same list |
| AgenciesListing.VerifiedOffIgnoresVerification | client/src/Pages/Phase_2/AgenciesListing.js:47 | with verified-only off, setting every agency's flag to either value changes nothing but those flags in the result |
| AgenciesListing.ExperienceOptionsThresholds | client/src/Pages/Phase_2/AgenciesListing.js:117-121 | each offered experience option is read as the number it shows, and '5+' as 5 |
| AgenciesListing.UnreadableExperienceKeepsNone | client/src/Pages/Phase_2/AgenciesListing.js:52 | an experience value `parseInt` cannot read (NaN) keeps no agency |
| AgenciesListing.ClearFilters | client/src/Pages/Phase_2/AgenciesListing.js:59-62 | after clearing, the filters are the defaults and every loaded list is shown whole |
| AgenciesListing.DefaultFiltersKeepEveryList | client/src/Pages/Phase_2/AgenciesListing.js:12 | for every list, the empty search with the default filters is the identity |
| AgenciesListing.Dedup | client/src/Pages/Phase_2/AgenciesListing.js:41 | `[...new Set(xs)]` has no duplicates, the same elements as `xs`, and keeps the order of first occurrence |
| AgenciesListing.Cities | client/src/Pages/Phase_2/AgenciesListing.js:41 | the city list has no duplicates and holds exactly the loaded agencies' cities, in first-occurrence order |
| AgenciesListing.CityOptionKeepsItsAgencies | client/src/Pages/Phase_2/AgenciesListing.js:41-53 | with an empty search and no other filter, choosing a city from the list keeps every loaded agency in that city |
| AgenciesListing.ClassifyLoad | client/src/Pages/Phase_2/AgenciesListing.js:18-35 | the load always ends loading; a not-found message empties the list and clears the `error` state; any other fulfilled result sets the list to its data (or nothing) and keeps the `error` state; a rejection empties the list and sets the `error` state to its message (default 'Failed to load agencies') unless it contains '404', in which case it clears it |
| AgenciesListing.LoadErrorIsGenuine | client/src/Pages/Phase_2/AgenciesListing.js:21-32 | a new value of the `error` state comes only from a rejection whose message has no '404', and the list is then empty |
| AgenciesListing.RejectionWithoutMessageSetsError | client/src/Pages/Phase_2/AgenciesListing.js:30-31 | a rejection with no message sets the `error` state to 'Failed to load agencies' |
| MatchMakingForm.Preferences.With | client/src/Pages/Phase_2/MatchMakingForm.js:37-40 | the named field takes the new value and every other field keeps its own |
| MatchMakingForm.StepErrors | client/src/Pages/Phase_2/MatchMakingForm.js:51-71 | the errors name only the step's own fields and never additional requirements; step 1 passes iff both ages are given and not out of order, step 2 iff education and profession are given, step 3 iff location is given; each field is flagged iff its own test fails, under its own key and with its own message (an empty minimum age, an empty maximum age, education, profession, location); out-of-order ages give exactly the max-age order error |
| MatchMakingForm.AgeStepForNumbers | client/src/Pages/Phase_2/MatchMakingForm.js:54-61 | for ages typed as whole numbers, step 1 passes iff min < max |
| MatchMakingForm.StepValidReadsOnlyItsFields | client/src/Pages/Phase_2/MatchMakingForm.js:51-74 | a step's errors depend only on the fields it validates |
| MatchMakingForm.PreferenceWizard.constructor | client/src/Pages/Phase_2/MatchMakingForm.js:24-33 | the wizard starts on step 1 with empty preferences, no errors and not loading |
| MatchMakingForm.PreferenceWizard.HandleChange | client/src/Pages/Phase_2/MatchMakingForm.js:35-49 | only the named field changes, and only that field's error is blanked, and only if it had one |
| MatchMakingForm.PreferenceWizard.ValidateStep | client/src/Pages/Phase_2/MatchMakingForm.js:51-74 | the errors map is replaced by the step's errors, and the result is true iff that map is empty |
| MatchMakingForm.PreferenceWizard.HandleNext | client/src/Pages/Phase_2/MatchMakingForm.js:76-80 | the step grows by exactly one iff the current step validates, and stays within 1..3 |
| MatchMakingForm.PreferenceWizard.HandlePrev | client/src/Pages/Phase_2/MatchMakingForm.js:82-84 | the step drops by exactly one and stays within 1..3, since Previous is disabled on step 1 |
| MatchMakingForm.PreferenceWizard.HandleSubmit | client/src/Pages/Phase_2/MatchMakingForm.js:86-100 | the preferences are dispatched, unchanged, iff the current step validates, and the form closes iff that save succeeded |
| PaymentModal.FormErrors | client/src/Components/Phase_2/paymentModal.jsx:12-25 | the amount error appears iff the amount is missing or not positive; the description error appears iff the description is all white space; so the form is valid iff the amount is positive and the description has a non-white-space character |
| PaymentModal.PresetsPassAmountCheck | client/src/Components/Phase_2/paymentModal.jsx:37 | every quick-select amount passes the amount check |
| PaymentModal.PresetWithDescriptionIsValid | client/src/Components/Phase_2/paymentModal.jsx:37 | a preset amount with a description that is not blank makes a valid form |
| PaymentModal.PaymentRequestModal.constructor | client/src/Components/Phase_2/paymentModal.jsx:8-10 | amount, description and errors start empty |
| PaymentModal.PaymentRequestModal.SetAmount | client/src/Components/Phase_2/paymentModal.jsx:110 | the amount input sets the amount |
| PaymentModal.PaymentRequestModal.SelectPreset | client/src/Components/Phase_2/paymentModal.jsx:132 | a preset click sets that preset's amount, which passes the amount check |
| PaymentModal.PaymentRequestModal.SetDescription | client/src/Components/Phase_2/paymentModal.jsx:149 | the description input sets the description |
| PaymentModal.PaymentRequestModal.ValidateForm | client/src/Components/Phase_2/paymentModal.jsx:12-25 | the errors map is replaced by the form's errors, and the result is true iff it is empty |
| PaymentModal.PaymentRequestModal.HandleSubmit | client/src/Components/Phase_2/paymentModal.jsx:27-35 | `onSubmit` gets the amount and the untrimmed description iff the form is valid, and the form is then reset; an invalid form keeps its fields and shows its errors |
| ProofModal.FileError | client/src/Components/Phase_2/proofModal.jsx:38-50 | a file is accepted iff its type is allowed and its size is at most 5 MiB; a wrong type reports the type error, and a file that is only too large reports the size error |
| ProofModal.SizeLimitIsInclusive | client/src/Components/Phase_2/proofModal.jsx:39-47 | exactly 5 MiB is accepted, and one byte more is rejected for its size |
| ProofModal.TypeCheckedBeforeSize | client/src/Components/Phase_2/proofModal.jsx:42-50 | an oversized file of the wrong type reports the type error |
| ProofModal.GetFileIcon | client/src/Components/Phase_2/proofModal.jsx:73-78 | the image icon is chosen iff the type starts with 'image/' |
| ProofModal.AcceptedFileIcons | client/src/Components/Phase_2/proofModal.jsx:40-78 | among accepted files, only the PDF gets the document icon |
| ProofModal.DragActiveAfter | client/src/Components/Phase_2/proofModal.jsx:10-18 | dragenter and dragover switch the highlight on, dragleave switches it off, and any other event leaves it |
| ProofModal.UploadProofModal.constructor | client/src/Components/Phase_2/proofModal.jsx:6-8 | nothing is selected, nothing is highlighted and there is no error |
| ProofModal.UploadProofModal.ValidateAndSetFile | client/src/Components/Phase_2/proofModal.jsx:38-54 | an accepted file replaces the selection and clears the error; a rejected file keeps the previous selection and shows its error; the selection always passes the check |
| ProofModal.UploadProofModal.HandleDrag | client/src/Components/Phase_2/proofModal.jsx:10-18 | the highlight follows the drag event's type |
| ProofModal.UploadProofModal.HandleDrop | client/src/Components/Phase_2/proofModal.jsx:20-29 | a drop ends the highlight and checks the first dropped file, if there is one |
| ProofModal.UploadProofModal.HandleFileSelect | client/src/Components/Phase_2/proofModal.jsx:31-36 | the first chosen file, if any, is checked |
| ProofModal.UploadProofModal.HandleSubmit | client/src/Components/Phase_2/proofModal.jsx:56-66 | with no file it sets 'Please select a file' and submits nothing; otherwise it submits the selected file |
| ProofModal.UploadProofModal.RemoveFile | client/src/Components/Phase_2/proofModal.jsx:68-71 | both the selection and the error are cleared |
| PaymentVerification.SelectedOptions | client/src/Components/Phase_2/paymentVerificationModal.jsx:33-61 | at most one option is drawn as selected, and one is exactly when the status is one of the option values |
| PaymentVerification.Submit | client/src/Components/Phase_2/paymentVerificationModal.jsx:17-31 | an empty status is refused; otherwise the verification carries the status, the trimmed notes and the payment id |
| PaymentVerification.ChosenOptionSubmits | client/src/Components/Phase_2/paymentVerificationModal.jsx:20-30 | choosing any option marks only that option and lets the form submit with its value |
| PaymentVerification.SubmittedNotesAreTrimmed | client/src/Components/Phase_2/paymentVerificationModal.jsx:28 | the notes sent have no white space left to trim |
| PaymentVerification.PaymentVerificationModal.constructor | client/src/Components/Phase_2/paymentVerificationModal.jsx:13-15 | the status and notes start empty, with no error |
| PaymentVerification.PaymentVerificationModal.Choose | client/src/Components/Phase_2/paymentVerificationModal.jsx:197 | choosing option i sets the status to its value, which selects only option i |
| PaymentVerification.PaymentVerificationModal.SetNotes | client/src/Components/Phase_2/paymentVerificationModal.jsx:241 | the text area sets the notes |
| PaymentVerification.PaymentVerificationModal.HandleSubmit | client/src/Components/Phase_2/paymentVerificationModal.jsx:17-31 | with no status it sets the status error and calls nothing; otherwise it clears the error and sends the verification |
| AgencyChat.FormatDate | client/src/Pages/Phase_2/AgencyChat.js:139-152 | 'Today' iff the day is today, 'Yesterday' iff it is the day before, otherwise the day's own date |
| AgencyChat.FormatDateInjective | client/src/Pages/Phase_2/AgencyChat.js:139-152 | two days get the same label iff they are the same day |
| AgencyChat.ShowDateIffDayChanges | client/src/Pages/Phase_2/AgencyChat.js:279-280 | a separator is drawn above the first message and exactly where the day differs from the previous message's |
| AgencyChat.SeparatorMarksFirstOfDay | client/src/Pages/Phase_2/AgencyChat.js:279-280 | in a log ordered by day, a separator is drawn exactly above the first message of each day |
| AgencyChat.ReadTicks | client/src/Pages/Phase_2/AgencyChat.js:311-319 | a tick is drawn iff the message is one's own, and it is doubled iff the message is also read |
| AgencyChat.NoTicksWithoutUser | client/src/Pages/Phase_2/AgencyChat.js:278 | with no user signed in, a message gets a tick iff it has no sender id, since `undefined === undefined` |
| AgencyChat.OwnMessagesCarryTheUsersId | client/src/Pages/Phase_2/AgencyChat.js:278 | for a user with an id, a message is one's own iff it carries that id, so only such messages get ticks |
| AgencyChat.AfterFetch | client/src/Pages/Phase_2/AgencyChat.js:58-72 | a fetched log replaces the log whole, and a failed fetch leaves it |
| AgencyChat.ChatWindow.constructor | client/src/Pages/Phase_2/AgencyChat.js:44-47 | the window starts with an empty log and input, no send in flight and nothing emitted |
| AgencyChat.ChatWindow.Open | client/src/Pages/Phase_2/AgencyChat.js:57-65 | for a candidate the log is cleared before the fetch and the room is joined; with no candidate nothing happens |
| AgencyChat.ChatWindow.OnNewMessage | client/src/Pages/Phase_2/AgencyChat.js:70-72 | a live message re-fetches the whole log and never appends or merges |
| AgencyChat.ChatWindow.SetNewMessage | client/src/Pages/Phase_2/AgencyChat.js:46 | typing sets the input |
| AgencyChat.ChatWindow.StartSend | client/src/Pages/Phase_2/AgencyChat.js:96-98 | a send starts iff the trimmed input is not empty and no send is in flight, and then the flag is up |
| AgencyChat.ChatWindow.FinishSend | client/src/Pages/Phase_2/AgencyChat.js:99-119 | the flag comes down whatever happened; a failed send keeps the input and emits nothing; a persisted send clears the input and emits 'send_message' with the candidate room, the sent text and the user's id |
| AgencyChat.ChatWindow.HandleSendMessage | client/src/Pages/Phase_2/AgencyChat.js:94-120 | the message is announced, once and with the text typed, iff the input was not blank, the send was persisted and a user is signed in; the input is cleared iff it was not blank and was persisted; the flag is down afterwards |
| AgencyDetail.UnreadFromSessions | client/src/Pages/Phase_2/AgencyDetail.js:42 | the unread count is the first session's count, or 0 when there are no sessions or the count is missing |
| AgencyDetail.LoadProfileEffect | client/src/Pages/Phase_2/AgencyDetail.js:25-52 | loading ends on every path; a thrown load sets its message or the default; a not-found response sets 'Agency profile not found' and no agency; a found agency is stored and, only when it has a user id, the sessions set the unread count or the 'Failed to fetch sessions' error |
| AgencyDetail.ViewOf | client/src/Pages/Phase_2/AgencyDetail.js:76-115 | the spinner shows iff loading; the error view iff not loading and there is an error; the profile iff neither and an agency is loaded |
| AgencyDetail.LoadNeverSpins | client/src/Pages/Phase_2/AgencyDetail.js:32-51 | after any load the spinner is gone |
| AgencyDetail.FirstLoadView | client/src/Pages/Phase_2/AgencyDetail.js:32-45 | on the first load a missing profile shows the not-found error, a failed sessions fetch shows its error, and otherwise the agency is shown |
| AgencyDetail.StaleErrorHidesLoadedProfile | client/src/Pages/Phase_2/AgencyDetail.js:27-37 | as written, a found agency loaded after a failed load stays behind the old error |
| AgencyDetail.LoadProfileResettingError | client/src/Pages/Phase_2/AgencyDetail.js:25-52 | with the error cleared when a load starts, the page shows an error iff this load failed |
| AgencyDetail.ResettingErrorShowsLoadedProfile | client/src/Pages/Phase_2/AgencyDetail.js:25-52 | with the reset, whether an error is shown depends only on this load's responses, and a found agency without a chat user is always shown |
| AgencyDetail.ChatToggled | client/src/Pages/Phase_2/AgencyDetail.js:57-60 | the chat panel flips; opening it clears a positive unread count, closing leaves the count; nothing else changes |
| AgencyDetail.ToggleChatTwice | client/src/Pages/Phase_2/AgencyDetail.js:57-60 | two toggles restore everything except that a positive unread count is now 0 |
| AgencyDetail.AgencyDetailPage.constructor | client/src/Pages/Phase_2/AgencyDetail.js:19-23 | no agency, loading, no error, chat closed, no unread messages |
| AgencyDetail.AgencyDetailPage.LoadProfile | client/src/Pages/Phase_2/AgencyDetail.js:25-52 | the page's new state is the as-written load effect on its old state |
| AgencyDetail.AgencyDetailPage.ToggleChat | client/src/Pages/Phase_2/AgencyDetail.js:57-60 | the page's new state is the toggle of its old state |
| ProfilePageUser.OwnProfileForNamedRoute | client/src/Pages/Phase_2/ProfilePageUser.js:148 | for a route naming a user, the profile is one's own iff a signed-in user carries that id as `id` or `userId` |
| ProfilePageUser.AgeText | client/src/Pages/Phase_2/ProfilePageUser.js:152 | a missing or zero age shows 'Not specified'; any other age shows as its decimal digits followed by ' years' |
| ProfilePageUser.AgeTextReadsBack | client/src/Pages/Phase_2/ProfilePageUser.js:152 | a shown age "<age> years" reads back as the profile's age |
| ProfilePageUser.PersonalInfo | client/src/Pages/Phase_2/ProfilePageUser.js:150-157 | six items in order: the name as given, the age text, and education, occupation, income and address each falling back to 'Not specified' |
| ProfilePageUser.PersonalInfoFallbacks | client/src/Pages/Phase_2/ProfilePageUser.js:153-156 | each of the last four items shows its field iff it is truthy, and 'Not specified' otherwise |
| ProfilePageUser.VisibilityActionFor | client/src/Pages/Phase_2/ProfilePageUser.js:104-108 | the public action is chosen iff the requested value is 'public' |
| ProfilePageUser.VisibilityAfterFetch | client/src/Pages/Phase_2/ProfilePageUser.js:48-57 | the visibility is replaced iff the fetch returned a truthy visibility |
| ProfilePageUser.ProfilePage.constructor | client/src/Pages/Phase_2/ProfilePageUser.js:43-46 | visibility starts as 'private', the page is loading, and no modal or update is open |
| ProfilePageUser.ProfilePage.FetchVisibility | client/src/Pages/Phase_2/ProfilePageUser.js:48-57 | the visibility becomes the fetched one only when that is truthy |
| ProfilePageUser.ProfilePage.LoadData | client/src/Pages/Phase_2/ProfilePageUser.js:59-88 | with a route user the load ends loading, stores the fetched profile, preferences and payment, and fetches the visibility only for one's own profile; a failed fetch keeps the data; with no route user nothing happens, so `loading` keeps its initial true and the spinner never goes away |
| ProfilePageUser.ProfilePage.StartVisibilityUpdate | client/src/Pages/Phase_2/ProfilePageUser.js:101-108 | the loading flag goes up and the action matches the requested value |
| ProfilePageUser.ProfilePage.FinishVisibilityUpdate | client/src/Pages/Phase_2/ProfilePageUser.js:109-116 | on success the requested value is shown and the modal closes; on failure both stay; the flag comes down either way |
| ProfilePageUser.ProfilePage.HandleVisibilityUpdate | client/src/Pages/Phase_2/ProfilePageUser.js:101-117 | the visibility and the modal change only on success, and the flag is down afterwards |
| ProfilePageUser.ProfilePage.SubmitFromModal | client/src/Pages/Phase_2/ProfilePageUser.js:406-412 | the modal's submit, guarded by the page's loading flag and visibility, starts an update only when none is in flight; a success changes the visibility to the selection, which differs from the old one, closes the modal and leaves its submit disabled; a failure changes neither |
| ProfilePageUser.ProfilePage.HandleDeleteProfile | client/src/Pages/Phase_2/ProfilePageUser.js:90-99 | the modal closes after either outcome, and the page moves to the profile form iff the delete succeeded |
| VisibilityModal.VisibilityOption.Id | client/src/Components/Phase_2/VisibilityModal.jsx:14-45 | every option's id is 'public' or 'private' |
| VisibilityModal.OptionIdsDistinct | client/src/Components/Phase_2/VisibilityModal.jsx:14-45 | two options have the same id iff they are the same option |
| VisibilityModal.InitialSelection | client/src/Components/Phase_2/VisibilityModal.jsx:12 | the selection starts as the current visibility when it is truthy, else 'private' |
| VisibilityModal.FreshModalSubmitDisabled | client/src/Components/Phase_2/VisibilityModal.jsx:233 | in a fresh modal submit is disabled iff loading or a current visibility is known |
| VisibilityModal.CurrentStatus | client/src/Components/Phase_2/VisibilityModal.jsx:196-210 | the panel says Public iff the current visibility is exactly 'public' |
| VisibilityModal.ChoosingOtherOptionEnablesSubmit | client/src/Components/Phase_2/VisibilityModal.jsx:196-233 | when not loading, submit is disabled iff the chosen option is the one the status panel shows |
| VisibilityModal.VisibilityModalState.constructor | client/src/Components/Phase_2/VisibilityModal.jsx:12 | the selection starts as the initial selection |
| VisibilityModal.VisibilityModalState.Choose | client/src/Components/Phase_2/VisibilityModal.jsx:129 | choosing an option sets the selection to its id |
| VisibilityModal.VisibilityModalState.ReceiveCurrentVisibility | client/src/Components/Phase_2/VisibilityModal.jsx:5-12 | a new `currentVisibility` prop is taken in, and the selection is not reset |
| VisibilityModal.VisibilityModalState.HandleSubmit | client/src/Components/Phase_2/VisibilityModal.jsx:47-50 | the submit button's guard at line 233 must allow it; the selection is forwarded unchanged, so the request is never the current visibility and never made while loading |
| VisibilityModal.SubmittedSelectionStaysDisabled | client/src/Components/Phase_2/VisibilityModal.jsx:233 | once the page shows the submitted value as current, submitting it is disabled, and choosing an option enables the submit (when not loading) iff that option is the other one |
| ThemeToggle.SavedThemeOverridesSystem | client/src/Components/Layout/ThemeToggle.jsx:11-14 | a saved theme decides alone: the page starts dark iff it is 'dark', and a saved 'light' beats a dark system preference |
| ThemeToggle.Mounted | client/src/Components/Layout/ThemeToggle.jsx:9-18 | the page starts dark iff the saved theme is 'dark', or nothing is saved and the system prefers dark; only then is the 'dark' class added |
| ThemeToggle.Toggled | client/src/Components/Layout/ThemeToggle.jsx:20-30 | the mode flips, the class and the saved theme then agree with it, and no other class changes |
| ThemeToggle.ToggleTwice | client/src/Components/Layout/ThemeToggle.jsx:20-30 | two toggles restore the mode and the classes, and the saved theme names the original mode even when nothing was saved |
| ThemeToggle.MountThenToggleInStep | client/src/Components/Layout/ThemeToggle.jsx:9-30 | after mounting, the class agrees with the mode, and the class and the saved theme stay in step through toggles |
| ThemeToggle.ThemeSwitch.constructor | client/src/Components/Layout/ThemeToggle.jsx:7 | the switch starts light over the page's classes and saved theme |
| ThemeToggle.ThemeSwitch.Mount | client/src/Components/Layout/ThemeToggle.jsx:9-18 | the new state is the mounted state of the old one |
| ThemeToggle.ThemeSwitch.ToggleDarkMode | client/src/Components/Layout/ThemeToggle.jsx:20-30 | the new state is the toggle of the old one |
| PaymentDetail.StatusConfigFor | client/src/Components/Phase_2/paymentDetail.jsx:22-46 | 'completed' gets the green config, 'failed' the red one, and every other or missing status the pending config |
| PaymentDetail.StatusIconIdentifiesStatus | client/src/Components/Phase_2/paymentDetail.jsx:22-46 | the look-up is total, and the icon alone tells completed, failed and everything else apart |
| PaymentDetail.RenderPaymentCard | client/src/Components/Phase_2/paymentDetail.jsx:6-141 | the empty state shows iff there is no payment; otherwise the card uses the status's config and shows the transaction id and the description iff they are truthy |
| PreferenceCard.PreferenceItems | client/src/Components/Phase_2/preferenceCard.jsx:6-31 | four items, Age Range, Education, Profession and Location in that order, each falling back to 'Not specified' |
| PreferenceCard.NoPreferencesShowNotSpecified | client/src/Components/Phase_2/preferenceCard.jsx:9-27 | with no preferences every item falls back and no additional-requirements block is drawn |
| PreferenceCard.FromForm | client/src/Components/Phase_2/preferenceCard.jsx:6-31 | the record the wizard saves carries every one of its six fields as entered |
| PreferenceCard.WizardPreferencesShowAsEntered | client/src/Components/Phase_2/preferenceCard.jsx:6-31 | preferences that pass all three wizard steps are listed as entered, with no fallback, and the extra block is drawn iff requirements were typed |
| PreferenceCard.FilledFormShowsAsEntered | client/src/Components/Phase_2/preferenceCard.jsx:6-31 | a saved form with every listed field filled shows the age range as '<min> - <max> years' and education, profession and location as typed, and draws the extra block iff requirements were typed |

## Left out

- Rendering: the JSX markup, animations, icons and class strings. Only the
  conditions that choose what is drawn are modelled.
- Network and persistence: every thunk and socket call is an outcome
  parameter. The Redux slices behind them are not part of this model, so the
  chat log after a fetch is taken to be the fetched log, or the old log
  after a failed fetch. The `localStorage` writes during navigation are left
  out.
- Concurrency: `Promise.all` in the profile page is one outcome, and effect
  clean-up order is left out. The async handlers of the chat and the
  visibility update are also split into a start step and a finish step, so
  the in-flight flag is visible. Interleavings of two sends are not
  modelled.
- client/src/socket.js: `getSocket` creates the connection on first use and
  always returns it. The `if (socket)` guards therefore always pass, and
  the socket is not modelled beyond the list of emitted events.
- Floating point: `formatFileSize`, the wizard's progress percentage and
  `parseFloat` of the payment amount. The amount is a whole number, or
  absent for an empty input.
- `formatTime` and the locale text of `formatDate`: days are integers
  relative to today, and each other day is taken to have its own label.
- Text.ToLower: lower-cases ASCII letters only; Unicode case mapping is left
  out.
- Text.ParseInt: the `0x` hexadecimal prefix of `parseInt` is not modelled,
  and the result is an exact integer, whereas JavaScript's is a double: digit
  strings above 2^53 are rounded there. For ages '9007199254740992' and
  '9007199254740993' the browser reports 'Maximum age must be greater than
  minimum age', while `MatchMakingForm.StepErrors` passes step 1.
- PreferenceCard.FromForm: the server is taken to return the saved record
  unchanged (`createPreferences` then `getPreferences`); the preference
  slices are not part of this model.
- ProfilePageUser.AgeText: the age is a whole number or absent; a negative
  or fractional age is not modelled.
- The agency listing's load error: the page sets its `error` state but no
  markup reads it, so there is no error view to model; `AgenciesListing.ClassifyLoad`
  states the state's value only.
- AgenciesListing.ExperienceThreshold: `parseInt` NaN is `None`, and a
  comparison with it keeps nothing; a fractional experience value is not
  modelled.
- PaymentDetail.StatusConfigFor: prototype keys of the config object (such
  as 'constructor') are not modelled.
- The card-and-modal wiring of the chat page (`handlePaymentRequest`, the
  modal-open flags and the call buttons) is left out.
- The conversation pairing between the agency page and the chat (the props
  passed under different names) is not modelled.
- Static pages and pure rendering (client/src/Pages/Home.js,
  client/src/Pages/Phase_2/Home.js, UserLayout.jsx, ConfirmationModal.jsx,
  AllowedProfilesCard.jsx, tailwind.config.js) are not part of this model.

## Findings

| source | as written | input that shows it | evidently intended | confidence | as-written member | corrected member |
|---|---|---|---|---|---|---|
| client/src/Pages/Phase_2/AgencyDetail.js:25-52 | `loadProfile` sets `error` on failure but never clears it when a new load starts; the page shows the error view whenever `error` is set | the same page instance loads an id whose response has no data (error 'Agency profile not found'), then the route changes to an id whose agency is found with no user id: the page still shows 'Agency profile not found' | a load that succeeds shows the agency; the error reflects only the current load | medium, not executed | AgencyDetail.StaleErrorHidesLoadedProfile | AgencyDetail.LoadProfileResettingError |
