# hashresume core, modelled in Dafny

hashresume is a browser résumé builder. The user edits a structured
résumé in a form (`components/Editor.tsx`) and sees a live formatted
preview (`components/Preview.tsx`). A generative-text service drafts
content and extracts skills from a job description
(`services/geminiService.ts`). Downloading the PDF (a browser print) is
gated behind an InstaPay payment. The payment is confirmed by
registering a reference number with a web endpoint and then polling
that endpoint until it answers `paid` (`components/InstaPayModal.tsx`,
gated from `App.tsx`).

This project models those pieces:

- `text.dfy` (module `Text`): the ECMAScript string operations the code
  relies on. These are `trim`, `trimStart`/`trimLeft` (same whitespace
  set), `split` on one character and `join`. Their algebra is proved:
  - trimming keeps every visible character and is idempotent;
  - `Trim(w1 + t + w2) == t` when `w1` and `w2` are blank and `t` is
    non-empty and already trimmed;
  - a join undoes a split, and a split undoes a join of a non-empty list
    of comma-free pieces (the empty list joins to `""`, which splits to
    `[""]`);
  - keeping the trimmed non-blank items of a list keeps their order and
    distributes over concatenation.
- `types.dfy` (module `ResumeTypes`): the document (`types.ts`).
- `gemini.dfy` (module `GeminiService`): what the two service calls return
  for each possible reply. The reply is an oracle parameter: a failure, or
  an answer whose text may be absent.
- `editor.dfy` (module `Editor`): every document edit of the editor.
  - Adds, deletes (the `splice` is an in-place shift loop) and
    personal/summary edits are whole-document copies with one change.
  - The list-entry field edits are written the way the source writes them:
    `copy = [...list]; copy[index].field = value`. The entries are heap
    objects (classes) shared between the old and the new list.
- `skills.dfy` (module `Skills`):
  - the skills textarea (`join(', ')` / `split(',').map(trimLeft)`);
  - the "Suggest by Title" merge (`filter((v, i, a) => a.indexOf(v) === i)`);
  - `addSkill` with its quote stripping;
  - the job-description panel (a class), with its blank-text guard.
- `app.dfy` (module `App`): `initialData` and the application state (a
  class). Its invariant is the download gate: nothing is printed before
  the payment is verified.
- `payment.dfy` (module `InstaPay`): the payment modal as a class.
  - Pending network requests and live intervals are explicit state (maps
    keyed by request number / interval handle).
  - Each continuation after an `await` or a timer is a method the
    environment may call in any order.
  - `error` and `statusMessage` only ever hold the empty string or one of
    the messages the code writes. They are enumerations whose texts
    (`ErrorText`, `StatusText`) are the source's strings.
  - The invariant: at most one live poll interval, and the parent is told
    `onVerify` (or verification is recorded) only after a `paid` status
    was seen.
- `preview.dfy` (module `Preview`): the page the preview renders (header
  with placeholders, contact line, which sections appear and what they
  show).

Host effects become parameters or counters:

- network replies and the `fetch` outcome are method parameters;
- `window.print()` is a counter `printed`;
- `Date.now().toString()` ids are parameters.

### Behaviour of the code a reader might not expect (the model follows the code)

- Entry edits mutate in place. A reader might expect a new document per
  edit, but `[...data.experience]` is a shallow copy and
  `copy[index].title = v` writes to the entry object shared with the
  previous document. `Editor.PreviousDocumentSeesEdit` shows the previous
  document's list reading the new value.
- Opening the payment modal does not reset its transient fields. The code
  resets them only in `handleClose` (lines 27-34). The component stays
  mounted while closed (it only returns `null`), so its state persists
  between openings.
- A late registration response after close is not ignored. A registration
  that succeeds after the modal was closed still stores "Waiting for
  confirmation..." (nothing renders while the modal is closed) and starts a
  poll for the old reference. That poll keeps running until something
  clears the ref's interval: a later `handleClose` (line 28), a later
  successful registration (line 61), a `paid` answer (line 69) or unmount
  (line 23). `InstaPay.CloseDuringRegistration` builds that run.
- The skills textarea does not round-trip an empty list: `[]` shows as `""`
  and reads back as `[""]` (`Skills.EmptySkillsReadBackAsOneBlank`).
  Every non-empty list of comma-free skills without leading whitespace
  does round-trip (`Skills.SkillsRoundTrip`).
- A failed "Suggest by Title" call hands its apology text to the setter,
  which adds it to the skills as one more skill
  (`Skills.FailedSuggestionBecomesSkill`).

## Model

| member | source | states |
|---|---|---|
| Text.TrimStart | components/Editor.tsx:334 | `trimLeft` never lengthens its input and leaves no leading whitespace |
| Text.TrimStartDropsBlankPrefix | components/Editor.tsx:334 | `trimLeft` removes exactly a blank prefix: the result is a suffix of the input and what was cut is all whitespace |
| Text.TrimEnd | services/geminiService.ts:33 | the trailing half of `trim` never lengthens and leaves no trailing whitespace |
| Text.TrimEndDropsBlankSuffix | services/geminiService.ts:33 | the trailing half of `trim` removes exactly a blank suffix |
| Text.Trim | services/geminiService.ts:33 | `trim` yields a trimmed string, empty exactly when the input is all whitespace, never longer than the input |
| Text.TrimKeepsVisible | services/geminiService.ts:66 | trimming keeps every non-whitespace character, with its multiplicity |
| Text.BlankHasNoVisible | services/geminiService.ts:66 | a blank string holds no visible character |
| Text.TrimmedIsFixed | services/geminiService.ts:66 | a string without outer whitespace is unchanged by `trim` |
| Text.TrimIdempotent | services/geminiService.ts:62-66 | trimming the trimmed reply again changes nothing |
| Text.TrimStartSkipsBlank | components/Editor.tsx:334 | blank text in front of a string does not change its `trimLeft` |
| Text.TrimEndSkipsBlank | services/geminiService.ts:33 | blank text after a string does not change its trailing trim |
| Text.TrimOfPadded | components/InstaPayModal.tsx:68 | a trimmed non-empty string padded with whitespace on both sides trims back to itself |
| Text.TrimIsPadded | components/InstaPayModal.tsx:68 | every string is its trim padded by blank text on both sides |
| Text.Split | services/geminiService.ts:66 | `split(',')` yields at least one piece and no piece contains the separator |
| Text.SplitCount | components/Editor.tsx:334 | `split` yields one more piece than there are separators |
| Text.Join | components/Editor.tsx:333 | `join`: no pieces give `""`, one piece gives itself, and the text is never shorter than its first piece; the rest of its contract is `JoinEnds`, `JoinCount`, `JoinOfTrimmed`, `JoinSplit` and `SplitJoin` |
| Text.JoinSplit | components/Editor.tsx:333-334 | joining the pieces of a split with the separator gives back the original text |
| Text.SplitWithoutSeparator | components/Editor.tsx:340 | a text without the separator splits into itself alone |
| Text.SplitAfterPiece | components/Editor.tsx:334 | splitting `x + sep + rest` gives `x` followed by the pieces of `rest` |
| Text.SplitJoin | components/Editor.tsx:333-334 | splitting the join of a non-empty list of separator-free pieces gives back the pieces |
| Text.JoinEnds | components/Editor.tsx:333 | `join` starts with the first piece and ends with the last |
| Text.JoinCount | components/Editor.tsx:333 | with a separator holding one copy of a character no piece holds, the join holds one copy per gap between pieces |
| Text.JoinOfTrimmed | components/Editor.tsx:333 | joining non-empty trimmed pieces gives a non-blank trimmed text |
| Text.MapTrim | services/geminiService.ts:66 | `map(s => s.trim())` trims each piece in place, keeping the count |
| Text.MapTrimKeepsOut | components/Editor.tsx:340 | a visible character that no piece holds is in no trimmed piece |
| Text.DropEmpty | components/Preview.tsx:33-53 | dropping empty strings keeps exactly the non-empty members, and keeps them trimmed |
| Text.DropEmptySingle | components/Preview.tsx:33-53 | one string is kept exactly when it is non-empty |
| Text.DropEmptyAppend | components/Preview.tsx:33-53 | dropping empty strings distributes over concatenation, so the kept strings stay in their order |
| Text.TrimmedNonBlank | components/Preview.tsx:145-148 | the trimmed non-blank items: all non-empty and trimmed, none exactly when every item is blank |
| Text.TrimmedNonBlankKeepsItems | components/Preview.tsx:145-148 | every non-blank item shows up, trimmed |
| Text.TrimmedNonBlankSingle | components/Preview.tsx:145-148 | one item gives its trim when non-blank and nothing otherwise |
| Text.TrimmedNonBlankAppend | components/Preview.tsx:145-148 | keeping trimmed non-blank items distributes over concatenation, so the order is kept |
| Text.TrimmedNonBlankFromItems | components/Preview.tsx:145-148 | every kept item is the trim of some non-blank input item |
| Text.TrimmedNonBlankOfTrimmed | components/Preview.tsx:145-148 | a list of non-empty trimmed items is kept exactly as it is, in order |
| Text.DropEmptyOfTrimmed | services/geminiService.ts:66 | `map(trim).filter(non-empty)` equals keeping the trimmed non-blank items |
| GeminiService.ApologiesAreTrimmed | services/geminiService.ts:33-36 | both fallback texts are non-empty and have no outer whitespace |
| GeminiService.GenerateResumeContent | services/geminiService.ts:28-37 | the result is never empty and always trimmed: the trimmed answer, or "Could not generate suggestion." for an empty one, or the connection apology on failure |
| GeminiService.AnalyzeJobDescription | services/geminiService.ts:57-71 | every extracted skill is non-empty and trimmed; no skills on failure or blank answer; at most one more skill than commas |
| GeminiService.AnalysisIsTrimmedNonBlankPieces | services/geminiService.ts:62-66 | for a non-blank answer the result is the trimmed non-blank comma pieces of the trimmed answer |
| GeminiService.EveryPieceIsExtracted | services/geminiService.ts:66 | every non-blank comma piece of the answer is among the extracted skills, trimmed |
| GeminiService.AnalysisOfListedSkills | services/geminiService.ts:62-66 | an answer listing non-empty trimmed comma-free skills separated by commas yields exactly those skills, in order |
| Editor.RemoveAt | components/Editor.tsx:160-161 | `splice(index, 1)` removes one element at `index` and shifts the rest down, or does nothing out of range |
| Editor.SpliceOne | components/Editor.tsx:161 | the in-place shift loop computes exactly `RemoveAt` |
| Editor.DeletePosition | components/Editor.tsx:159-163 | one experience entry less, the others in order, nothing else changed |
| Editor.DeleteSchool | components/Editor.tsx:265-269 | one education entry less, the others in order, nothing else changed |
| Editor.DeleteProject | components/Editor.tsx:456-460 | one project less, the others in order, nothing else changed |
| Editor.DeleteSkill | components/Editor.tsx:420-424 | one skill less, the others in order, nothing else changed |
| Editor.AddPosition | components/Editor.tsx:145-148 | appends one empty experience entry with the given id; the rest of the document is unchanged |
| Editor.AddSchool | components/Editor.tsx:251-254 | appends one empty education entry with the given id; the rest is unchanged |
| Editor.AddProject | components/Editor.tsx:442-445 | appends one empty project with the given id, no link and no technologies; the rest is unchanged |
| Editor.SetPersonalField | components/Editor.tsx:55-105 | the chosen personal field takes the value, the other five keep theirs, the rest of the document is unchanged |
| Editor.SetSummary | components/Editor.tsx:120-131 | the summary takes the typed or suggested value and nothing else changes |
| Editor.SetExperienceField | components/Editor.tsx:173-227 | the edited entry gets the value in one field, keeps its id and other fields; other entries are untouched |
| Editor.SetEducationField | components/Editor.tsx:279-312 | as above for education; the id and the hidden description are kept |
| Editor.SetProjectField | components/Editor.tsx:470-494 | as above for projects; the id, link and technologies are kept |
| Editor.WithExperienceField | components/Editor.tsx:173-227 | the document passed to `onChange` differs from the old one only in its experience list, which is `SetExperienceField` of the old list |
| Editor.WithEducationField | components/Editor.tsx:279-312 | the document differs only in its education list, which is `SetEducationField` of the old list |
| Editor.WithProjectField | components/Editor.tsx:470-494 | the document differs only in its project list, which is `SetProjectField` of the old list |
| Editor.ExperienceEntry.constructor | types.ts:1-8 | a new entry object holds the given item |
| Editor.EducationEntry.constructor | types.ts:10-17 | a new entry object holds the given item |
| Editor.ProjectEntry.constructor | types.ts:19-25 | a new entry object holds the given item |
| Editor.ExperienceItems | components/Editor.tsx:156 | the list of entry objects reads as the items they hold, in order |
| Editor.EducationItems | components/Editor.tsx:262 | the list of entry objects reads as the items they hold, in order |
| Editor.ProjectItems | components/Editor.tsx:453 | the list of entry objects reads as the items they hold, in order |
| Editor.EditExperience | components/Editor.tsx:173-227 | the shallow copy is the same list of objects; the edited object (wherever it appears) changes one field; for distinct entries the new list equals `SetExperienceField` of the old one |
| Editor.EditEducation | components/Editor.tsx:279-312 | as above for education entries |
| Editor.EditProject | components/Editor.tsx:470-494 | as above for project entries |
| Editor.PreviousDocumentSeesEdit | components/Editor.tsx:174-176 | after an edit, the previous document's list reads the new value, which it did not before |
| Skills.JoinSkills | components/Editor.tsx:333 | `skills.join(', ')` (also the AI prompt context at line 341): no skills show as `""`, one skill as itself; the rest is `JoinSkillsListsSkills` and `SkillsRoundTrip` |
| Skills.JoinSkillsListsSkills | components/Editor.tsx:333 | the textarea text starts with the first skill and ends with the last; with comma-free skills it holds one comma per gap; `[]` shows as `""` |
| Skills.MapTrimStart | components/Editor.tsx:334 | `map(s => s.trimLeft())` applies `trimLeft` to each piece, keeping the count |
| Skills.ParseSkills | components/Editor.tsx:334 | one skill per comma plus one, none with leading whitespace, none containing a comma |
| Skills.WithSkillsText | components/Editor.tsx:334 | the document passed to `onChange` differs from the old one only in its skills, which are the parsed text |
| Skills.SplitAfterSpace | components/Editor.tsx:333-334 | a leading space ends up in the first comma piece |
| Skills.SplitAfterComma | components/Editor.tsx:333-334 | the pieces of `x + ", " + rest` are `x`, then the first piece of `rest` with a space in front, then the others |
| Skills.MapTrimStartAppend | components/Editor.tsx:334 | mapping `trimLeft` distributes over concatenation |
| Skills.MapTrimStartAfterSpace | components/Editor.tsx:334 | the space the join inserts is removed again by `trimLeft` |
| Skills.ParseSkillsAfterPiece | components/Editor.tsx:333-334 | reading `x + ", " + rest` gives `x` without leading whitespace, then the skills of `rest` |
| Skills.SkillsRoundTrip | components/Editor.tsx:333-334 | a non-empty list of comma-free skills without leading whitespace reads back unchanged from the textarea |
| Skills.EmptySkillsReadBackAsOneBlank | components/Editor.tsx:333-334 | the empty list reads back as a list holding one empty skill |
| Skills.IndexOf | components/Editor.tsx:340 | `indexOf` is -1 exactly when absent, otherwise the first position holding the value |
| Skills.FirstOccurrences | components/Editor.tsx:340 | the `indexOf` filter leaves no duplicates, keeps exactly the values of the prefix, and keeps first-occurrence order |
| Skills.FirstOccurrencesOfPrefix | components/Editor.tsx:340 | what follows a prefix does not affect the filter on the prefix |
| Skills.IndexOfPrefix | components/Editor.tsx:340 | the first position of a value in a prefix is unchanged by appending |
| Skills.FirstOccurrencesOfDistinct | components/Editor.tsx:340 | the filter keeps a duplicate-free list unchanged |
| Skills.FirstOccurrencesGrow | components/Editor.tsx:340 | filtering a longer prefix only appends to the filtered shorter one |
| Skills.SuggestedSkills | components/Editor.tsx:340 | the suggestion gives one piece more than it has commas, each trimmed and comma-free |
| Skills.MergeSuggestedSkills | components/Editor.tsx:340 | the merged list has no duplicates and holds exactly the old skills and the trimmed suggestions |
| Skills.WithSuggestedSkills | components/Editor.tsx:340 | the document passed to `onChange` differs from the old one only in its skills, which are the merge |
| Skills.MergeKeepsSkills | components/Editor.tsx:340 | a duplicate-free skill list is kept as the prefix of the merge, in order |
| Skills.FailedSuggestionBecomesSkill | components/Editor.tsx:338-340 | on a failed call the connection apology becomes a skill |
| Skills.ConnectionTroubleIsOnePiece | services/geminiService.ts:36 | the connection apology contains no comma |
| Skills.SuggestionWithoutComma | components/Editor.tsx:340 | a trimmed comma-free suggestion is one suggested skill |
| Skills.StripQuotes | components/Editor.tsx:37 | the skill is `p + r + q`: `p` is its leading quote when it starts with one and empty otherwise, `q` is the quote ending what follows `p` when there is one; the text is unchanged exactly when it neither starts nor ends with a quote |
| Skills.StripQuotesOfQuoted | components/Editor.tsx:37 | a quoted skill loses exactly its two quotes |
| Skills.AddSkill | components/Editor.tsx:36-41 | the cleaned skill is present afterwards; it is appended only if absent; no duplicates are introduced; the rest of the document is unchanged |
| Skills.AddSkillIdempotent | components/Editor.tsx:36-41 | adding the same skill twice is the same as adding it once |
| Skills.JobDescriptionPanel.constructor | components/Editor.tsx:16-18 | the panel starts with empty text, no skills and not analysing |
| Skills.JobDescriptionPanel.AnalyzeEnabled | components/Editor.tsx:374 | the button is enabled exactly when no analysis runs and the text has visible content |
| Skills.JobDescriptionPanel.EditText | components/Editor.tsx:369 | typing replaces the text only |
| Skills.JobDescriptionPanel.HandleAnalyzeJd | components/Editor.tsx:28-31 | a blank text changes nothing; otherwise analysis starts with a request for the text |
| Skills.JobDescriptionPanel.AnalysisSettled | components/Editor.tsx:31-33 | the shown skills become the extracted ones (non-empty, trimmed) and analysing stops |
| App.InitialData | App.tsx:9-23 | every text of the starting document is empty and every list is empty |
| App.AppState.constructor | App.tsx:26-30 | starts on the personal section with the initial document, modal closed, unverified, nothing printed |
| App.AppState.HandleDownload | App.tsx:35-42 | unverified: opens the modal and prints nothing; verified: prints once; nothing is printed before verification |
| App.AppState.HandleVerifyPayment | App.tsx:44-46 | verification is recorded and nothing else changes |
| App.AppState.CloseModal | App.tsx:115 | the modal flag drops; verification is kept |
| App.AppState.EditorChange | App.tsx:97 | the document is replaced by the editor's new one |
| App.AppState.SelectSection | App.tsx:52-54 | the sidebar selects the active section |
| InstaPay.IsPaid | components/InstaPayModal.tsx:68 | a poll answer counts as paid when its trim is exactly `paid` |
| InstaPay.IsPaidIffPaddedPaid | components/InstaPayModal.tsx:68 | an answer is paid exactly when it is `paid` padded with whitespace |
| InstaPay.ErrorTextsAreDistinct | components/InstaPayModal.tsx:143 | the error line is rendered exactly for a real error, and the two errors read differently |
| InstaPay.StatusTextsAreDistinct | components/InstaPayModal.tsx:44-70 | the status line is non-empty exactly for a real status, and the three statuses read differently |
| InstaPay.PaymentModal.AtMostOnePoll | components/InstaPayModal.tsx:61-63 | in every reachable state at most one poll interval is live |
| InstaPay.PaymentModal.constructor | components/InstaPayModal.tsx:15-19 | empty reference, not verifying, no messages, no timers and no requests |
| InstaPay.PaymentModal.VerifyEnabled | components/InstaPayModal.tsx:148 | the verify button is enabled exactly when not verifying and a reference was typed |
| InstaPay.PaymentModal.EditReference | components/InstaPayModal.tsx:138-140 | while the input is enabled, typing replaces the reference only |
| InstaPay.PaymentModal.HandleVerify | components/InstaPayModal.tsx:36-44 | a reference under six characters only sets the invalid-reference error; otherwise a registration request for it is issued and "Registering transaction..." is shown |
| InstaPay.PaymentModal.RegistrationSettled | components/InstaPayModal.tsx:46-85 | success shows the waiting message and replaces any poll by exactly one new interval for the registered reference; failure shows the connection error and stops verifying |
| InstaPay.PaymentModal.IntervalFires | components/InstaPayModal.tsx:63-65 | a live interval issues one status request for its reference |
| InstaPay.PaymentModal.PollSettled | components/InstaPayModal.tsx:65-78 | a `paid` answer clears the interval, shows "Payment Verified!" and schedules the confirmation; any other answer or a failure changes nothing but the request set |
| InstaPay.PaymentModal.HandleClose | components/InstaPayModal.tsx:27-34 | clears the interval and every field and closes the modal in the parent; the parent's verification, document, print count and section are kept, as are the pending requests |
| InstaPay.PaymentModal.ConfirmationFires | components/InstaPayModal.tsx:71-74 | `onVerify` then `handleClose`: the parent is verified and closed, the modal reset and its interval cleared; the parent's document, print count and section and the pending requests are kept |
| InstaPay.PaymentModal.Unmount | components/InstaPayModal.tsx:21-25 | unmounting clears the live interval and nothing else |
| InstaPay.CloseDuringRegistration | components/InstaPayModal.tsx:27-63 | closing while registering and then succeeding leaves a closed modal that stores the waiting status, with a live poll for the old reference |
| InstaPay.ClearInterval | components/InstaPayModal.tsx:28 | `clearInterval` removes that handle only; with only that handle live none is left |
| InstaPay.SubsetOfSingleton | components/InstaPayModal.tsx:61-63 | helper for `AtMostOnePoll` (which models these lines): a subset of a one-element set has at most one member |
| Preview.ExperienceCards | components/Preview.tsx:73-95 | one card per entry, in order, with title, dates, company and description |
| Preview.EducationCards | components/Preview.tsx:98-117 | one card per entry, in order, with school, dates and degree |
| Preview.ProjectCards | components/Preview.tsx:120-136 | one card per project, in order, with name and description |
| Preview.OrPlaceholder | components/Preview.tsx:27-30 | `x \|\| placeholder`: the text when non-empty, otherwise the placeholder |
| Preview.Contacts | components/Preview.tsx:33-53 | each of email, phone, location, LinkedIn is shown exactly when non-empty, and nothing else is |
| Preview.Chips | components/Preview.tsx:145-148 | the chips are non-empty and trimmed, every non-blank skill shows as its trim, and every chip is the trim of some non-blank skill |
| Preview.ChipsKeepOrder | components/Preview.tsx:145-148 | the chips of two lists are the chips of the first then those of the second; one skill gives its trim, or nothing when blank |
| Preview.Render | components/Preview.tsx:27-152 | name and job title or their placeholders; each section appears exactly when its source test holds and then shows its cards |
| Preview.SkillsShownIffChips | components/Preview.tsx:139-148 | the skills section appears exactly when there is at least one chip |
| Preview.InitialPageIsPlaceholders | components/Preview.tsx:27-30 | the starting document shows the two placeholders and nothing else |
| Preview.AddPositionShowsEmptyCard | components/Preview.tsx:73-95 | after "Add Position" the experience section is shown, ending with an empty card |
| Preview.SummarySuggestionIsShown | components/Preview.tsx:61-70 | any accepted AI summary (never empty) makes the profile section appear with it |
| Preview.AddedSkillIsShown | components/Preview.tsx:139-148 | a visible skill added from a chip is shown trimmed among the chips |

## Left out

- `components/Sidebar.tsx`, `components/LandingPage.tsx` and
  `components/Icons.tsx`: navigation, marketing and icon markup, with no
  state of their own beyond what `App.AppState` models.
- Layout, styling, the mobile edit/preview toggle and the `isMobile`
  scaling of the preview: presentation only.
- The prompt texts sent to the generative service and the service itself.
  Its reply is a parameter (`GeminiService.Reply`).
- The `loadingAI` spinner of `handleAI`: it only disables buttons. The
  suggestion is passed to the setters the model does cover (`SetSummary`,
  `EditExperience`/`EditProject` with the description field,
  `MergeSuggestedSkills`).
- Network requests, timers and their timing: each is a pending entry that
  the environment settles through a method, in any order. The one-second
  and five-second delays are not modelled. `no-cors` hides the POST
  response, so the registration outcome is a boolean parameter.
- Stale closures: the poll callback captures the `refNumber` of the render
  that started it. The model stores that reference with the interval.
- `window.print()`: a count of print requests.
- `Date.now().toString()` ids: a parameter. Two adds in the same
  millisecond may share an id; the model does not assume ids are distinct.
- Persistence to local storage and drag-and-drop reordering: this version
  of the code has neither. The `ATSAnalysis`, `JobMatchAnalysis` and
  `PaymentState` records of `types.ts` are declared but used by no code.
- Editor.EditExperience: its list-level ensures holds only for lists whose
  entry objects are distinct (`Text.NoDuplicates`). With one object appearing twice, every
  occurrence changes; the first ensures states that per entry.
- The chip's "already added" test (`components/Editor.tsx:395`) compares
  the raw skill with the stored skills and is display-only. The model
  covers the add itself (`Skills.AddSkill`).
- Lengths are counted in Unicode characters, while JavaScript's `length`
  counts UTF-16 code units. `InstaPay.PaymentModal.HandleVerify`'s
  six-character check therefore differs for text outside the Basic
  Multilingual Plane.
- Console logging of errors: no state.
