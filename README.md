# Résumé builder and analyzer — a Dafny model

This project models the core of a résumé web application.

The builder side:

- the résumé document the editor edits;
- the six-step editing wizard;
- the skills input, with its trim and case-insensitive duplicate check;
- the list buttons that add or remove jobs, schools and projects;
- the three "enhance with AI" buttons;
- the builder page's session (save, create dialog, template and accent choice);
- the four résumé templates, and the switch that picks one of them for the live preview.

The analysis side:

- the analyzer page: upload filter, single-file list, Analyze button, report view;
- the pure decision rules of the backend's analysis and text-enhancement endpoints.

State the source updates in place is modelled with classes:

- `BuilderPage.Page` holds the builder page's React state and the form store.
- `ResumeForm.Form` holds the editor's own state and drives a page.
- `AnalyzerPage.Analyzer` holds the analyzer page's state.

Each class method states its whole new state through a `State()` record.

The templates are pure functions from the document to an abstract `View`. A view holds a header and titled sections. Dates in a view stay symbolic: `MonthYear(instant)` stands for dayjs's `'MMM YYYY'` text.

Experience and education are ordered by an insertion sort keyed by `ChronoSort.Key`. This is proved to match the source's comparators, and proved sorted, a permutation and stable. Array sorting in JavaScript is stable.

Python's `sorted(list(set(...)))` is modelled as `SortedSets.SortedUnique`. It is proved ascending, proved to hold exactly the input's elements, and proved independent of the input order.

The network, the clock and the language libraries are inputs:

- the server's reply to a save, an enhancement or an analysis is a parameter, and the request the code sends is a returned value;
- the current time `now` is a parameter of every render;
- entities, grammar-issue counts, the generated text and the two weighted scores come in as values (`LibraryOutputs`, `Generation`).

Behaviour of the code a reader might not expect, modelled as written:

- The modern template colours the entry subtitles with the accent colour, not the name.
- The minimal-image template always shows its CONTACT heading, even for an empty document.
- The classic template shows project descriptions as one paragraph. Only job descriptions are bulleted.
- The minimal template's experience comparator is an empty stub, so jobs keep the order they were entered in.
- The degree line `{degree}{field ? ' in ' + field : '' || 'Degree'}` appends the word "Degree" whenever the field of study is empty. `View.DegreeTitle` models it as written.
- The summary and project enhancement buttons send a fixed prompt that leaves out the text to rewrite (`ApiViews.EditorRequestsAsSent`).
- The skills line tests the separator by the index in the whole list, not among the named skills, so a blank last skill leaves a trailing " • " (`View.TrailingSeparatorAfterBlankLastSkill`).

## Model

| member | source | states |
|---|---|---|
| Strings.Lower | api/views.py:339 | lower-casing keeps the length and maps every character to its ASCII lower-case form |
| Strings.Upper | frontend/src/components/templates/TemplateC.js:93 | upper-casing keeps the length and maps every character to its ASCII upper-case form |
| Strings.Capitalize | api/views.py:297 | the first character is upper-cased and every other character lower-cased, so the length is kept |
| Strings.LowerIdempotent | api/views.py:348 | lower-casing lower-case text changes nothing |
| Strings.CapitalizeInjectiveOnLower | api/views.py:351-353 | two lower-case keywords with the same capitalised label are the same keyword |
| Strings.Trim | frontend/src/components/ResumeForm.js:310 | the result is one slice of the input with only whitespace before and after it; it is empty exactly when the input is all whitespace, and otherwise neither starts nor ends with whitespace; whitespace is JavaScript's for `trim` and Python's for `strip` |
| Strings.TrimStart | frontend/src/components/ResumeForm.js:310 | the result is a suffix of the input, everything dropped is whitespace, and the result does not start with whitespace |
| Strings.TrimEnd | frontend/src/components/ResumeForm.js:310 | the result is a prefix of the input, everything dropped is whitespace, and the result does not end with whitespace |
| Strings.TrimUnique | frontend/src/components/ResumeForm.js:310 | any slice framed by whitespace that neither starts nor ends with whitespace is the trimmed text, so trimming is determined by that description |
| Strings.BlankAcrossRuntimes | api/views.py:172 | text JavaScript's `trim` empties Python's `strip` empties too, and U+001F is a character only `strip` removes |
| Strings.TrimIdempotent | frontend/src/components/ResumeForm.js:314 | trimming an already trimmed skill changes nothing |
| Strings.ContainsAt | frontend/src/components/templates/TemplateA.js:39 | an occurrence at any position makes `includes` true |
| Strings.Split | api/views.py:170 | splitting gives at least one piece, and no piece holds the separator |
| Strings.JoinSplit | api/views.py:170 | joining the pieces with the separator gives the text back, so no text is lost |
| Strings.SplitJoin | api/views.py:170 | pieces without the separator, joined and split again, come back unchanged |
| Strings.NonEmptyLinesSpec | frontend/src/components/templates/TemplateA.js:112 | each bullet is a non-empty line without a line break, and the bullets read in order are the description minus its line breaks |
| Strings.RemoveAll | api/views.py:339 | deleting a substring never lengthens the text; the text is unchanged exactly when the substring is empty or absent, and otherwise it loses at least the substring's length |
| Strings.RemoveAllSpec | api/views.py:339 | the leftmost occurrence is deleted and the scan goes on after it, and the rest keeps only characters of the input |
| Strings.NatToString | api/views.py:325 | a number's decimal text is non-empty, all digits, has no leading zero and reads back as the number |
| Strings.WordCount | api/views.py:174 | `len(line.split())` is zero exactly when the line is all whitespace, and is never more than the line's length |
| Strings.WordCountOfWord | api/views.py:174 | a non-empty text without whitespace is one word |
| Strings.WordCountSplit | api/views.py:174 | a whitespace character splits the count: the words before it plus the words after it, so with `WordCountOfWord` the count is the number of whitespace-separated words |
| Strings.TwoWords | api/views.py:174 | `"a b"` has two words |
| Document.InitialData | frontend/src/pages/BuilderPage.js:24-40 | the blank document has every personal field, the summary and every list empty |
| Document.OrElse | frontend/src/components/templates/TemplateA.js:101-102 | `text \|\| fallback` is the text when set and the fallback otherwise, so it is never empty when the fallback is not |
| ChronoSort.ParseSortDate | frontend/src/components/templates/TemplateA.js:22-27 | an ongoing entry sorts at "now", a missing or unparseable date at instant 0, and any other date at its instant |
| ChronoSort.CompareExperience | frontend/src/components/templates/TemplateA.js:89-94 | the comparator is negative exactly when a's key is strictly later than b's, and zero exactly when they tie |
| ChronoSort.CompareEducation | frontend/src/components/templates/TemplateA.js:147 | the comparator is negative exactly when a's date is strictly later than b's, and zero exactly when they tie |
| ChronoSort.CompareExperienceIsKeyOrder | frontend/src/components/templates/TemplateA.js:89-94 | the experience comparator is negative exactly when a's key is strictly later, zero exactly when the keys tie, and antisymmetric |
| ChronoSort.CompareEducationIsKeyOrder | frontend/src/components/templates/TemplateA.js:147 | the education comparator is negative exactly when a's date is strictly later, and zero exactly when the dates tie |
| ChronoSort.SortSpec | frontend/src/components/templates/TemplateA.js:87-94 | the sorted copy is ordered latest-first by key and is a permutation of the input |
| ChronoSort.SortStable | frontend/src/components/templates/TemplateA.js:87-94 | entries with equal keys keep their input order |
| ChronoSort.SortOfSorted | frontend/src/components/templates/TemplateA.js:87-94 | sorting an already ordered list returns it unchanged |
| ChronoSort.SortIdempotent | frontend/src/components/templates/TemplateA.js:87-94 | sorting twice is sorting once |
| ChronoSort.SortedUnique | frontend/src/components/templates/TemplateA.js:87-94 | two ordered permutations of each other with distinct keys are the same list |
| ChronoSort.SortIgnoresInputOrder | frontend/src/components/templates/TemplateA.js:87-94 | permutations of a list with distinct keys sort to the same list |
| ChronoSort.SortExperienceSpec | frontend/src/components/templates/TemplateA.js:87-94 | jobs are shown latest effective end first, ties broken by latest start; the same jobs appear, and jobs that tie on both dates keep their entered order |
| ChronoSort.SortEducationSpec | frontend/src/components/templates/TemplateA.js:145-147 | schools are shown latest date first, the same schools appear, and schools with equal dates keep their entered order |
| ChronoSort.SortExperience | frontend/src/components/templates/TemplateA.js:87-94 | the sorted jobs are the entered jobs, each as often as entered |
| ChronoSort.SortEducation | frontend/src/components/templates/TemplateA.js:145-147 | the sorted schools are the entered schools, each as often as entered |
| ChronoSort.StubSortExperience | frontend/src/components/templates/TemplateD.js:79 | the empty comparator returns the jobs exactly as entered |
| ChronoSort.SortExperienceIdempotent | frontend/src/components/templates/TemplateA.js:87-94 | sorting sorted jobs changes nothing |
| ChronoSort.SortEducationIdempotent | frontend/src/components/templates/TemplateA.js:145-147 | sorting sorted schools changes nothing |
| ChronoSort.ExperienceOrderIgnoresInput | frontend/src/components/templates/TemplateA.js:87-94 | jobs with distinct dates are shown in the same order, whatever order they were entered in |
| ChronoSort.EducationOrderIgnoresInput | frontend/src/components/templates/TemplateA.js:145-147 | schools with distinct dates are shown in the same order, whatever order they were entered in |
| ChronoSort.StubSortKeepsOrder | frontend/src/components/templates/TemplateD.js:79 | the empty comparator leaves the jobs in the order entered |
| ChronoSort.OngoingFirst | frontend/src/components/templates/TemplateA.js:90-93 | when every finished job ended before now, no ongoing job is shown after a finished one |
| ChronoSort.ScenarioCurrentJobFirst | frontend/src/components/templates/TemplateA.js:90-93 | a job ended January 2022 and an ongoing job started January 2023 are shown ongoing first |
| View.DateFragment | frontend/src/components/templates/TemplateA.js:160 | a missing date shows as empty text and a parsed date as its month and year |
| View.ExperienceDate | frontend/src/components/templates/TemplateA.js:106 | the date column is the start date, " - ", then "Present" exactly for an ongoing job, otherwise the end date |
| View.DegreeTitle | frontend/src/components/templates/TemplateA.js:154 | the degree line starts with the degree; it ends with " in " and the field when a field is given, and with "Degree" otherwise |
| View.DescriptionBody | frontend/src/components/templates/TemplateA.js:111-113 | a bulleted description is one bullet per non-empty line; a paragraph is never empty and is the description whenever one is given |
| View.ExperienceEntry | frontend/src/components/templates/TemplateA.js:101-113 | a job entry shows the entered title and company, or "Job Title" and "Company Name" when blank, the given subtitle colour, the job's date column, no GPA, and the description as bullets or a paragraph with "Description..." as its placeholder |
| View.ProjectEntry | frontend/src/components/templates/TemplateA.js:122-134 | a project entry shows the entered name or "Project Name", its type coloured exactly when one is given, no date or GPA, and the description as bullets or a paragraph with "Project description..." as its placeholder |
| View.EducationEntry | frontend/src/components/templates/TemplateA.js:154-160 | a school entry shows the degree line, the institution or "Institution Name", the given subtitle colour, a GPA line exactly when a GPA is given, and the date |
| View.MapExperience | frontend/src/components/templates/TemplateA.js:95 | one entry per job, in list order |
| View.MapProjects | frontend/src/components/templates/TemplateA.js:122 | one entry per project, in list order |
| View.MapEducation | frontend/src/components/templates/TemplateA.js:148 | one entry per school, in list order |
| View.NamedSkills | frontend/src/components/templates/TemplateA.js:175 | a name is shown exactly when it is non-empty and some skill has it, and nothing is added |
| View.NamedSkillsAppend | frontend/src/components/templates/TemplateA.js:175 | filtering a joined list is joining the filtered parts, so the shown order is the entered order |
| View.SkillItemsSpec | frontend/src/components/templates/TemplateA.js:174-179 | the named skills are shown in order; with separators every item but the last has one, and the last has none when the final skill is named; without separators none has one |
| View.TrailingSeparatorAfterBlankLastSkill | frontend/src/components/templates/TemplateA.js:178 | whenever the skills after the last named one are all blank and there is at least one of them, the last shown skill keeps a trailing separator |
| View.BasicContacts | frontend/src/components/templates/TemplateA.js:57-60 | the contact line shows email, phone, location and LinkedIn, each exactly when set and with its own text, in that order, and never a website or GitHub item |
| View.Present | frontend/src/components/templates/TemplateA.js:57-60 | `field && <item>` keeps an item exactly when its text is set |
| View.WebsiteIconExclusive | frontend/src/components/templates/TemplateB.js:56-58 | a website is shown once: with the GitHub icon exactly when it is a GitHub address, with the globe otherwise |
| TemplateA.GithubUrl | frontend/src/components/templates/TemplateA.js:42-45 | `getGithubUrl` gives the website exactly when it is a GitHub address |
| TemplateA.Render | frontend/src/components/templates/TemplateA.js:50 | the classic template is single-column and sets the accent CSS variable |
| TemplateA.MissingIsEmpty | frontend/src/components/templates/TemplateA.js:30-37 | a missing document renders as the blank one |
| TemplateA.SectionsWhenNonEmpty | frontend/src/components/templates/TemplateA.js:75-184 | each section appears exactly when its part of the document is non-empty |
| TemplateA.GithubOnlyInSlot | frontend/src/components/templates/TemplateA.js:56-69 | a GitHub address appears only on the separate GitHub line, and any other website only on the contact line |
| TemplateA.AccentOnNameAndDivider | frontend/src/components/templates/TemplateA.js:54-70 | the accent colours the name and the divider, and the name falls back to "Your Name" |
| TemplateA.ExperienceLatestFirst | frontend/src/components/templates/TemplateA.js:84-115 | the experience section lists every job once, latest first, each with its description as bullets |
| TemplateA.EntryOrderIrrelevant | frontend/src/components/templates/TemplateA.js:84-166 | jobs and schools with distinct dates render the same page in any entered order |
| TemplateA.EmptyDocument | frontend/src/components/templates/TemplateA.js:50-70 | an empty document shows only the header, with "Your Name" and no contact items |
| TemplateA.SameOrderSameView | frontend/src/components/templates/TemplateA.js:84-166 | the page depends on jobs and schools only through their display order |
| TemplateB.Render | frontend/src/components/templates/TemplateB.js:45 | the modern template is single-column and sets the accent CSS variable |
| TemplateB.SectionsWhenNonEmpty | frontend/src/components/templates/TemplateB.js:65-161 | each section appears exactly when its part of the document is non-empty |
| TemplateB.GithubOrGlobe | frontend/src/components/templates/TemplateB.js:40-58 | the website is shown with the GitHub icon exactly for a GitHub address, with the globe otherwise, never both, and there is no separate GitHub line |
| TemplateB.AccentOnSubtitles | frontend/src/components/templates/TemplateB.js:89-138 | the accent colours every company, project type and institution subtitle, and neither the name nor a divider |
| TemplateB.ParagraphDescriptions | frontend/src/components/templates/TemplateB.js:99-119 | job and project descriptions are single paragraphs, with "Description..." or "Project description..." when empty |
| TemplateB.SkillTags | frontend/src/components/templates/TemplateB.js:156-158 | one tag per named skill, in entered order, without separators |
| TemplateB.SameOrderSameView | frontend/src/components/templates/TemplateB.js:72-139 | the page depends on jobs and schools only through their display order |
| TemplateC.ContactItems | frontend/src/components/templates/TemplateC.js:51-56 | the sidebar shows phone, email and location, each exactly when set and with its own text, in that order, and nothing else |
| TemplateC.AvatarOf | frontend/src/components/templates/TemplateC.js:41-45 | the avatar is the photo exactly when an image URL is set |
| TemplateC.SidebarEducationEntry | frontend/src/components/templates/TemplateC.js:67-70 | a sidebar school's title is the degree, followed by " - " and the field exactly when a field is given; it shows the raw institution uncoloured, the date, and no GPA |
| TemplateC.MapSidebarEducation | frontend/src/components/templates/TemplateC.js:66 | one sidebar entry per school, in list order |
| TemplateC.Render | frontend/src/components/templates/TemplateC.js:34 | the minimal-image template sets the accent CSS variable |
| TemplateC.SectionsPlacement | frontend/src/components/templates/TemplateC.js:49-152 | CONTACT is always in the sidebar; education and skills join it, and summary, experience and projects fill the main column, each exactly when non-empty |
| TemplateC.EmptyDocumentKeepsContact | frontend/src/components/templates/TemplateC.js:49-57 | an empty document still shows an empty CONTACT block and nothing in the main column |
| TemplateC.NoWebPresence | frontend/src/components/templates/TemplateC.js:54-56 | no LinkedIn, website or GitHub item appears |
| TemplateC.AvatarAndProfession | frontend/src/components/templates/TemplateC.js:41-93 | the avatar follows the image URL, and the profession shows upper-cased only when set |
| TemplateC.BulletedDescriptions | frontend/src/components/templates/TemplateC.js:105-152 | the rendered main column has EXPERIENCE and PROJECTS sections whose every job and project description is one bullet per non-empty line, losing no text |
| TemplateC.SameOrderSameView | frontend/src/components/templates/TemplateC.js:63-131 | the page depends on jobs and schools only through their display order |
| TemplateD.Render | frontend/src/components/templates/TemplateD.js:45 | the minimal template is single-column and sets the accent CSS variable |
| TemplateD.SectionsWhenNonEmpty | frontend/src/components/templates/TemplateD.js:66-158 | each section appears exactly when its part of the document is non-empty |
| TemplateD.UntitledSummary | frontend/src/components/templates/TemplateD.js:66-70 | a summary, when given, is the first section and has no heading |
| TemplateD.ExperienceInInsertionOrder | frontend/src/components/templates/TemplateD.js:77-94 | the i-th job shown is the i-th job entered |
| TemplateD.OrderEnteredMatters | frontend/src/components/templates/TemplateD.js:79 | swapping two jobs with different titles changes the page |
| TemplateD.GithubOrGlobe | frontend/src/components/templates/TemplateD.js:40-57 | the website is shown with the GitHub icon exactly for a GitHub address, with the globe otherwise, never both |
| TemplateD.SkillSeparators | frontend/src/components/templates/TemplateD.js:152-156 | named skills are shown in order, every one but the last followed by " • " |
| TemplateD.SameEducationOrderSameView | frontend/src/components/templates/TemplateD.js:125-135 | the page depends on the schools only through their display order |
| ResumePreview.Render | frontend/src/components/ResumePreview.js:13-27 | every template receives the accent colour unchanged, and the page has the layout the switch picks for the id |
| ResumePreview.LayoutOfId | frontend/src/components/ResumePreview.js:13-27 | each known id selects its own template, and any other id the classic one |
| ResumePreview.UnknownIdIsClassic | frontend/src/components/ResumePreview.js:25-26 | an unknown or absent id renders exactly as 'classic' |
| ResumePreview.SortedInputSameView | frontend/src/components/ResumePreview.js:13-27 | jobs and schools already in display order render the same page; for the minimal template this holds for the schools |
| BuilderPage.TemplateOptionsAreKnown | frontend/src/pages/BuilderPage.js:43-48 | the template popover offers exactly the ids the preview's switch names |
| BuilderPage.SaveRequestFor | frontend/src/pages/BuilderPage.js:76-90 | a save POSTs under the dialog's title when there is no id, and otherwise PUTs to the id under "<name>'s Resume", always with the form's values |
| BuilderPage.IdAfterSave | frontend/src/pages/BuilderPage.js:87-92 | an existing id is kept; without one, the id becomes the one a successful POST returns |
| BuilderPage.SecondSaveUpdates | frontend/src/pages/BuilderPage.js:74-97 | after a successful first save every later save PUTs to the returned id; after a failed one the next save POSTs again |
| BuilderPage.IdRecordedOnce | frontend/src/pages/BuilderPage.js:87-92 | once recorded, no series of saves replaces the id |
| BuilderPage.InitialState | frontend/src/pages/BuilderPage.js:57-69 | the page starts on step 0 with the classic template, the default accent, no id and a blank document |
| BuilderPage.Page.constructor | frontend/src/pages/BuilderPage.js:57-69 | a new page is in its initial state |
| BuilderPage.Page.Preview | frontend/src/pages/BuilderPage.js:224-228 | the preview carries the page's accent colour |
| BuilderPage.Page.SetFieldsValue | frontend/src/pages/BuilderPage.js:134 | setting the form's values changes only the form store |
| BuilderPage.Page.HandleFormChange | frontend/src/pages/BuilderPage.js:71 | the preview document becomes the form's values, and nothing else changes |
| BuilderPage.Page.HandleSave | frontend/src/pages/BuilderPage.js:74-98 | the request is `SaveRequestFor` of the current id, form and title; only the id changes, as `IdAfterSave` says |
| BuilderPage.Page.HandleSelectTemplate | frontend/src/pages/BuilderPage.js:103-106 | picking a template sets it and closes the template popover |
| BuilderPage.Page.SetTemplatePopoverVisible | frontend/src/pages/BuilderPage.js:181-182 | the template popover opens or closes, and nothing else changes |
| BuilderPage.Page.ResetColor | frontend/src/pages/BuilderPage.js:109 | the accent returns to the default and its popover closes |
| BuilderPage.Page.PickSwatch | frontend/src/pages/BuilderPage.js:118 | a swatch sets the accent and closes its popover |
| BuilderPage.Page.HandleAccentVisibleChange | frontend/src/pages/BuilderPage.js:111 | the accent popover opens or closes, and nothing else changes |
| BuilderPage.Page.ShowCreateModal | frontend/src/pages/BuilderPage.js:129 | the pending title resets to "My Resume" and the create dialog opens |
| BuilderPage.Page.SetNewResumeTitle | frontend/src/pages/BuilderPage.js:238 | typing sets the pending title only |
| BuilderPage.Page.HandleConfirmCreate | frontend/src/pages/BuilderPage.js:131-139 | confirming gives a blank document in form and preview, no id, step 0 and the editor shown, and the dialog closes |
| BuilderPage.Page.HandleCancelCreate | frontend/src/pages/BuilderPage.js:141 | cancelling only closes the dialog |
| BuilderPage.Page.BackToOptions | frontend/src/pages/BuilderPage.js:171 | going back only hides the editor |
| BuilderPage.CreateThenSave | frontend/src/pages/BuilderPage.js:74-139 | create-then-save POSTs the blank document under the typed title, and the page then holds the returned id |
| ResumeForm.NextStep | frontend/src/components/ResumeForm.js:32-36 | Next moves one step forward, except from the last step |
| ResumeForm.PrevStep | frontend/src/components/ResumeForm.js:38-42 | Previous moves one step back, except from the first step |
| ResumeForm.StepsStayInRange | frontend/src/components/ResumeForm.js:32-42 | neither button leaves the range of steps |
| ResumeForm.NextPrevInverse | frontend/src/components/ResumeForm.js:32-42 | Next then Previous returns to the step away from the last one, and Previous then Next away from the first |
| ResumeForm.NextPressesFromStart | frontend/src/components/ResumeForm.js:32-36 | k presses of Next advance k steps and stop at the last step |
| ResumeForm.StepHeading | frontend/src/components/ResumeForm.js:113-117 | the heading is the step's title, or "Loading..." past the end of the titles |
| ResumeForm.VisibleSections | frontend/src/components/ResumeForm.js:174-304 | an editor section is displayed exactly on its own step |
| ResumeForm.OneSectionPerStep | frontend/src/pages/BuilderPage.js:23 | on every step exactly one section shows, and its heading names it |
| ResumeForm.FindDuplicate | frontend/src/components/ResumeForm.js:312 | the scan reports a duplicate exactly when some existing name equals the input ignoring case |
| ResumeForm.AddSkillOutcome | frontend/src/components/ResumeForm.js:309-319 | Add does nothing exactly for blank input, and warns exactly when the trimmed input duplicates a skill ignoring case |
| ResumeForm.SkillsAfterAdd | frontend/src/components/ResumeForm.js:313-315 | an accepted skill is appended trimmed, and otherwise the list is unchanged |
| ResumeForm.InputAfterAdd | frontend/src/components/ResumeForm.js:313-316 | the input box is cleared when a skill is accepted and kept otherwise |
| ResumeForm.AddKeepsSkillsUnique | frontend/src/components/ResumeForm.js:309-320 | adding never creates two skills that differ only in case, and an added name is trimmed and not blank |
| ResumeForm.AddAgainRefused | frontend/src/components/ResumeForm.js:312-317 | the same skill typed again, in any case and with any spacing, is refused |
| ResumeForm.RemoveAt | frontend/src/components/ResumeForm.js:322-324 | removing drops the entry at the index and keeps the rest in order; an index past the end removes nothing |
| ResumeForm.RemoveAtTakesOne | frontend/src/components/ResumeForm.js:322-324 | removing takes away exactly that one entry |
| ResumeForm.RemoveKeepsSkillsUnique | frontend/src/components/ResumeForm.js:322-324 | removing a skill keeps the names distinct ignoring case |
| ResumeForm.AddFront | frontend/src/components/ResumeForm.js:236 | `add(entry, 0)` puts the new entry first and shifts the others back unchanged |
| ResumeForm.WithExperienceDescription | frontend/src/components/ResumeForm.js:56 | the rewritten text becomes that job's description |
| ResumeForm.WithProjectDescription | frontend/src/components/ResumeForm.js:102 | the rewritten text becomes that project's description |
| ResumeForm.EnhanceTouchesOnlyTarget | frontend/src/components/ResumeForm.js:56 | a job enhancement changes only the targeted description |
| ResumeForm.EnhanceProjectTouchesOnlyTarget | frontend/src/components/ResumeForm.js:102 | a project enhancement changes only the targeted description |
| ResumeForm.Form.constructor | frontend/src/components/ResumeForm.js:26-30 | a new form has an empty skill input and no loading indicators |
| ResumeForm.Form.OnNext | frontend/src/components/ResumeForm.js:32-36 | Next changes only the page's step, as `NextStep` says, and keeps a valid step valid |
| ResumeForm.Form.OnPrev | frontend/src/components/ResumeForm.js:38-42 | Previous changes only the page's step, as `PrevStep` says, and keeps a valid step valid |
| ResumeForm.Form.SetCurrentSkill | frontend/src/components/ResumeForm.js:334 | typing sets the skill input only |
| ResumeForm.Form.Commit | frontend/src/components/ResumeForm.js:56-57 | a list edit sets both the form store and the preview document to the new values |
| ResumeForm.Form.HandleAddSkill | frontend/src/components/ResumeForm.js:309-320 | the outcome is `AddSkillOutcome`; only an accepted skill changes the document, and the input follows `InputAfterAdd` |
| ResumeForm.Form.HandleRemoveSkill | frontend/src/components/ResumeForm.js:322-324 | the skill at the index is removed from the form and the preview |
| ResumeForm.Form.AddExperience | frontend/src/components/ResumeForm.js:236 | a blank job is inserted first |
| ResumeForm.Form.RemoveExperience | frontend/src/components/ResumeForm.js:212 | the job at the index is removed |
| ResumeForm.Form.AddEducation | frontend/src/components/ResumeForm.js:264 | a blank school is inserted first |
| ResumeForm.Form.RemoveEducation | frontend/src/components/ResumeForm.js:253 | the school at the index is removed |
| ResumeForm.Form.AddProject | frontend/src/components/ResumeForm.js:296 | a blank project is inserted first |
| ResumeForm.Form.RemoveProject | frontend/src/components/ResumeForm.js:282 | the project at the index is removed |
| ResumeForm.Form.EnhanceExperience | frontend/src/components/ResumeForm.js:44-64 | an empty or missing description sends nothing and changes nothing; otherwise the text is sent without a prompt, success replaces only that description, failure changes nothing, and the indicator ends cleared |
| ResumeForm.Form.EnhanceSummary | frontend/src/components/ResumeForm.js:66-87 | an empty summary sends nothing; otherwise it is sent with the summary prompt, success replaces the summary, and the indicator ends cleared |
| ResumeForm.Form.EnhanceProject | frontend/src/components/ResumeForm.js:89-110 | as for a job, with the project prompt, replacing only that project's description |
| SortedSets.BelowIrreflexive | api/views.py:297 | no string sorts before itself |
| SortedSets.BelowTransitive | api/views.py:297 | Python's string order is transitive |
| SortedSets.BelowTotal | api/views.py:297 | any two different strings are ordered one way, and never both ways |
| SortedSets.IncreasingDistinct | api/views.py:392-395 | an ascending list holds no duplicates |
| SortedSets.SortedUnique | api/views.py:297 | `sorted(list(set(xs)))` is strictly ascending and holds exactly the elements of xs |
| SortedSets.IncreasingUnique | api/views.py:392-395 | two ascending lists with the same elements are equal |
| SortedSets.SortedUniqueIgnoresOrder | api/views.py:392-395 | the report lists depend only on which labels occur, not on set iteration order or repetition |
| SortedSets.SortedUniqueOfIncreasing | api/views.py:392-395 | sorting an already sorted distinct list changes nothing |
| ApiViews.FirstNameLineSpec | api/views.py:170-180 | a name is found exactly when some stripped line qualifies, and it is the earliest such line |
| ApiViews.FirstNameLine | api/views.py:170-180 | any name found is a line that can be a name |
| ApiViews.ExtractName | api/views.py:170-180 | the loop returns the first stripped line that can be a name |
| ApiViews.CandidateSkills | api/views.py:289-296 | the candidates are the SKILL entities, or the short ORG/PRODUCT/LANGUAGE entities when there are none |
| ApiViews.CapitalizeAll | api/views.py:297 | each candidate is capitalised, in place |
| ApiViews.ResumeSkillsSpec | api/views.py:297 | the résumé skills are sorted, distinct, exactly the capitalised candidates, and independent of the candidates' order |
| ApiViews.ResumeSkillsElems | api/views.py:297 | the résumé skills are exactly the capitalised candidates |
| ApiViews.ResumeSkills | api/views.py:297 | the résumé skills are strictly ascending |
| ApiViews.CountWords | api/views.py:311-312 | the count is at most the number of section words, zero exactly when no section word is found, and all of them exactly when every one is |
| ApiViews.CountWordsIsCount | api/views.py:311-312 | for distinct section words the count is the number of section words found in the text |
| ApiViews.QualityPoints | api/views.py:313-326 | the quality score is never below 10 and never above the cap of 100 |
| ApiViews.QualityNotes | api/views.py:315-325 | at most two notes, and none exactly when email, phone and no grammar issue are all present |
| ApiViews.QualityBounds | api/views.py:309-326 | the quality score lies between 10 and 90, and reaches each bound for exactly one kind of résumé |
| ApiViews.QualityMonotone | api/views.py:311-326 | finding more sections never lowers the score, and more grammar issues never raise it |
| ApiViews.QualityScore | api/views.py:309-326 | the accumulated score is the formula's value, between 10 and 90, with the contact and grammar notes |
| ApiViews.SplitAny | api/views.py:337 | the reply is cut into one more piece than it has separators, no piece holds a separator, and weaving the separators back between the pieces gives the reply |
| ApiViews.CleanKeyword | api/views.py:339 | a cleaned item is never longer than the stripped item |
| ApiViews.FallbackFor | api/views.py:345 | every role has a non-empty fallback list |
| ApiViews.CollectKeywords | api/views.py:338-340 | the loop keeps exactly the cleaned items longer than one character |
| ApiViews.LowerEach | api/views.py:346 | the loop adds every fallback skill lower-cased, so a non-empty list gives keywords |
| ApiViews.RoleKeywords | api/views.py:329-346 | the role keywords are the generated ones, or the fallback when none survive, and are never empty |
| ApiViews.CleanKeywordIsLowerCase | api/views.py:339 | a cleaned keyword is lower case |
| ApiViews.GeneratedKeywordsLowerCase | api/views.py:337-340 | generated keywords are lower case and longer than one character |
| ApiViews.ReplyKeywordsLowerCase | api/views.py:331-341 | keywords from the model's reply are lower case and longer than one character |
| ApiViews.RoleKeywordsLowerCase | api/views.py:329-346 | every role keyword is lower case |
| ApiViews.LowerSetLowerCase | api/views.py:344-346 | lower-cased fallback skills are lower case |
| ApiViews.Partition | api/views.py:348-353 | each keyword goes, capitalised, to the matching list exactly when it matches a résumé skill, otherwise to the missing list |
| ApiViews.PartitionSplitsKeywords | api/views.py:348-353 | together the lists hold every lower-case keyword, and none is in both |
| ApiViews.JdKeywords | api/views.py:360-363 | the JD keywords are the lower-cased SKILL, ORG, PRODUCT and LANGUAGE entities |
| ApiViews.ClampJd | api/views.py:378 | the JD score is kept within 0 to 100, unchanged when already inside |
| ApiViews.SummaryMentionsJd | api/views.py:381-382 | a JD score of 0 is left out of the message like a missing one, and any other score ends it |
| ApiViews.ValidateAnalysis | api/views.py:133-156 | 503 exactly when the models are not loaded; 400 exactly for a missing file or role, a name other than .pdf/.docx, or unreadable or blank text; otherwise the non-blank text |
| ApiViews.ExtensionIgnoresCase | api/views.py:147-151 | the file type test ignores the case of the name |
| ApiViews.PromptFor | api/views.py:117 | a non-empty override is sent as the prompt; otherwise the prompt contains the text |
| ApiViews.Enhance | api/views.py:107-121 | 400 exactly for an empty text, 500 without a key, else the model's text, or its error as a 500 |
| ApiViews.EditorRequestsAsSent | api/views.py:110-118 | the editor's requests are never refused with 400; a job's prompt holds the text, and the summary and project prompts are the fixed ones |
| ApiViews.MatchReport | api/views.py:348-395 | the matching and missing lists are sorted, distinct, disjoint, and together hold every capitalised keyword |
| ApiViews.RoleMatch | api/views.py:329-356 | the role lists partition the role keywords as `Partition` says, and are not both empty |
| ApiViews.JdMatch | api/views.py:359-378 | JD lists and score exist exactly for a non-blank job description; the score is clamped and the lists partition the JD keywords |
| ApiViews.ExtractSkills | api/views.py:286-298 | the résumé skills are sorted, distinct and exactly the capitalised candidates |
| ApiViews.BuildReport | api/views.py:158-402 | the report of an accepted request: the first name line, the library's email, phone and role score, the capitalised candidate skills sorted, role and JD lists partitioning their keywords, the JD score only for a non-blank description, and the summary and notes as the rules say |
| ApiViews.AnalyzeResume | api/views.py:133-409 | a rejected request gets its status and error; an accepted one gets a report with the first name line, exactly the capitalised candidate skills sorted, role and JD lists partitioning their keywords, the JD score only for a non-blank description, and the summary and notes as the rules say |
| AnalyzerPage.BeforeUploadSpec | frontend/src/pages/AnalyzerPage.js:77-83 | a file is kept exactly when it is a PDF or DOCX of fewer than 5,242,880 bytes |
| AnalyzerPage.LastOnly | frontend/src/pages/AnalyzerPage.js:72 | only the newest file is kept, and none when none was picked |
| AnalyzerPage.SentDescription | frontend/src/pages/AnalyzerPage.js:44-46 | the job description is sent exactly when it is not blank |
| AnalyzerPage.ReportAfter | frontend/src/pages/AnalyzerPage.js:55-65 | a report is shown exactly after a successful analysis |
| AnalyzerPage.ShownNotes | frontend/src/pages/AnalyzerPage.js:140 | the notes shown are the first feedback notes, at most three, and all of them when there are at most three |
| AnalyzerPage.ShownMissing | frontend/src/pages/AnalyzerPage.js:180 | the missing items shown are the first ones, at most ten, and all of them when there are at most ten |
| AnalyzerPage.Analyzer.constructor | frontend/src/pages/AnalyzerPage.js:23-25 | the page starts with no file, no report and not loading |
| AnalyzerPage.Analyzer.HandleFileChange | frontend/src/pages/AnalyzerPage.js:71-75 | only the newest file stays listed, and any report is cleared |
| AnalyzerPage.Analyzer.HandleAnalyze | frontend/src/pages/AnalyzerPage.js:28-69 | without a file or a role nothing is sent or changed; otherwise the file, role and non-blank description are sent, and loading ends with the reply's report or none; the one listed file is the one sent, and at most one file stays listed |
| AnalyzerPage.FirstItems | frontend/src/pages/AnalyzerPage.js:140 | `slice(0, n)` gives at most n items, a prefix, all of them when there are few |
| AnalyzerPage.ColorOf | frontend/src/pages/AnalyzerPage.js:132 | a score is green exactly above 70 |
| AnalyzerPage.JdBlockIffDescription | frontend/src/pages/AnalyzerPage.js:147 | the JD block shows exactly when the typed job description has text that Python's `strip` keeps; the page's `trim` test never withholds such a description |
| AnalyzerPage.ZeroJdShownNotMentioned | frontend/src/pages/AnalyzerPage.js:147-149 | a JD score of 0 is shown in red while the summary message omits it |
| AnalyzerPage.SentButUnscored | frontend/src/pages/AnalyzerPage.js:44-46 | a description of one U+001F character passes the page's `trim` test and is sent, yet the report has no JD block |

## Left out

- Network calls (axios, fetch) are not modelled. Each server reply is a parameter, and each request is a returned value.
- Asynchrony is not modelled: each handler runs to completion with its reply, so overlapping requests and late replies are out of scope.
- dayjs parsing and `'MMM YYYY'` formatting are left out. A date is absent, unparseable, or an instant; the shown text is kept symbolic.
- The real clock is a parameter `now`. The source calls `dayjs()` once per comparison, so "now" may drift during one sort; the model uses one instant.
- The language libraries are inputs, not models: spaCy entities, SentenceTransformer similarity, LanguageTool issue counts, Gemini output, and the PyPDF2 and python-docx text.
- The float-weighted role and JD scores (lines 355-356 and 371-377 of api/views.py) are not modelled. `roleScore` stands for `round(quality_score * 0.3 + role_match_pct * 0.7)` and `jdRawScore` for `round(semantic * 0.5 + jd_match_pct * 0.3 + quality_score * 0.2)`, both taken as inputs; `ApiViews.BuildReport` computes the quality score only for its notes. Only the clamp and the message are modelled.
- The email and phone regular expressions (api/views.py:184-276) are not modelled. Their results come in as optional values.
- The grammar text cleaning and the rule filter (api/views.py:321-323) are not modelled; only the count of real issues is used.
- Text handling is ASCII only: Unicode case mapping, whitespace beyond ASCII and `\b` on non-ASCII letters are not modelled. Whitespace is modelled per runtime: JavaScript's `trim` removes space, tab, line feed, carriage return, vertical tab and form feed, and Python's `strip` and `split` also remove U+001C to U+001F.
- The split pattern `[,\n\r•*-]+` becomes a split at every separator character. The extra empty pieces are dropped by the length test, so the keyword set is the same.
- A Django `File` is taken as truthy whenever present.
- The file-read error path (500, api/views.py:155-156), the database save of the analysis, toasts, console logging and form validation messages are left out.
- The colour picker `handleColorChange`/SketchPicker is commented out in the source and is not modelled.
- Image upload (`beforeUpload` for images, object URLs) is not modelled; `imageUrl` is kept as a string.
- The outer `handleAddSkill` (ResumeForm.js:145-156) is not modelled. The editor wires the inner `handleAddSkillLocal`, which is identical.
- antd's form store is modelled as one document that list edits replace wholesale. Field-by-field typing through `onValuesChange` is not modelled.
- AnalyzerPage.BeforeUpload: uses exact real division, where JavaScript uses floating point. For integer byte counts, floating point gives the same answer at the 5 MiB boundary.
- Authentication, routing, the home and login pages, the ORM models and the serializers are outside this model.
- The `stepTitles &&` null guard in onNext is not modelled: the builder page always passes its constant list of six titles.
