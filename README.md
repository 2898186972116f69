# Job explorer and profile editor, modelled in Dafny

This project models the two pieces of real logic in a student web app.

The **job explorer** (`backup/JobLocations.tsx`) keeps several pieces of state: a list of job postings, the filter fields (industry, job type, experience level, a salary interval and a favourites-only switch), and a favourites list that is mirrored into a local-storage slot. A filter effect turns this state into the filtered view. It narrows the list one criterion at a time: each categorical criterion is skipped when its value is `"all"`, the salary-overlap test always applies, and the favourites test applies only when its switch is on. `toggleFavorite` adds or removes a favourite mark. When the page imports postings from a job-search API, it classifies each record:
- employment codes map to display job types;
- required experience in months maps to an experience level;
- keywords in the title pick an industry, first match wins;
- a missing salary maximum gets a default;
- the search query is built from optional terms and a location.

The **profile editor** (`frontend/src/pages/Profile.tsx`) is a small state machine. Its state is the shown profile, a staged copy that edit mode changes, an `isEditing` flag and the text of a pending new interest. Its transitions are start, cancel, save (which succeeds or fails), field edits, adding a trimmed interest and removing an interest with `splice`. When a profile row is loaded, missing fields fall back to fixed defaults.

Files:
- `wrappers.dfy`: `Option`, which stands for a JavaScript field that may be `undefined` or `null`.
- `seqs.dfy`: `Keep`, which is `Array.prototype.filter`, and `SpliceOne`, which is `splice(index, 1)` with JavaScript's rules for the start index. It also has the facts the rest of the model uses about both.
- `text.dfy`: `trim` (with ECMAScript's whitespace set), `includes`, `toLowerCase` (ASCII letters only), `split`/`join` on one character, and `||` on optional strings.
- `jobs.dfy`: module `Jobs`. It holds the posting, favourite and filter datatypes, the filter predicates, the filtered view `Filtered` and the favourites toggle `Toggled` with their lemmas. Its class `JobExplorer` holds the page state and the effect and handler methods.
- `job_import.dfy`: module `JobImport`. It maps API records to postings and builds the search query.
- `profile.dfy`: module `Profile`. It holds the row and profile datatypes, the fallback rules, and the class `ProfilePage` with the editor transitions.

Two behaviours of the code are easy to misread:
- Only exactly 12, 24 or 36 months of experience map to mid-level. Any other value up to 36 months, such as 6 or 30, maps to entry-level (`JobImport.ExperienceLevelGap`).
- Toggling a job twice always restores the set of favourite ids. The list itself, and so the stored content, comes back only when the id was absent at first. A present id comes back as one new mark, with a new timestamp, at the end of the list (`Jobs.ToggleTwice`).

The page never changes its search parameters, so every fetch sends the query "jobs in India" (`JobImport.BuildQuery`).

## Model

| member | source | states |
|---|---|---|
| `Seqs.Keep` | backup/JobLocations.tsx:487-519 | `filter(p)` is never longer than its input and keeps only elements that satisfy `p` |
| `Seqs.KeepMembership` | backup/JobLocations.tsx:487-519 | an element is in `filter(p)` exactly when it is in the list and satisfies `p` |
| `Seqs.KeepCount` | backup/JobLocations.tsx:487-519 | `filter` keeps every passing element exactly as often as it occurs and drops every other one |
| `Seqs.KeepSubsequence` | backup/JobLocations.tsx:487-519 | `filter` only deletes: the result is a subsequence of its input |
| `Seqs.KeepFuse` | backup/JobLocations.tsx:487-519 | filtering by `p` and then by `q` equals filtering once by `p && q`, which is why the chain of filters is a conjunction |
| `Seqs.KeepAgree` | backup/JobLocations.tsx:513-516 | predicates that agree on the list's elements keep the same elements |
| `Seqs.KeepEverything` | backup/JobLocations.tsx:487-489 | a filter that every element passes returns the list unchanged |
| `Seqs.KeepAppend` | backup/JobLocations.tsx:560-566 | filtering distributes over concatenation |
| `Seqs.SpliceStart` | frontend/src/pages/Profile.tsx:235-237 | `splice`'s start index: an index inside the list is used as given, a negative one counts from the end, an index past the end gives the length and one before the start gives 0 |
| `Seqs.SpliceOne` | frontend/src/pages/Profile.tsx:235-237 | `splice(index, 1)` removes the element at the start index when there is one, shifts the later elements down one place and keeps the earlier ones |
| `Seqs.SpliceOneInRange` | frontend/src/pages/Profile.tsx:235-243 | for `0 <= i < length`, exactly element `i` is removed: the length drops by one, the others keep their relative order, and the removed element is the only multiset difference |
| `Text.OrElse` | backup/JobLocations.tsx:716-718 | `value || fallback` on an optional string: a present non-empty value wins, a missing or empty one gives the fallback |
| `Text.Contains` | backup/JobLocations.tsx:614-634 | `includes`: the empty string is included in every text, a longer one never, and a prefix or suffix always is |
| `Text.TrimStart` | frontend/src/pages/Profile.tsx:225 | the result is the suffix of the input after its leading whitespace, and it starts with a non-blank character |
| `Text.TrimEnd` | frontend/src/pages/Profile.tsx:225 | the result is the prefix of the input before its trailing whitespace, and it ends with a non-blank character |
| `Text.Trim` | frontend/src/pages/Profile.tsx:229 | `trim` is never longer than its input and introduces no character the input lacks |
| `Text.TrimEmptyIffBlank` | frontend/src/pages/Profile.tsx:225 | `trim()` is empty exactly when the text is whitespace only |
| `Text.TrimmedHasNoBlankEnds` | frontend/src/pages/Profile.tsx:229 | a non-empty trimmed interest begins and ends with a non-blank character |
| `Text.ToLower` | backup/JobLocations.tsx:613 | lower-casing keeps the length, turns each ASCII capital into its own lower-case letter and keeps every other character |
| `Text.Split` | backup/JobLocations.tsx:723 | `split(',')` yields at least one piece and no piece contains a comma |
| `Text.JoinSplit` | backup/JobLocations.tsx:723 | joining the pieces of `split` with the separator gives the original text back |
| `Jobs.IsFavorite` | backup/JobLocations.tsx:575-577 | `isFavorite`'s `some` test holds exactly when the id is among the favourites' ids |
| `Jobs.Toggled` | backup/JobLocations.tsx:556-566 | the toggled id's membership flips, and every mark with another id is kept |
| `Jobs.FavoriteIds` | backup/JobLocations.tsx:514 | the id list has one entry per favourite, in the same order |
| `Jobs.FavoriteIdsMembership` | backup/JobLocations.tsx:513-516 | the filter's `favoriteIds.includes(id)` test, the `isFavorite` test `some(job => job.id === id)` and membership in the set of favourite ids all agree |
| `Jobs.ToggleAbsentAppends` | backup/JobLocations.tsx:563-566 | toggling an absent id appends exactly one mark with that id at the end and leaves the earlier marks unchanged |
| `Jobs.ToggleRemovesAll` | backup/JobLocations.tsx:557-562 | toggling a present id removes every mark with that id, keeps every other mark with its multiplicity and keeps their order |
| `Jobs.ToggleFlipsMembership` | backup/JobLocations.tsx:556-577 | after a toggle, `isFavorite(id)` is the negation of what it was, and `isFavorite` of every other id is unchanged |
| `Jobs.ToggleTwice` | backup/JobLocations.tsx:556-572 | toggling the same id twice restores the set of favourite ids; starting from an absent id it restores the very list, and so the stored content |
| `Jobs.Filtered` | backup/JobLocations.tsx:487-519 | the view is never longer than the list, and a job is in it exactly when it is listed and satisfies every criterion |
| `Jobs.FilteredIsSubsequence` | backup/JobLocations.tsx:487-519 | the view keeps the list's order, never adds or changes a job, and keeps each shown job as often as it is listed |
| `Jobs.FilteredMembership` | backup/JobLocations.tsx:487-519 | a job is shown exactly when it is listed and passes each active criterion: equal industry, job type and experience level unless the filter is "all", a salary range that overlaps the filter interval, and favourite status when favourites-only is on |
| `Jobs.NoSalaryRangeNeverShown` | backup/JobLocations.tsx:506-510 | a job without a salary range is never shown, whatever the other filters say |
| `Jobs.FilteredIgnoresFavoritesWhenOff` | backup/JobLocations.tsx:513-516 | with favourites-only off, the view does not depend on the favourites list |
| `Jobs.JobExplorer.constructor` | backup/JobLocations.tsx:458-471 | once mounted, the state holds the seed jobs, an unfiltered view, all filters on "all" with salaries 0 to 5000000, and the favourites read from the storage slot |
| `Jobs.JobExplorer.RefreshFiltered` | backup/JobLocations.tsx:487-519 | the chain of filter reassignments stores exactly `Filtered(jobs, filters, favorites)` and changes nothing else |
| `Jobs.JobExplorer.SelectIndustry` | backup/JobLocations.tsx:522-524 | only the industry field of the filters changes |
| `Jobs.JobExplorer.SelectJobType` | backup/JobLocations.tsx:527-529 | only the job-type field of the filters changes |
| `Jobs.JobExplorer.SelectExperienceLevel` | backup/JobLocations.tsx:532-534 | only the experience-level field of the filters changes |
| `Jobs.JobExplorer.SetSalaryRange` | backup/JobLocations.tsx:537-539 | only the salary interval of the filters changes |
| `Jobs.JobExplorer.ToggleShowFavorites` | backup/JobLocations.tsx:580-582 | only the favourites-only switch changes, and it flips |
| `Jobs.JobExplorer.ToggleFavorite` | backup/JobLocations.tsx:556-572 | the favourites become `Toggled(old, id, now)`, the membership of `id` flips and no other id's changes, and the storage slot is overwritten with the new list |
| `Jobs.JobExplorer.ReceiveJobs` | backup/JobLocations.tsx:734-748 | after a fetch the job list is the page's fixed seed jobs followed by the given postings, or by the mock set when the API call failed, or is only the seed jobs after any other failure; `JobImport.ReceiveRecords` supplies the postings when the API answered |
| `JobImport.EmploymentType` | backup/JobLocations.tsx:679-685 | FULLTIME, PARTTIME, CONTRACT and INTERNSHIP map to Full-time, Part-time, Contract and Internship, each display value comes from exactly its code, and every other or missing code gives Full-time |
| `JobImport.ExperienceLevel` | backup/JobLocations.tsx:688-696 | mid-level exactly for 12, 24 or 36 months, senior-level exactly above 36, and entry-level otherwise, including a missing value or 0 |
| `JobImport.ExperienceLevelGap` | backup/JobLocations.tsx:688-696 | the buckets are not ranges: 24 months is mid-level while 6 and 30 are entry-level |
| `JobImport.FirstMatchRule` | backup/JobLocations.tsx:612-635 | the first-match search returns the industry of a rule with a keyword in the text and no keyword of any earlier rule, or the default when no rule matches |
| `JobImport.MatchIndustry` | backup/JobLocations.tsx:612-635 | the classifier always returns one of the nine industry ids, never "all" |
| `JobImport.MatchIndustryIsFirstMatch` | backup/JobLocations.tsx:612-635 | `matchIndustry`'s if-else chain equals the first-match search over the keyword table, with "technology" as the default |
| `JobImport.ClassifyLowered` | backup/JobLocations.tsx:614-634 | the keyword chain on a lower-cased title always picks one of the nine industry ids, never "all" |
| `JobImport.ClassifyIsFirstMatch` | backup/JobLocations.tsx:614-634 | the chain of keyword tests on the lower-cased title chooses the same industry as the first-match search |
| `JobImport.RuleTests` | backup/JobLocations.tsx:614-634 | each table rule's keyword test is the disjunction of `includes` tests that its branch writes out |
| `JobImport.SalaryRangeOf` | backup/JobLocations.tsx:699-709 | the minimum defaults to 0; a missing or zero maximum becomes minimum + 500000, and any other maximum is kept |
| `JobImport.DefaultMaxKeptByInitialFilter` | backup/JobLocations.tsx:727 | a posting with no maximum and a minimum within the initial salary filter is kept by that filter, and its range is non-empty |
| `JobImport.FirstChars` | backup/JobLocations.tsx:721 | `slice(0, 200)` is the prefix of exactly 200 characters, or the whole text when it is shorter |
| `JobImport.DescriptionAsWritten` | backup/JobLocations.tsx:721 | as written, a missing description gives "undefined..." and a present one its first at most 200 characters followed by "..." |
| `JobImport.DescriptionFallbackUnreachable` | backup/JobLocations.tsx:721 | as written, the description is never the fallback text, and a missing one shows "undefined..." |
| `JobImport.Description` | backup/JobLocations.tsx:721 | corrected: the fallback appears exactly when the description is missing or empty; otherwise the result is the first at most 200 characters followed by "..." |
| `JobImport.Skills` | backup/JobLocations.tsx:723 | a missing skills text gives no skills; otherwise skill `k` is comma-separated piece `k` with its surrounding whitespace trimmed, so none contains a comma or begins or ends with whitespace |
| `JobImport.ImportJob` | backup/JobLocations.tsx:714-729 | an imported posting carries the given id; the title, company, location (city, else country, else India) and salary text with their fallbacks; the corrected description; the trimmed skills; the industry `MatchIndustry` gives for the title; the job type and experience level from the code and the months; and always the defaulted salary range |
| `JobImport.Imported` | backup/JobLocations.tsx:677-730 | `map` over the API records: one posting per record, in order, each `ImportJob` of that record; every one has a salary range, an industry other than "all", a job type and an experience level |
| `JobImport.ReceiveRecords` | backup/JobLocations.tsx:674-741 | when the API answers, the job list becomes the seed jobs followed by the imported records, and every posting after the seed has a salary range and an industry other than "all" |
| `JobImport.BuildQuery` | backup/JobLocations.tsx:644-652 | the query is "jobs in <location>", with "India" when there is no location, and the search terms and a space go in front when there are terms; the page's own parameters give "jobs in India" |
| `Profile.DefaultProfile` | frontend/src/pages/Profile.tsx:15-20 | the profile before any read has the default bio and the three default interests; the name is the user's full name, or "Student" when there is none or it is empty; the e-mail is the user's, or empty when there is no user or no e-mail |
| `Profile.ProfileFromRow` | frontend/src/pages/Profile.tsx:109-114 | the name is the metadata name if present, else the row's name, else "Student"; the e-mail is the user's, else the row's, else empty; an empty bio falls back to the default bio; missing interests fall back to the defaults, but an empty list is kept |
| `Profile.NewRow` | frontend/src/pages/Profile.tsx:46-55 | the row created for a new user is keyed by the user id and holds the default bio and the three default interests |
| `Profile.UpsertPayload` | frontend/src/pages/Profile.tsx:174-182 | a save sends the staged bio and interests keyed by the user id, with the name and e-mail from the user rather than the staged ones |
| `Profile.CreatedRowLoadsAsDefault` | frontend/src/pages/Profile.tsx:46-95 | reading back the row created for a new user shows exactly the default profile that the page sets after creating it |
| `Profile.SavedRowLoadsBack` | frontend/src/pages/Profile.tsx:174-182 | reading back a saved row restores the staged interests and a non-empty staged bio; an empty bio comes back as the default, and an edited name is not kept |
| `Profile.ProfilePage.constructor` | frontend/src/pages/Profile.tsx:13-22 | the page starts in viewing mode, not loading, with no pending interest and with the shown and staged profiles both the default |
| `Profile.ProfilePage.LoadProfile` | frontend/src/pages/Profile.tsx:25-128 | without a user nothing happens; a found row sets both profiles by the fallback rules; a missing row asks for the default row to be created and shows the defaults only if creating it succeeded; a failed read changes nothing |
| `Profile.ProfilePage.StartEditing` | frontend/src/pages/Profile.tsx:136-139 | the staged profile becomes the shown profile and edit mode is on |
| `Profile.ProfilePage.CancelEditing` | frontend/src/pages/Profile.tsx:141-144 | edit mode is off, the pending interest is cleared, and the shown profile is unchanged |
| `Profile.ProfilePage.SaveChanges` | frontend/src/pages/Profile.tsx:146-215 | without a user nothing changes; only a successful upsert makes the shown profile equal the staged one, ends edit mode and clears the pending interest; a failed lookup, failed upsert or exception leaves the shown profile and edit mode as they were; loading always ends |
| `Profile.ProfilePage.HandleChange` | frontend/src/pages/Profile.tsx:217-222 | exactly the named field of the staged profile takes the new value; every other field is unchanged |
| `Profile.ProfilePage.TypeInterest` | frontend/src/pages/Profile.tsx:500 | the pending interest text becomes what was typed |
| `Profile.ProfilePage.HandleAddInterest` | frontend/src/pages/Profile.tsx:224-233 | whitespace-only text changes nothing; otherwise the trimmed, non-empty text is appended at the end, the list grows by one and the pending text is cleared |
| `Profile.ProfilePage.HandleRemoveInterest` | frontend/src/pages/Profile.tsx:235-243 | the staged interests become a spliced copy and nothing else changes; for an index inside the list exactly that element is removed and the rest keep their order |

## Findings

| source | as written | input that shows it | evidently intended | confidence | as-written member | corrected member |
|---|---|---|---|---|---|---|
| backup/JobLocations.tsx:721 | the "..." is appended before the fallback test, so the tested string is never empty and "No description available" is never chosen | a record with no `job_description`: the posting's description is "undefined..." | the fallback text when the description is missing or empty, and otherwise the first 200 characters followed by "..." | high (not executed) | `JobImport.DescriptionFallbackUnreachable` | `JobImport.Description` |

`JobImport.ImportJob` uses the corrected `Description`.

## Left out

- Map rendering, clustering, icons, popups and map centring: these are widget code with no logic of their own.
- Browser geolocation, the place search and the 3-second timeout: these are asynchronous, timer-driven collaborators.
- HTTP, the database reads and writes, and the API call: they appear only as their outcomes (`FetchOutcome`, `LoadOutcome`, `SaveOutcome`). An API record arrives already parsed, and its salaries are already numbers, so `parseInt` failures (NaN) are not modelled.
- Salary truncation: `parseInt` drops the fractional part of a salary such as "50000.75" (backup/JobLocations.tsx:703, 707). `ApiRecord.minSalary` and `maxSalary` are already integers, so that truncation is not modelled.
- localStorage and JSON: the storage slot is the field `persisted`, which holds the already-parsed favourites. A slot whose text does not parse behaves like an empty slot.
- Latitude and longitude, and the random fallback coordinates: these are floating point and random. `Job` has no coordinates.
- Generated posting ids (`Date.now` and `Math.random`): `ImportJob` takes the id as a parameter.
- Timestamps: a favourite's `dateAdded` is the `now` argument of the toggle, and the `created_at` and `updated_at` columns are not modelled.
- JobImport.ImportJob: uses the corrected `JobImport.Description`, so for a record with no description it gives "No description available" where backup/JobLocations.tsx:721 gives "undefined..."; `JobImport.DescriptionAsWritten` models the line as written.
- Text.ToLower: lower-cases only the ASCII letters A-Z, not the full Unicode mapping of `toLowerCase`.
- JobImport.FirstChars: counts Unicode scalar values, while `slice` counts UTF-16 code units, so text with characters outside the Basic Multilingual Plane can be cut at a different place.
- JobImport.ExperienceLevel: takes the months as an optional integer, so fractional or string values in the API record are not modelled.
- Interleaving of asynchronous handlers: `saveChanges` awaits two store calls and then commits the staged profile captured when Save was clicked (frontend/src/pages/Profile.tsx:179-180, 205). The bio stays editable while those calls run, and the load on mount (25-128) can overlap `startEditing`. The model runs each handler as one atomic step, so edits made during a save and a load that lands mid-edit are not modelled.
- React's rendering and effect scheduling: `RefreshFiltered` is the effect, and `JobExplorer.Consistent` says when the view is up to date. Handlers change fields without rerunning it.
- The `isLoading` flag of the job explorer, error messages, alerts, translation, styling, resize handling and sign-out.
- The seed and mock job arrays: they are data. The seed is the constant field `JobExplorer.seed`, set by the constructor, and the mock set is the `mock` argument of `ReceiveJobs`.
- `handleRemoveInterest` copies the array before calling `splice`, which keeps the shown profile's array from being changed through a shared reference. The model uses value semantics, so that aliasing cannot arise; the frame of `HandleRemoveInterest` keeps the shown profile unchanged.
