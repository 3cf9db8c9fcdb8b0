# Mood path: a verified model of the wellness tracker's core

Mood path is a browser app for daily wellness check-ins. On the daily check page a
student rates mood, energy, sleep quality and stress on sliders from 1 to 10 and says
whether they exercised. The app saves one entry per calendar date and answers with a
diagnosis: a comment per metric, an overall assessment, and up to four recommendations.
The dashboard charts the entries of the last thirty days and shows their averages and
the number of exercise days. The resources page lists a fixed table of self-help
resources and filters it by category. The resource data module also offers a selection
of resources by mood band.

The model covers the following:

- `wellness.dfy` holds the entry and resource records and the five resource categories.
  `wrappers.dfy` holds `Option`.
- `storage.dfy` (module `Storage`) models the entry store. `EntryStore` is a class whose
  one field is the browser storage slot: absent, or the list last written.
  - `SaveEntry` does what the source does: it reads the list, finds the first entry with
    the same date, then replaces it or appends, and writes the list back.
  - `Clear` is the clear-data action, which removes the slot.
  - The list logic is written as functions on sequences: first-match search, upsert,
    the cutoff filter, and a stable sort by date.
  - It is proved against these properties: reading back a saved date gives the saved
    entry; a save changes no other date; at most one entry per date is kept; the window
    is date-ordered and holds exactly the entries on or after the cutoff.
- `daily_check.dfy` (module `DailyCheck`) models three parts of the daily check page.
  - The mood icon banding.
  - `GenerateDiagnosis`, the diagnosis method. It keeps the source's pushes and its
    floating-point average, and it is proved equal to the rule table `Diagnose`.
    Lemmas about `Diagnose` give the recommendation count and the prefix cap of four,
    the shape of `overall`, and the integer score thresholds.
  - `HandleSubmit`, which saves the entry built on submit.
- `dashboard.dfy` (module `Dashboard`) models the chart points, the per-metric averages
  and the exercise count. The averages are exact fractions. Lemmas prove that the
  averages do not depend on the order of the entries and that they stay within the
  slider range.
- `resource_data.dfy` (module `ResourceData`) holds the resource table and the selection
  of resources by mood band.
- `resources_page.dfy` (module `ResourcesPage`) models the category filter and the
  distinct category buttons, which keep the order of first appearance.

Dates and entry ids are day numbers, and "thirty days ago" is passed in as `cutoff`.
The fixed Spanish sentences of the diagnosis are enumeration constructors
(`Level`, `Advice`, `Remark`). A category selection is `Option<Category>`.

## Model

| member | source | states |
|---|---|---|
| Storage.FindIndex | src/utils/storage.ts:7 | the result is -1 exactly when no entry has the date; otherwise it is a position holding that date, and no earlier position holds it |
| Storage.Find | src/utils/storage.ts:23-26 | the result is absent exactly when no entry has the date; otherwise it is an entry with that date, taken from the first position that has it |
| Storage.Upsert | src/utils/storage.ts:7-13 | the saved entry is in the new list; the length is kept when the date was stored and grows by one otherwise (read-back, other dates and uniqueness in the three lemmas below) |
| Storage.UpsertThenFind | src/utils/storage.ts:5-16 | after a save, looking up the saved date returns exactly the saved entry |
| Storage.UpsertKeepsOtherDates | src/utils/storage.ts:5-16 | a save leaves the lookup of every other date unchanged |
| Storage.UpsertShape | src/utils/storage.ts:9-13 | a known date keeps the length and every other position; a new date appends the entry at the end |
| Storage.UpsertKeepsDatesUnique | src/utils/storage.ts:5-16 | if no two stored entries share a date, that stays true after a save |
| Storage.Since | src/utils/storage.ts:34 | the filter keeps each entry dated on or after the cutoff as often as it occurs, and drops all others |
| Storage.InsertByDate | src/utils/storage.ts:35 | an insertion step of the sort adds exactly the inserted entry |
| Storage.InsertByDateSorted | src/utils/storage.ts:35 | inserting into a date-ordered list keeps it date-ordered |
| Storage.SortByDate | src/utils/storage.ts:35 | the sort is a permutation of its input, ordered by date |
| Storage.Window | src/utils/storage.ts:28-35 | the window is date-ordered and holds exactly the entries dated on or after the cutoff, with their multiplicities |
| Storage.WindowStrictlyAscending | src/utils/storage.ts:28-35 | with one entry per date, the window's dates strictly increase |
| Storage.EntryStore.constructor | src/utils/storage.ts:18-21 | the store starts from the slot as it was saved earlier |
| Storage.EntryStore.GetEntries | src/utils/storage.ts:18-21 | an absent slot reads as no entries, a present one as the list last written; its readers `GetEntryByDate` and `GetEntriesLast30Days` and the writers `SaveEntry` and `Clear` state what it returns |
| Storage.EntryStore.GetEntryByDate | src/utils/storage.ts:23-26 | the lookup is absent exactly when no stored entry has the date; otherwise it is the stored entry at the first position with that date |
| Storage.EntryStore.GetEntriesLast30Days | src/utils/storage.ts:28-36 | the result is date-ordered and holds exactly the stored entries dated on or after the cutoff |
| Storage.EntryStore.SaveEntry | src/utils/storage.ts:5-16 | the slot now holds the upserted list; the saved date reads back as the entry; other dates read as before; one entry per date is preserved |
| Storage.EntryStore.Clear | src/components/ClearDataButton.tsx:8 | the slot is removed, so the store reads as no entries |
| DailyCheck.MoodIcon | src/pages/DailyCheck.tsx:48-52 | the face frowns exactly up to 3 and smiles exactly from 7, neutral between (monotonicity in `MoodIconMonotone`) |
| DailyCheck.MoodIconMonotone | src/pages/DailyCheck.tsx:48-52 | a higher slider value never shows a sadder face |
| DailyCheck.AnalyzeMood | src/pages/DailyCheck.tsx:59-69 | the mood band is good from 7, fair from 5, otherwise poor, and exactly that band's advice is pushed |
| DailyCheck.AnalyzeEnergy | src/pages/DailyCheck.tsx:72-82 | the energy band follows the same thresholds, and exactly that band's advice is pushed |
| DailyCheck.AnalyzeSleep | src/pages/DailyCheck.tsx:85-95 | the sleep band follows the same thresholds, and exactly that band's advice is pushed |
| DailyCheck.AnalyzeStress | src/pages/DailyCheck.tsx:98-108 | the stress band is inverted (good up to 3, fair up to 6), and exactly that band's advice is pushed |
| DailyCheck.AverageScore | src/pages/DailyCheck.tsx:118 | the floating-point average reaches 7 or 5 exactly when the integer score reaches 28 or 20 |
| DailyCheck.Take | src/pages/DailyCheck.tsx:133 | the slice is the first min(n, length) elements of the list |
| DailyCheck.GenerateDiagnosis | src/pages/DailyCheck.tsx:54-135 | the step-by-step diagnosis equals the rule table `Diagnose` for every input |
| DailyCheck.RecommendationCount | src/pages/DailyCheck.tsx:54-135 | each metric adds 0, 1 or 2 recommendations by band, a day without exercise adds one, and min(4, total) are shown |
| DailyCheck.RecommendationsArePrefix | src/pages/DailyCheck.tsx:133 | the shown recommendations are a prefix of at most four of those generated, in push order |
| DailyCheck.OverallShape | src/pages/DailyCheck.tsx:111-125 | `overall` opens with the exercise praise exactly when the day had exercise, and closes with the verdict on the score |
| DailyCheck.ScoreThresholds | src/pages/DailyCheck.tsx:118-125 | the three verdicts correspond exactly to an average of at least 7, from 5 up to 7, and below 5 |
| DailyCheck.OverallDependsOnlyOnScore | src/pages/DailyCheck.tsx:117-125 | two days with equal scores and the same exercise answer get the same `overall` |
| DailyCheck.BadDayScenario | src/pages/DailyCheck.tsx:54-135 | answers 2, 3, 2, 9 with no exercise generate nine recommendations; the mood and energy advice is shown, and the verdict is "needs attention" |
| DailyCheck.GoodDayScenario | src/pages/DailyCheck.tsx:54-135 | answers 8, 8, 8, 2 with exercise give no recommendations, and praise followed by "very good" |
| DailyCheck.SubmittedEntry | src/pages/DailyCheck.tsx:138-147 | the submitted entry has today as both id and date, and carries the answers unchanged |
| DailyCheck.HandleSubmit | src/pages/DailyCheck.tsx:137-157 | after submit, the slot holds the old list with the submitted entry upserted; today reads back as that entry and other days as before; the diagnosis is the rule table's |
| Dashboard.ChartData | src/pages/Dashboard.tsx:11-19 | there is one point per entry, in order, carrying that entry's date and four metrics |
| Dashboard.ComputeAverages | src/pages/Dashboard.tsx:21-37 | every average has a positive denominator, so none divides by zero |
| Dashboard.Total | src/pages/Dashboard.tsx:24-29 | the left-to-right reduce from zero sums; its properties are `TotalAppend`, `TotalRemove`, `TotalPermutation` and `TotalInRange` |
| Dashboard.AveragesOfNothing | src/pages/Dashboard.tsx:22 | with no entries, all four averages are zero |
| Dashboard.AveragesOfOne | src/pages/Dashboard.tsx:24-36 | with one entry, each average is that entry's value |
| Dashboard.TotalAppend | src/pages/Dashboard.tsx:24-29 | the running sums of two lists, one after the other, add up |
| Dashboard.TotalRemove | src/pages/Dashboard.tsx:24-29 | removing one entry removes exactly its values from the sums |
| Dashboard.TotalPermutation | src/pages/Dashboard.tsx:24-29 | lists with the same entries, in any order, have the same sums |
| Dashboard.AveragesOrderIndependent | src/pages/Dashboard.tsx:21-37 | the averages do not depend on the order of the entries |
| Dashboard.TotalInRange | src/pages/Dashboard.tsx:24-29 | with slider values, each sum lies between the entry count and ten times it |
| Dashboard.AveragesInRange | src/pages/Dashboard.tsx:31-36 | with slider values and at least one entry, every average lies between 1 and 10 |
| Dashboard.ExerciseEntries | src/pages/Dashboard.tsx:40 | the filter keeps every entry that records exercise, as often as it occurs, and no other entry |
| Dashboard.ExerciseCount | src/pages/Dashboard.tsx:39-41 | the count never exceeds the number of entries |
| Dashboard.ExerciseCountIsDays | src/pages/Dashboard.tsx:39-41 | the count is the number of positions whose entry records exercise |
| ResourceData.TableIdsDistinct | src/data/resources.ts:3-60 | the eight resources have pairwise distinct ids |
| ResourceData.FilterByCategory | src/data/resources.ts:63-80 | a resource is kept exactly when it is in the list and its category is one of those asked for |
| ResourceData.FilterIsSubsequence | src/data/resources.ts:63-80 | the filter keeps the order of the list |
| ResourceData.ResourcesByMood | src/data/resources.ts:62-81 | a resource is selected exactly when it is in the table and its category belongs to the mood's band (bands in `ResourcesByMoodContents`, order in `ResourcesByMoodInOrder`) |
| ResourceData.ResourcesByMoodInOrder | src/data/resources.ts:62-81 | the mood selection is taken from the table, in table order |
| ResourceData.ResourcesByMoodContents | src/data/resources.ts:62-81 | moods up to 2 get exactly the emergency, meditation and stress resources; up to 4, meditation, stress and exercise; above 4, exercise and sleep |
| ResourceData.BandFilterContents | src/data/resources.ts:62-81 | the same three bands hold for the mood filter over any resource list |
| ResourceData.EmergencyOnlyForLowMood | src/data/resources.ts:63-68 | the emergency line is offered exactly when the mood is at most 2 |
| ResourcesPage.FilteredResources | src/pages/Resources.tsx:36-38 | no selection shows the whole table; a category shows exactly the table's resources of that category; the result always keeps table order |
| ResourcesPage.CategoriesOf | src/pages/Resources.tsx:40 | the mapping gives one category per resource, position by position |
| ResourcesPage.Distinct | src/pages/Resources.tsx:40 | the set conversion keeps exactly the values of its input, each once |
| ResourcesPage.DistinctFirstSeenOrder | src/pages/Resources.tsx:40 | the distinct values are listed in order of their first occurrence |
| ResourcesPage.Categories | src/pages/Resources.tsx:40 | the buttons list no category twice and exactly the table's categories (first-seen order in `CategoriesProperties`) |
| ResourcesPage.CategoriesProperties | src/pages/Resources.tsx:40 | the buttons have no duplicates, are exactly the categories some resource has, and follow the order of first appearance in the table |
| ResourcesPage.DistinctCategories | src/pages/Resources.tsx:40 | the same three facts hold for the categories of any resource list |
| ResourcesPage.CategoryButtonShowsResources | src/pages/Resources.tsx:36-40 | pressing any category button shows at least one resource |
| ResourcesPage.CategoryHasResources | src/pages/Resources.tsx:36-40 | a category drawn from a resource list filters that list to a non-empty result |

## Left out

- Browser storage and JSON: the slot holds the list itself, so serialising and parsing is the identity. A stored value that is not valid JSON makes `getEntries` throw in the source, and that path is not modelled. An empty stored string reads as no entries in the source and is not distinguished from an absent slot.
- The clock and the time zone: "thirty days ago" is the parameter `cutoff`, compared with day numbers. The source compares a midnight-UTC date with the current instant minus thirty days, so the exact inclusion of the boundary day depends on the time of day and zone, which is not modelled.
- Dates and ids are day numbers rather than ISO date strings; the id is stored as the same day number as the date.
- Dashboard.ComputeAverages: the averages are exact fractions; the one-decimal `toFixed` rendering and the insight texts that parse it back are not modelled.
- The chart's locale-formatted date labels: a chart point carries the day number.
- The Spanish sentences of the diagnosis, the toasts, the dialogs, the page reload after clearing, and all rendering are not modelled; the sentences are enumeration constructors.
- The daily check page's prefill of the sliders from today's stored entry is a React effect and is not modelled.
- `selectedCategory` is a string or null in the source; it is `Option<Category>` here, since it is only ever set from the category buttons.
- DailyCheck.MoodIconMonotone: the icon's colour class is not modelled, only the choice of face.
- Storage.SortByDate: the sort is written as a stable insertion sort, as JavaScript's sort is stable, but stability itself is not stated as a lemma.
