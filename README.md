# Big Dog Weekly Gameplan: a Dafny model of the page's state logic

The Big Dog weekly gameplan page shows a teacher's week: a standard, lessons,
assignments, warm-ups, a day planner, videos and announcements. The teacher
can edit the week in the browser. Every edit replaces the whole `WeekData`
record with a copy in which one field differs. This project models the part
of `big-dog-weekly-vite/src/page.tsx` that is logic rather than markup:

- **`weekly.dfy`, module `Weekly`.** The data model. `DayKey` is a
  five-constructor datatype. `Weekdays` is the canonical Mon→Fri order.
  `IndexOf` models `Array.prototype.indexOf`, and `BlankDay` is the blank
  day plan. The `Record<DayKey, …>` fields are maps that may lack a key,
  because the code reads them through `?.`, `|| []` and `|| blankDay`. An
  optional `due` is `Option<string>`. Its JavaScript truthiness is
  `Truthy`: present and non-empty.
- **`active_days.dfy`, module `ActiveDays`.** The five preset templates and
  the per-day toggle. The toggle either filters a day out, or appends it and
  re-sorts by `WEEKDAYS.indexOf`. The sort is modelled as an insertion sort,
  and `SortedUnique` shows that any sorted permutation gives the same list.
  So the model does not depend on which stable sort the runtime uses.
- **`due_dates.dfy`, module `DueDates`.** `upcomingDueDates`: tag, flatten,
  filter. It also has the independent count the self-check compares it with,
  a reference definition that filters each group first, and the lemmas
  relating them.
- **`edits.dfy`, module `Edits`.** The record edits: week label, logo URL,
  a day's notes, and the three theme colours.
- **`dev_checks.dfy`, module `DevChecks`.** `runDevChecks`. It has the
  `isHex6` regex, the warm-up, subset and video predicates, and the loop over
  the data sets as a method.
- **`sample_weeks.dfy`, module `SampleWeeks`.** The two static weeks, and the
  proof that both pass every self-check.
- **`page.dfy`, module `Page`.** The two `useState` cells, `data` and
  `logoBroken`, as a class. Each event handler is a method.

Three behaviours of the code shape the model:

- `runDevChecks` runs five checks per data set
  (`big-dog-weekly-vite/src/page.tsx:347-357`): hex primary colour, at most
  one warm-up a day, active days among the weekdays, well-formed videos, and
  the due-count comparison. All five are modelled.
- `due` is any string (`page.tsx:8`), and any non-empty string counts as due
  (`page.tsx:106`). The model does the same.
- React keeps the state of the unkeyed `Page` (`page.tsx:363, 414`) across
  a tab change, so switching tabs is not modelled (see "Left out").

## Model

| member | source | states |
|---|---|---|
| `Weekly.IndexOf` | big-dog-weekly-vite/src/page.tsx:210 | `indexOf` returns -1 exactly when the day is absent. Otherwise it returns a position holding the day, with no earlier occurrence. |
| `Weekly.Truthy` | big-dog-weekly-vite/src/page.tsx:106 | `!!x.due` is false exactly when `due` is absent or the empty string |
| `Weekly.PlanAssignments` | big-dog-weekly-vite/src/page.tsx:105 | a day without a plan, read through `?.` with `[]` as fallback, has no assignments |
| `Weekly.WarmupsOf` | big-dog-weekly-vite/src/page.tsx:348 | a day without warm-ups, read with `[]` as fallback, has an empty list |
| `Weekly.DayIndex` | big-dog-weekly-vite/src/page.tsx:28 | every day has a position in `WEEKDAYS`, and `WEEKDAYS` holds that day at that position |
| `Weekly.IndexOfWeekdays` | big-dog-weekly-vite/src/page.tsx:210 | the comparator's `WEEKDAYS.indexOf(d)` is never -1 and equals the day's canonical position |
| `Weekly.DayIndexInjective` | big-dog-weekly-vite/src/page.tsx:28 | two days share a canonical position only if they are the same day |
| `Weekly.WeekdaysCanonical` | big-dog-weekly-vite/src/page.tsx:28 | `WEEKDAYS` is strictly increasing in position, lists every day, and has day i at position i |
| `Weekly.CanonicalSorted` | big-dog-weekly-vite/src/page.tsx:28 | a list strictly ordered by weekday is also sorted |
| `Weekly.CanonicalCount` | big-dog-weekly-vite/src/page.tsx:210 | a canonical day list holds each day at most once |
| `ActiveDays.PresetDays` | big-dog-weekly-vite/src/page.tsx:30-36 | every preset template is a non-empty, strictly weekday-ordered subset of `WEEKDAYS` |
| `ActiveDays.PresetLabel` | big-dog-weekly-vite/src/page.tsx:30-36 | the caption of each preset button, the key it has in the template table |
| `ActiveDays.PresetButtons` | big-dog-weekly-vite/src/page.tsx:197 | `Object.entries` yields every preset exactly once, captioned in the order the table is written |
| `ActiveDays.PresetMembership` | big-dog-weekly-vite/src/page.tsx:30-36 | each template holds exactly the days its caption names: all, all but Mon, all but Fri, all but Mon and Fri, only Wed |
| `ActiveDays.PresetLabelsDistinct` | big-dog-weekly-vite/src/page.tsx:30-36 | the five captions (the table's keys) are pairwise different |
| `ActiveDays.ChoosePreset` | big-dog-weekly-vite/src/page.tsx:198 | a preset sets `activeDays` to the template's list, which is canonical, and changes no other field |
| `ActiveDays.RemoveDay` | big-dog-weekly-vite/src/page.tsx:210 | `filter(x => x !== d)` keeps every other day with its multiplicity and drops every copy of `d` |
| `ActiveDays.RemoveDayConcat` | big-dog-weekly-vite/src/page.tsx:210 | the filter splits over concatenation, so the kept days stay in their previous relative order |
| `ActiveDays.RemoveDayOrdered` | big-dog-weekly-vite/src/page.tsx:210 | removing a day keeps a sorted list sorted and a canonical list canonical |
| `ActiveDays.InsertByDay` | big-dog-weekly-vite/src/page.tsx:210 | inserting by weekday position adds exactly one copy of the day and nothing else |
| `ActiveDays.InsertByDayOrdered` | big-dog-weekly-vite/src/page.tsx:210 | insertion keeps a sorted list sorted, and keeps a canonical list canonical when the day is new |
| `ActiveDays.SortByDay` | big-dog-weekly-vite/src/page.tsx:210 | `sort` by `WEEKDAYS.indexOf` returns a permutation of its input that is sorted by weekday |
| `ActiveDays.SortedUnique` | big-dog-weekly-vite/src/page.tsx:210 | two weekday-sorted lists with the same days and counts are equal, so the sort's result does not depend on the algorithm |
| `ActiveDays.ToggleDay` | big-dog-weekly-vite/src/page.tsx:210 | after a toggle the day is active exactly when it was inactive before, and every other day keeps its membership |
| `ActiveDays.ToggleOff` | big-dog-weekly-vite/src/page.tsx:203-210 | toggling an active day removes every copy of it and keeps the remaining days, in order, with their counts |
| `ActiveDays.ToggleOn` | big-dog-weekly-vite/src/page.tsx:203-210 | toggling an inactive day yields the old days plus that day, sorted by weekday |
| `ActiveDays.SortAppendCanonical` | big-dog-weekly-vite/src/page.tsx:210 | on a canonical list, append-then-sort equals inserting the day in place, and the result is canonical |
| `ActiveDays.ToggleKeepsCanonical` | big-dog-weekly-vite/src/page.tsx:210 | both branches of the toggle keep `activeDays` an ordered, duplicate-free subset of `WEEKDAYS` |
| `ActiveDays.ReinsertRestores` | big-dog-weekly-vite/src/page.tsx:210 | on a canonical list, removing a day and then toggling it back on restores the list |
| `ActiveDays.RemoveRestores` | big-dog-weekly-vite/src/page.tsx:210 | on a canonical list, adding an absent day and then toggling it off restores the list |
| `ActiveDays.ToggleTwice` | big-dog-weekly-vite/src/page.tsx:210 | on a sorted, duplicate-free list, toggling the same day twice returns the original list |
| `ActiveDays.ApplyToggle` | big-dog-weekly-vite/src/page.tsx:202-211 | the toggled day's membership flips, every other day's membership is unchanged, and no other field changes |
| `ActiveDays.ApplyToggleTwice` | big-dog-weekly-vite/src/page.tsx:202-211 | toggling a day twice gives back the same week when its active days are canonical |
| `DueDates.Tag` | big-dog-weekly-vite/src/page.tsx:104 | the `{ source, ...a }` map keeps the list's length |
| `DueDates.FromDaily` | big-dog-weekly-vite/src/page.tsx:105 | the `flatMap` over the given days of each day's assignments, tagged with that day |
| `DueDates.UpcomingDueDates` | big-dog-weekly-vite/src/page.tsx:103-107 | an entry is listed exactly when it is a tagged weekly or day-plan assignment and its `due` is non-empty |
| `DueDates.TagAt` | big-dog-weekly-vite/src/page.tsx:104-105 | entry k of a tagged list carries the source and is assignment k |
| `DueDates.TagMembership` | big-dog-weekly-vite/src/page.tsx:104-105 | an entry is in a tagged list exactly when its source matches and its assignment is in the list |
| `DueDates.KeepDue` | big-dog-weekly-vite/src/page.tsx:106 | the `!!x.due` filter keeps exactly the entries with a non-empty due and never grows the list |
| `DueDates.DueAssignments` | big-dog-weekly-vite/src/page.tsx:354-355 | the self-check's `filter(a => !!a.due)` keeps exactly the assignments with a non-empty due |
| `DueDates.KeepDueConcat` | big-dog-weekly-vite/src/page.tsx:106 | the filter splits over concatenation, so it keeps the order of what it keeps |
| `DueDates.KeepDueTag` | big-dog-weekly-vite/src/page.tsx:104-106 | tagging then filtering equals filtering then tagging |
| `DueDates.KeepDueDaily` | big-dog-weekly-vite/src/page.tsx:105-106 | the filtered `flatMap` over days is each day's filtered group, in the order of the days |
| `DueDates.DailyGroupsWeekdays` | big-dog-weekly-vite/src/page.tsx:105 | over `WEEKDAYS` the daily groups come in the order Mon, Tue, Wed, Thu, Fri |
| `DueDates.UpcomingIsGrouped` | big-dog-weekly-vite/src/page.tsx:103-107 | `upcomingDueDates` equals the reference list: weekly due entries in original order, then Mon…Fri groups, each in original order |
| `DueDates.UpcomingSound` | big-dog-weekly-vite/src/page.tsx:103-107 | every entry has a non-empty `due` and a `source` among Weekly, Mon, Tue, Wed, Thu, Fri |
| `DueDates.FromDailyMembership` | big-dog-weekly-vite/src/page.tsx:105 | an entry comes from the daily part exactly when its day is listed and that day's plan holds its assignment |
| `DueDates.UpcomingMembership` | big-dog-weekly-vite/src/page.tsx:103-107 | an entry is listed if and only if its due is non-empty and its assignment is in the list its source names |
| `DueDates.SumDailyDueCounts` | big-dog-weekly-vite/src/page.tsx:355 | the `reduce` over weekdays from `acc` yields `acc` plus the number of due day-plan assignments |
| `DueDates.SumDailyDue` | big-dog-weekly-vite/src/page.tsx:355 | the `reduce` never goes below its start value and adds at most one per day-plan assignment |
| `DueDates.DueExpected` | big-dog-weekly-vite/src/page.tsx:354-355 | the expected count is the number of due weekly assignments plus the length of the Monday-to-Friday daily groups |
| `DueDates.DueCountMatches` | big-dog-weekly-vite/src/page.tsx:354-357 | for every week, the upcoming list's length equals the number of due weekly assignments plus the per-day due counts |
| `DueDates.SingleDueGroup` | big-dog-weekly-vite/src/page.tsx:104-106 | a source whose list is a single due assignment contributes exactly that one tagged entry |
| `DueDates.OrderingExample` | big-dog-weekly-vite/src/page.tsx:103-107 | weekly A (Wed), Monday's B and Thursday's C are listed as A, B, C, whether Tue, Wed and Fri have empty plans or none |
| `DueDates.OrderingExampleFullRecord` | big-dog-weekly-vite/src/page.tsx:103-107 | the same A, B, C order when the plan record has all five days and Tue, Wed and Fri are empty plans |
| `Edits.SetWeekLabel` | big-dog-weekly-vite/src/page.tsx:139 | the label edit sets `weekLabel` and changes no other field |
| `Edits.SetLogoUrl` | big-dog-weekly-vite/src/page.tsx:114 | the URL edit stores the URL as given, which shows an image only when non-empty, and changes no other field |
| `Edits.SetNotes` | big-dog-weekly-vite/src/page.tsx:257 | only `dayPlans[d].notes` changes. The day keeps its assignments, or gets `[]` when it had no plan. Other days and other fields are unchanged. |
| `Edits.SetNotesUnchanged` | big-dog-weekly-vite/src/page.tsx:256-257 | blurring a notes box without editing it leaves a planned day's week unchanged |
| `Edits.SetNotesTwice` | big-dog-weekly-vite/src/page.tsx:257 | two commits to one notes box: the last one wins |
| `Edits.SetNotesCommute` | big-dog-weekly-vite/src/page.tsx:257 | commits to the notes of two different days commute |
| `Edits.DueDatesDependOnAssignments` | big-dog-weekly-vite/src/page.tsx:103-106 | the upcoming list depends only on the weekly list and each day's assignments |
| `Edits.SetNotesKeepsDueDates` | big-dog-weekly-vite/src/page.tsx:257 | a notes edit never changes the upcoming due dates, even on a day without a plan |
| `Edits.SetColor` | big-dog-weekly-vite/src/page.tsx:390-396 | a colour pick sets its own theme field, leaves the other two colours and the rest of the week unchanged |
| `Edits.ThemeExtensional` | big-dog-weekly-vite/src/page.tsx:10 | a theme is determined by its three colours |
| `Edits.SetColorUnchanged` | big-dog-weekly-vite/src/page.tsx:390-396 | picking the colour already shown changes nothing |
| `Edits.SetColorCommute` | big-dog-weekly-vite/src/page.tsx:390-396 | picks on different fields commute, and on the same field the last one wins |
| `DevChecks.Check` | big-dog-weekly-vite/src/page.tsx:346-357 | for every week the subset check and the due-count check pass. All checks pass exactly when the primary colour is hex, no day has two warm-ups, and every video has a title. |
| `DevChecks.IsHex6` | big-dog-weekly-vite/src/page.tsx:343 | `isHex6` holds exactly for a seven-character string made of `#` followed by six hex digits |
| `DevChecks.WarmupsOk` | big-dog-weekly-vite/src/page.tsx:348 | the warm-up check over `WEEKDAYS` holds exactly when no day, of all five, has more than one warm-up |
| `DevChecks.ActiveOk` | big-dog-weekly-vite/src/page.tsx:350 | the subset check passes for every week, because every `DayKey` is in `WEEKDAYS` |
| `DevChecks.VideosOk` | big-dog-weekly-vite/src/page.tsx:352 | the video check holds exactly when every video has a non-empty title |
| `DevChecks.RunDevChecks` | big-dog-weekly-vite/src/page.tsx:342-360 | the loop produces one report per data set, in order, labelled by its `logoText`, and every due-count report matches |
| `DevChecks.HexExamples` | big-dog-weekly-vite/src/page.tsx:343 | `isHex6` accepts the base colours and `#ABCDEF`. It rejects `blue`, a missing `#`, five digits, a trailing newline and a non-hex digit. |
| `DevChecks.PickPrimaryHex` | big-dog-weekly-vite/src/page.tsx:390 | applied to an edited week, which the page itself never does (it checks only the two static weeks): after a primary-colour pick, the hex check passes exactly when the picked value is `#` plus six hex digits |
| `DevChecks.EditsKeepChecks` | big-dog-weekly-vite/src/page.tsx:346-357 | applied to edited weeks, which the page itself never does (it checks only the two static weeks): notes, week-label and logo-URL edits never change whether the check predicates pass |
| `SampleWeeks.CoreWeekWellFormed` | big-dog-weekly-vite/src/page.tsx:66-83 | the regular week has at most one warm-up per day and titled videos |
| `SampleWeeks.SampleWeekFields` | big-dog-weekly-vite/src/page.tsx:44-101 | `accelWeek` is `coreWeek` with label, logo URL, standard and lessons replaced, and both start on all five days in canonical order |
| `SampleWeeks.NoneDue` | big-dog-weekly-vite/src/page.tsx:354 | a list with no due values contributes no due assignments |
| `SampleWeeks.AllDue` | big-dog-weekly-vite/src/page.tsx:354 | a list whose entries are all due is kept whole |
| `SampleWeeks.WeeklyOnly` | big-dog-weekly-vite/src/page.tsx:103-107 | when only the weekly assignments are due, the upcoming list is the weekly list tagged `Weekly` |
| `SampleWeeks.CoreWeekUpcoming` | big-dog-weekly-vite/src/page.tsx:58-79 | the regular week's upcoming list is its two weekly assignments, tagged `Weekly` |
| `SampleWeeks.SampleWeeksPass` | big-dog-weekly-vite/src/page.tsx:89-101 | both static weeks pass every self-check, and the accelerated override leaves the upcoming list unchanged |
| `Page.WeeklyPage.constructor` | big-dog-weekly-vite/src/page.tsx:363 | the page starts with the given week, which must have canonical active days as both static weeks do, and the logo flag cleared |
| `Page.WeeklyPage.Valid` | big-dog-weekly-vite/src/page.tsx:363 | the class invariant: the working copy's active days are an ordered, duplicate-free list of weekdays |
| `Page.WeeklyPage.ShowsLogoImage` | big-dog-weekly-vite/src/page.tsx:123 | `data.logoUrl && !logoBroken`: the header shows the image rather than the placeholder |
| `Page.WeeklyPage.LogoLoadFailed` | big-dog-weekly-vite/src/page.tsx:124 | a load error sets the flag, hides the image and leaves the week unchanged |
| `Page.WeeklyPage.CommitLogoUrl` | big-dog-weekly-vite/src/page.tsx:112-115 | committing a URL clears the flag and stores the URL, so the image shows exactly when the URL is non-empty |
| `Page.WeeklyPage.CommitWeekLabel` | big-dog-weekly-vite/src/page.tsx:139 | the label edit replaces the week and leaves the logo flag as it was |
| `Page.WeeklyPage.PickPreset` | big-dog-weekly-vite/src/page.tsx:198 | a preset click applies the preset, keeps the invariant and leaves the logo flag unchanged |
| `Page.WeeklyPage.ToggleActiveDay` | big-dog-weekly-vite/src/page.tsx:209-211 | a toggle click applies the toggle, keeps the invariant and leaves the logo flag unchanged |
| `Page.WeeklyPage.CommitNotes` | big-dog-weekly-vite/src/page.tsx:257 | a notes blur applies the notes edit, keeps the invariant and leaves the logo flag unchanged |
| `Page.WeeklyPage.PickColor` | big-dog-weekly-vite/src/page.tsx:390-396 | a colour change applies the theme edit, keeps the invariant and leaves the logo flag unchanged |
| `Page.LogoSession` | big-dog-weekly-vite/src/page.tsx:110-124 | after a load failure the image stays hidden through a label edit, and comes back once a non-empty URL is committed |

## Left out

- JSX rendering, styling and the print CSS are presentational. This covers
  `Header`, `TopRow`, `BottomRow`, the markup of `WarmupsAndDayPlanner` and
  `ThemeTweaks`, showing only the first warm-up, and the placeholders.
- `components/ui/button.tsx` and `components/ui/card.tsx` only join class
  names around DOM elements.
- `window.print()`, the image fetch, `console` logging, and `useMemo` and
  `useEffect` scheduling are host effects. Of the image fetch, only the
  failure event that sets `logoBroken` is modelled. `RunDevChecks` returns
  its reports instead of logging them.
- Switching tabs (`BigDogWeeklyPage`, `page.tsx:405-418`) is left out.
  React keeps the state of the unkeyed `Page` (`page.tsx:363, 414`) when its
  `initial` prop changes, so the working copy made by `useState(initial)`
  and the header's `logoBroken` are not re-seeded by a tab change. The
  model has one `WeeklyPage` per mounted page and no tab state.
- The uncontrolled inputs (`defaultValue`) and the stale `data` captured by
  each handler's closure are left out. Each handler is modelled as acting on
  the current week, one event at a time.
- `DevChecks.ActiveOk` always passes in the model, because `DayKey` is a
  datatype with five constructors. In the source a value outside the union
  could only come from outside the type system.
- `typeof v.url === 'string'` is always true here, because URLs are
  `string`s.
- The warm-up field `label` is named `caption` in the model,
  because `label` is a Dafny keyword.
