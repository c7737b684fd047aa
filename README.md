# AI Career Pivot assessment: the decision and data rules

`engineer_pivot_app.py` is a single-page questionnaire for engineers moving
into AI work. Most of the page is widget and markdown code. Inside it are a
few deterministic rules, and this project models and proves them in Dafny:

- **catalogs**: the career-path catalog and the timeline-plan catalog;
- **submission gate**: five required answers must all be non-empty;
- **record builder**: turns the answers into a nested assessment record,
  including a snapshot of the chosen career path;
- **archive append**: loads the prior archive (a missing file means an empty
  list, and a legacy non-list value is wrapped), then appends exactly one record;
- **personalized plan**: next steps keyed on urgency; audio, video and text
  content lists; the Py4AI block; the concern advice;
- **popular paths**: the sidebar's tally of archived path selections, sorted
  by count (highest first, stably) and cut to three.

Modules, leaf first:

| file | module | what it holds |
|---|---|---|
| `wrappers.dfy` | `Wrappers` | `Option`, the stand-in for Python's `None` |
| `json.dfy` | `Json` | the parsed JSON value the archive holds |
| `catalogs.dfy` | `Catalogs` | the two catalogs and the option lists the rules read |
| `assessment.dfy` | `Assessment` | the answers, the required-field gate, the record and its builder |
| `record_json.dfy` | `RecordJson` | the record as the dictionary that is archived, and its decoder |
| `archive.dfy` | `Archive` | the archive file and the load, coerce and append steps |
| `recommendations.dfy` | `Recommendations` | the plan's rules, each as a function and as the method that builds the list |
| `popular_paths.dfy` | `PopularPaths` | the tally loop, the stable sort, the top three, the sidebar statistics |
| `submission.dfy` | `Submission` | the submit handler, and how a submission changes the tally |

Where the page changes things step by step, the model does the same in
imperative Dafny. This covers the list coercion and append, the lists filled
by `extend`/`append`, and the loop that counts paths into a dict. Each such
method is proved equal to a specification function. The lemmas and the
functions' own contracts then prove what the page promises about that
function.

Where the code is easy to misread, the model follows the code:

- **Unknown path name.** A name outside the catalog makes
  `ENGINEER_USE_CASES[...]` raise an uncaught `KeyError`. The lookup for the
  path details at line 134 raises before the form is drawn, so line 447 is
  never reached with such a name. The path radio only ever offers catalog
  names, so the model requires a catalog name or no choice
  (`Assessment.ChoiceInCatalog`).
- **Null selection.** The tally substitutes `'Unknown'` only when the
  `selected` key is missing. An archived record whose `selected` is `null` is
  counted under `null`, not skipped (`PopularPaths.SelectedPath`). The
  builder writes `null` only when no path is chosen, and the radio always
  makes a choice.
- **No email.** The thank-you message (line 516) promises an emailed plan,
  but this file sends none.
- **Next steps.** They are built and shown only inside the timeline-plan
  block, so only when a timeline is chosen (line 537).

## Model

| member | source | states |
|---|---|---|
| `Catalogs.UseCaseRadioMatchesCatalog` | engineer_pivot_app.py:124-129 | the path radio offers the six catalog names, each once, and the empty name is not one of them |
| `Catalogs.TimelineSelectMatchesCatalog` | engineer_pivot_app.py:286-289 | the timeline selectbox offers exactly the four plan names, each once |
| `Assessment.RequiredFilled` | engineer_pivot_app.py:422 | the gate passes iff none of name, email, discipline, experience and previous title is the empty string |
| `Assessment.BlankIsTheOnlyRejectedChoice` | engineer_pivot_app.py:158-165 | of the discipline and experience selectboxes, only the blank first option fails the gate |
| `Assessment.Details` | engineer_pivot_app.py:447 | the snapshot is present iff a catalog path is selected, and is then that path's catalog entry; no choice gives `None` |
| `Assessment.BuildRecord` | engineer_pivot_app.py:424-493 | the record carries the given timestamp, flattens back to exactly the answers (every field copied verbatim), and holds the catalog snapshot iff a catalog path was chosen |
| `Assessment.BuildRecordOfFlatten` | engineer_pivot_app.py:424-493 | building from a record's own answers and timestamp gives that record back, so the builder adds nothing beyond the stamp and the snapshot |
| `Assessment.BuildRecordInjective` | engineer_pivot_app.py:424-493 | different answers or timestamps never give the same record |
| `RecordJson.ToJson` | engineer_pivot_app.py:445-448 | the archived dictionary has a `use_case` dict whose `selected` is the chosen name, or `null` |
| `RecordJson.RecordRoundTrip` | engineer_pivot_app.py:424-493 | decoding the archived dictionary gives back the record exactly, multi-choice lists and free text included |
| `Archive.Entries` | engineer_pivot_app.py:498-504 | a missing file starts an empty list, a list is taken as it is, and a non-list value becomes a one-element list |
| `Archive.Appended` | engineer_pivot_app.py:498-513 | after the append the file holds the prior entries, unchanged and in order, followed by exactly the new record; an unreadable file is left as it was |
| `Archive.AppendRecord` | engineer_pivot_app.py:498-506 | the load, coerce and append steps produce exactly `Appended` |
| `Archive.AppendToMissing` | engineer_pivot_app.py:503-506 | a missing archive becomes `[record]` |
| `Archive.AppendToLegacy` | engineer_pivot_app.py:501-506 | a legacy non-list value `v` becomes `[v, record]` |
| `Archive.AppendTwice` | engineer_pivot_app.py:506 | two submissions leave both records at the end, in submission order, after everything that was there |
| `Recommendations.NextStepsFor` | engineer_pivot_app.py:557-576 | always three steps: the Priority list iff the urgency is "Desperate for any opportunity", the Week list iff it is "Committed to pivot", the default list iff it is neither |
| `Recommendations.CollectNextSteps` | engineer_pivot_app.py:557-576 | the list built by `extend` is exactly `NextStepsFor` |
| `Recommendations.NextStepsByUrgencyOption` | engineer_pivot_app.py:193-196 | the urgency choices "Just exploring" and "Serious consideration" get the default steps, and the other two their own lists |
| `Recommendations.AudioFor` | engineer_pivot_app.py:588-603 | audio items exist iff audio is a chosen format; the three beginner items come first iff the understanding is one of the two lowest; the podcast comes last iff the discipline is Mechanical, Civil or Aerospace; 0 to 4 items |
| `Recommendations.CollectAudio` | engineer_pivot_app.py:588-601 | the list built by `extend`/`append` is exactly `AudioFor` |
| `Recommendations.BeginnerItemsForLowestLevels` | engineer_pivot_app.py:591 | on the AI-understanding slider, the beginner items go exactly to the two lowest positions |
| `Recommendations.VideoFor` | engineer_pivot_app.py:607-626 | video items exist iff video is a chosen format; they are the short list iff clips are preferred, the longer list iff medium or long sessions are, and empty otherwise |
| `Recommendations.VideoOptionsSplit` | engineer_pivot_app.py:297-300 | with video chosen, the first video choice gets the short list, the next two the longer list, the last two an empty list |
| `Recommendations.CollectVideo` | engineer_pivot_app.py:607-624 | the list built by `extend` is exactly `VideoFor` |
| `Recommendations.ContentFormatsAreOptions` | engineer_pivot_app.py:281-284 | the audio, video and text formats the plan tests are the first three choices of the format multiselect |
| `Recommendations.TextFor` | engineer_pivot_app.py:630-646 | text items exist iff text is a chosen format; the three base items come first, plus one item for Mechanical or Electrical (the one that matches the discipline) |
| `Recommendations.CollectText` | engineer_pivot_app.py:630-644 | the list built by `append` is exactly `TextFor` |
| `Recommendations.Py4aiFor` | engineer_pivot_app.py:649-663 | the Py4AI block is shown iff the interest is "Definitely want to learn" or "Priority skill", and it quotes the study time and the discipline |
| `Recommendations.Py4aiForUpperHalf` | engineer_pivot_app.py:649 | on the interest slider, the block is shown exactly for the upper two positions |
| `Recommendations.ConcernAdviceFor` | engineer_pivot_app.py:684-711 | advice is shown iff the concern is a key of the five-entry table, and it is that key's text |
| `Recommendations.ConcernTableMatchesOptions` | engineer_pivot_app.py:687-711 | the table's keys are exactly the concern selectbox's choices, so every choice gets advice |
| `Recommendations.PlanFor` | engineer_pivot_app.py:523-711 | the plan: the path summary iff a catalog path is chosen, the timeline plan, headed by the chosen timeline's name and with its next steps, iff a timeline is chosen, and the content, Py4AI and advice sections by their rules |
| `Recommendations.RenderPlan` | engineer_pivot_app.py:523-711 | rendering section by section gives exactly `PlanFor` |
| `PopularPaths.SelectedPath` | engineer_pivot_app.py:784 | reading an entry fails iff it, or its `use_case`, is not a dict; a stored `selected` is returned as it is, `null` included; anything other than 'Unknown' comes from a stored `selected` |
| `PopularPaths.Paths` | engineer_pivot_app.py:784 | the comprehension succeeds iff every entry can be read, and then gives each entry's selection in order |
| `PopularPaths.FirstSeen` | engineer_pivot_app.py:785-788 | the dict's keys are exactly the selections other than 'Unknown', each once |
| `PopularPaths.FirstSeenOrder` | engineer_pivot_app.py:785-788 | the keys are in order of first appearance |
| `PopularPaths.CountPaths` | engineer_pivot_app.py:785-788 | the counting loop succeeds iff every counted selection is hashable, and yields each key, in first-seen order, with its number of occurrences |
| `PopularPaths.SortByCount` | engineer_pivot_app.py:792 | the sorted items are a permutation of the dict's items in non-increasing count order |
| `PopularPaths.SortKeepsTies` | engineer_pivot_app.py:792 | the sort is stable: the items with any one count keep their relative order |
| `PopularPaths.Take3` | engineer_pivot_app.py:792 | the slice is a prefix of at most three items |
| `PopularPaths.TallyTotal` | engineer_pivot_app.py:785-788 | the counts add up to the number of entries whose selection is not 'Unknown' |
| `PopularPaths.Popular` | engineer_pivot_app.py:792 | min(3, number of distinct counted paths) items of the tally, highest count first |
| `PopularPaths.PopularCounts` | engineer_pivot_app.py:784-793 | each listed path was selected, is not 'Unknown', and carries exactly the number of entries that selected it |
| `PopularPaths.PopularAreTop` | engineer_pivot_app.py:792 | a counted path left off the list has no higher count than any path on it |
| `PopularPaths.PopularTiesInFirstSeenOrder` | engineer_pivot_app.py:785-792 | for each count, the listed paths with that count are the first-seen paths with that count, in first-appearance order |
| `PopularPaths.TallyInFirstSeenOrder` | engineer_pivot_app.py:785-788 | every counted selection has an item, each item's count is its number of occurrences, and items are in first-appearance order |
| `PopularPaths.PopularTotalBounded` | engineer_pivot_app.py:784-793 | the listed counts add up to at most all counts, which add up to at most the number of entries |
| `PopularPaths.PopularPaths` | engineer_pivot_app.py:784-793 | the tally shows a list iff no entry raises, and the list is the top three of the stably sorted counts |
| `PopularPaths.SidebarStats` | engineer_pivot_app.py:772-795 | statistics appear iff the archive holds a list; they give its length and the popular paths |
| `Submission.Submit` | engineer_pivot_app.py:421-747 | with a required answer empty, only the error is shown and the archive is unchanged; otherwise the built record is appended to the archive and the plan for these answers is shown |
| `Submission.ArchivedRecordPath` | engineer_pivot_app.py:784 | the tally reads an archived record's selection back as the chosen name, or `null` |
| `Submission.CatalogPathsAreCounted` | engineer_pivot_app.py:786-788 | a catalog path name is never 'Unknown' and is always a valid dict key |
| `Submission.ArchivingAddsOneToItsPath` | engineer_pivot_app.py:506 | archiving a record adds one occurrence of its path to what the tally reads and no other |
| `Submission.SubmissionCountsOnce` | engineer_pivot_app.py:498-506 | a valid submission grows a readable archive by one entry and adds one to its path's count only |

## Left out

- Streamlit widgets, layout, markdown, balloons, the networking and contact sections and the sidebar prose are presentation. The widgets enter the model only as the answers they produce.
- File input and output and JSON text are left out. The archive is modelled as its parsed value: missing, unreadable, or holding a JSON value. `indent=2` and `ensure_ascii=False` only change the bytes written.
- `Archive.Appended`: only a failed read or parse is modelled, and it leaves the file as it was. A failure after `open(..., 'w')` at line 508 can leave the file truncated or partly written, and that is not modelled.
- `datetime.now().isoformat()` reads the clock. The timestamp is a parameter instead.
- `Json`: numbers are integers and objects are unordered maps. Floats, and the key order of the dictionaries that are written, are not modelled.
- `PopularPaths.CountPaths`: dict keys are compared as JSON values. Python also merges `True` with `1` (and `1` with `1.0`) as dict keys, and the model does not.
- Looking up a path or timeline name outside its catalog raises a `KeyError` that the page does not catch. The model requires the names the widgets can produce (`Submission.FormChoices`) instead of modelling that crash.
- Concurrent submissions that race on the archive file are not modelled. The model handles one submission at a time.
- The email notification is not part of this file, so it is not part of this model.
