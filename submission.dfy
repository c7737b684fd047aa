/**
 * One press of the submit button: the required-field gate, then the record,
 * the archive append and the personalized plan; and what an archived
 * submission contributes to the sidebar's tally.
 */
module Submission {
  import opened Wrappers
  import opened Json
  import opened Catalogs
  import opened Assessment
  import opened RecordJson
  import opened Archive
  import opened Recommendations
  import opened PopularPaths

  /** What the page shows: the required-fields error, or the thank-you with the record and the plan. */
  datatype Outcome = RequiredFieldsMissing | Submitted(record: Record, plan: Plan)

  /** What the radio and the timeline selectbox can hand over. */
  predicate FormChoices(a: Answers) {
    ChoiceInCatalog(a.selectedUseCase) && TimelineInCatalog(a.timelinePreference)
  }

  /**
   * Handles a submission at `timestamp` against the archive `file`. Missing
   * required answers build nothing and leave the archive as it was;
   * otherwise the record is appended and the plan rendered.
   */
  method Submit(a: Answers, timestamp: string, file: FileState) returns (outcome: Outcome, after: FileState)
    requires FormChoices(a)
    ensures outcome.RequiredFieldsMissing? <==> !RequiredFilled(a)
    ensures !RequiredFilled(a) ==> after == file
    ensures RequiredFilled(a) ==> outcome == Submitted(BuildRecord(a, timestamp), PlanFor(a))
    ensures RequiredFilled(a) ==> after == Appended(file, ToJson(BuildRecord(a, timestamp)))
  {
    if !RequiredFilled(a) {
      return RequiredFieldsMissing, file;
    }
    var record := BuildRecord(a, timestamp);
    after := AppendRecord(file, ToJson(record));
    var plan := RenderPlan(a);
    outcome := Submitted(record, plan);
  }

  /** The tally reads an archived record's path back as its selection (`null` when none was chosen). */
  lemma ArchivedRecordPath(r: Record)
    ensures SelectedPath(ToJson(r)) == Some(OptStr(r.useCase.selected))
  {
  }

  /** A path chosen from the catalog is always counted and can always be a dict key. */
  lemma CatalogPathsAreCounted(name: string)
    requires name in UseCases
    ensures Counted(JStr(name)) && Hashable(JStr(name))
  {
  }

  /**
   * Archiving one more record adds exactly one occurrence of its path to
   * what the tally reads, and changes no other path's count.
   */
  lemma ArchivingAddsOneToItsPath(entries: seq<Json>, r: Record)
    requires Paths(entries).Some?
    ensures Paths(entries + [ToJson(r)]).Some?
    ensures Paths(entries + [ToJson(r)]).value == Paths(entries).value + [OptStr(r.useCase.selected)]
    ensures forall k ::
      multiset(Paths(entries + [ToJson(r)]).value)[k]
      == multiset(Paths(entries).value)[k] + (if k == OptStr(r.useCase.selected) then 1 else 0)
  {
    ArchivedRecordPath(r);
    var after := entries + [ToJson(r)];
    assert after[..|entries|] == entries;
    assert Paths(after).value == Paths(entries).value + [OptStr(r.useCase.selected)];
  }

  /**
   * A valid submission grows a readable archive by one entry, and the path
   * it chose now has one more vote in the sidebar tally.
   */
  lemma SubmissionCountsOnce(a: Answers, timestamp: string, file: FileState)
    requires FormChoices(a) && RequiredFilled(a) && !file.Corrupt?
    requires Paths(Entries(file)).Some?
    ensures var after := Appended(file, ToJson(BuildRecord(a, timestamp)));
      after.Holds? && after.content.JArr? && |after.content.items| == |Entries(file)| + 1
      && Paths(after.content.items).Some?
      && forall k ::
        multiset(Paths(after.content.items).value)[k]
        == multiset(Paths(Entries(file)).value)[k] + (if k == OptStr(a.selectedUseCase) then 1 else 0)
  {
    var r := BuildRecord(a, timestamp);
    var after := Appended(file, ToJson(r));
    assert after.content.items == Entries(file) + [ToJson(r)];
    ArchivingAddsOneToItsPath(Entries(file), r);
  }
}
