/**
 * The assessment archive file and the append that each valid submission
 * performs on it: load (or start empty), wrap a legacy non-list value,
 * append the new record, write the whole list back.
 */
module Archive {
  import opened Json

  /**
   * The archive file as the submission finds it: missing, present but
   * unreadable as JSON (`json.load` raises), or holding a parsed value.
   */
  datatype FileState = Absent | Corrupt | Holds(content: Json)

  /** The list the append starts from; a lone legacy value becomes a one-element list. */
  function Entries(file: FileState): (es: seq<Json>)
    requires !file.Corrupt?
    ensures file.Absent? ==> es == []
    ensures file.Holds? && file.content.JArr? ==> es == file.content.items
    ensures file.Holds? && !file.content.JArr? ==> es == [file.content]
  {
    match file
    case Absent => []
    case Holds(v) => if v.JArr? then v.items else [v]
  }

  /**
   * The file after appending `record`. A file that cannot be read is left
   * as it is: the failure is swallowed and nothing is written.
   */
  function Appended(file: FileState, record: Json): (f: FileState)
    ensures file.Corrupt? ==> f == file
    ensures !file.Corrupt? ==> f.Holds? && f.content.JArr?
    ensures !file.Corrupt? ==> |f.content.items| == |Entries(file)| + 1
    ensures !file.Corrupt? ==> f.content.items[..|Entries(file)|] == Entries(file)
    ensures !file.Corrupt? ==> f.content.items[|Entries(file)|] == record
  {
    if file.Corrupt? then file else Holds(JArr(Entries(file) + [record]))
  }

  /** The load, coerce and append steps as the submission runs them. */
  method AppendRecord(file: FileState, record: Json) returns (written: FileState)
    ensures written == Appended(file, record)
  {
    if file.Corrupt? {
      written := file;
      return;
    }
    var existing: seq<Json>;
    if file.Holds? {
      var loaded := file.content;
      if loaded.JArr? {
        existing := loaded.items;
      } else {
        existing := [loaded];
      }
    } else {
      existing := [];
    }
    existing := existing + [record];
    written := Holds(JArr(existing));
  }

  /** A missing archive becomes the one-record list. */
  lemma AppendToMissing(record: Json)
    ensures Appended(Absent, record) == Holds(JArr([record]))
  {
  }

  /** A legacy non-list value is kept, first, ahead of the new record. */
  lemma AppendToLegacy(v: Json, record: Json)
    requires !v.JArr?
    ensures Appended(Holds(v), record) == Holds(JArr([v, record]))
  {
  }

  /**
   * Appending twice keeps both records in submission order after everything
   * that was there before: the archive only ever grows at its end.
   */
  lemma AppendTwice(file: FileState, r1: Json, r2: Json)
    requires !file.Corrupt?
    ensures Appended(Appended(file, r1), r2) == Holds(JArr(Entries(file) + [r1, r2]))
  {
    assert Entries(Appended(file, r1)) == Entries(file) + [r1];
    assert Entries(file) + [r1] + [r2] == Entries(file) + [r1, r2];
  }
}
