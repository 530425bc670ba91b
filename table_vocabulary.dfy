/** add_vocabulary.py: read sample_words.json, turn each row of a table of
    complete entries (ID and level included) into a record with a fixed
    creation date, append the records one by one, write the list back and
    report the last ID and a per-level tally of the whole file. */
module TableVocabulary {
  import opened Common
  import opened Decimal
  import opened Records
  import opened Stats
  import opened Allocation
  import opened Lists

  /** One tuple of `new_words_data`: the ID and level are given, not computed. */
  datatype Row = Row(id: string, term: Term, category: string, level: string, examples: seq<string>)

  /** The creation date every record of this script carries. */
  const CreatedAt: string := "2024-01-22T00:00:00.000Z"

  /** The dictionary built for one row: its fields unchanged, the fixed date
      and no audio or image field. */
  function RowRecord(r: Row): (w: Word)
    ensures w.id == r.id && w.term == r.term && w.category == r.category && w.level == r.level
    ensures w.examples == r.examples && w.createdAt == CreatedAt
    ensures w.audioUrl == Absent && w.imageUrl == Absent
  {
    Word(r.id, r.term, r.category, r.level, CreatedAt, r.examples, Absent, Absent)
  }

  /** One record per row, in table order. */
  function RowRecords(rows: seq<Row>): (ws: seq<Word>)
    ensures |ws| == |rows| && forall i :: 0 <= i < |rows| ==> ws[i] == RowRecord(rows[i])
  {
    seq(|rows|, i requires 0 <= i < |rows| => RowRecord(rows[i]))
  }

  /** The conversion loop: `words.append(new_word)` for each row in order. */
  method AppendRows(words: RecordList<Word>, rows: seq<Row>)
    modifies words
    ensures words.items == old(words.items) + RowRecords(rows)
  {
    for i := 0 to |rows|
      invariant words.items == old(words.items) + RowRecords(rows[..i])
    {
      assert RowRecords(rows[..i + 1]) == RowRecords(rows[..i]) + [RowRecord(rows[i])];
      words.Append(RowRecord(rows[i]));
    }
    assert rows[..|rows|] == rows;
  }

  /** `words[-1]['id']`, which raises IndexError on an empty list. */
  function LastId(ws: seq<Word>): (r: Option<string>)
    ensures r.None? <==> ws == []
    ensures r.Some? ==> r.value == ws[|ws| - 1].id
  {
    if ws == [] then None else Some(ws[|ws| - 1].id)
  }

  /** The figures the script prints: the count before the appends, the
      number added, the total, the last ID and the level tally. `lastId` is
      None when `words[-1]` raised; the file has been written by then. */
  datatype Report = Report(before: nat, added: nat, total: nat, lastId: Option<string>, levelCounts: map<string, nat>)

  datatype Outcome =
    | Raised(failure: Failure)      // `open` raised; nothing written
    | Written(file: seq<Word>, report: Report)

  /** `main`. A present file receives its records unchanged followed by one
      record per row. The level tally covers the whole file: exactly the
      levels that occur, each with its number of records, adding up to the
      total. */
  method Run(f: JsonFile<Word>, rows: seq<Row>) returns (out: Outcome)
    ensures f.Missing? <==> out == Raised(FileNotFound)
    ensures out.Written? <==> f.Loaded?
    ensures out.Written? ==>
              && out.file == f.items + RowRecords(rows)
              && out.report.before == |f.items|
              && out.report.added == |rows|
              && out.report.total == |out.file|
              && out.report.lastId == LastId(out.file)
              && (forall l :: l in out.report.levelCounts <==> l in WordLevels(out.file))
              && (forall l :: l in out.report.levelCounts ==> out.report.levelCounts[l] == WordsAtLevel(out.file, l))
              && MapSum(out.report.levelCounts) == out.report.total
  {
    if f.Missing? {
      return Raised(FileNotFound);
    }
    var words := new RecordList(f.items);
    AppendRows(words, rows);
    var lastId := LastId(words.items);
    var levelCounts := Tally(WordLevels(words.items));
    out := Written(words.items, Report(|f.items|, |rows|, |words.items|, lastId, levelCounts));
  }

  /** The last ID printed is the last row's, or the last loaded record's when
      there are no rows. */
  lemma LastIdAppend(loaded: seq<Word>, rows: seq<Row>)
    ensures rows != [] ==> LastId(loaded + RowRecords(rows)) == Some(rows[|rows| - 1].id)
    ensures rows == [] ==> LastId(loaded + RowRecords(rows)) == LastId(loaded)
  {
    if rows == [] {
      assert loaded + RowRecords(rows) == loaded;
    }
  }

  /** The table this script carries: 140 rows with IDs "461" to "600" in
      order, each at level A1 or A2. */
  predicate IsNewWordsTable(rows: seq<Row>) {
    && |rows| == 140
    && (forall i :: 0 <= i < |rows| ==> rows[i].id == Render(461 + i))
    && (forall i :: 0 <= i < |rows| ==> rows[i].level == "A1" || rows[i].level == "A2")
  }

  /** With that table the printed range ends at "600". */
  lemma NewWordsLastId(loaded: seq<Word>, rows: seq<Row>)
    requires IsNewWordsTable(rows)
    ensures LastId(loaded + RowRecords(rows)) == Some("600")
  {
    LastIdAppend(loaded, rows);
    assert Render(600) == "600";
  }

  /** The table's IDs count up from 461, so no two new records share one. */
  lemma NewWordsIds(rows: seq<Row>)
    requires IsNewWordsTable(rows)
    ensures CountsUpFrom(RowRecords(rows), 461)
    ensures UniqueIds(RowRecords(rows))
  {
    var added := RowRecords(rows);
    forall k | 0 <= k < |added| ensures IsNumeral(added[k].id) && Value(added[k].id) == 461 + k {
      ValueRender(461 + k);
    }
    AppendFreshUnique([], added, 461);
    assert [] + added == added;
  }

  /** A file whose IDs were unique, numeric and all below 461 keeps its IDs
      unique. */
  lemma NewWordsUnique(loaded: seq<Word>, rows: seq<Row>)
    requires IsNewWordsTable(rows)
    requires UniqueIds(loaded) && NumericIds(loaded)
    requires forall i :: 0 <= i < |loaded| ==> Value(loaded[i].id) < 461
    ensures UniqueIds(loaded + RowRecords(rows))
  {
    NewWordsIds(rows);
    AppendFreshUnique(loaded, RowRecords(rows), 461);
  }

  /** Every row is at level A1 or A2, so those two counts together grow by
      exactly 140. */
  lemma NewWordsLevels(loaded: seq<Word>, rows: seq<Row>)
    requires IsNewWordsTable(rows)
    ensures WordsAtLevel(loaded + RowRecords(rows), "A1") + WordsAtLevel(loaded + RowRecords(rows), "A2")
            == WordsAtLevel(loaded, "A1") + WordsAtLevel(loaded, "A2") + 140
  {
    var added := RowRecords(rows);
    WordsAtLevelAppend(loaded, added, "A1");
    WordsAtLevelAppend(loaded, added, "A2");
    OccurrencesPair(WordLevels(added), "A1", "A2");
  }
}
