/** The shape shared by add_a1_vocabulary.py and add_a2_vocabulary.py: read
    sample_words.json, take `max_id = max(int(w['id']) ...)`, number the
    entries of a sequence of category tables from `max_id + 1` on, one
    record per entry labelled with its table's category and the script's
    level, and `words.extend(new_words)` before writing the list back. */
module GroupedVocabulary {
  import opened Common
  import opened Decimal
  import opened Records
  import opened Stats
  import opened Allocation
  import opened Lists

  /** One tuple of a category table: the term and its examples. */
  datatype Entry = Entry(term: Term, examples: seq<string>)

  /** One category table with the category its records receive. */
  datatype Table = Table(category: string, entries: seq<Entry>)

  /** An entry labelled with its table's category. */
  datatype Row = Row(category: string, entry: Entry)

  /** The dictionary literal of the append loop: the ID as `str(current_id)`,
      the table's category, the script's level, the clock reading with "Z"
      appended and no audio or image field. */
  function MakeWord(id: nat, category: string, level: string, e: Entry, now: string): (w: Word)
    ensures w.id == Render(id) && w.term == e.term && w.examples == e.examples
    ensures w.category == category && w.level == level && w.createdAt == now + "Z"
    ensures w.audioUrl == Absent && w.imageUrl == Absent
  {
    Word(Render(id), e.term, category, level, now + "Z", e.examples, Absent, Absent)
  }

  function TableRows(t: Table): seq<Row> {
    seq(|t.entries|, j requires 0 <= j < |t.entries| => Row(t.category, t.entries[j]))
  }

  function Grouped(tables: seq<Table>): seq<seq<Row>> {
    seq(|tables|, g requires 0 <= g < |tables| => TableRows(tables[g]))
  }

  /** A script's tables: its `i`-th loop appends the entries `entries[i]`
      under the category `categories[i]`. */
  function Labelled(categories: seq<string>, entries: seq<seq<Entry>>): (ts: seq<Table>)
    requires |entries| == |categories|
    ensures |ts| == |categories|
    ensures forall g :: 0 <= g < |ts| ==> ts[g].category == categories[g] && ts[g].entries == entries[g]
    ensures Sizes(ts) == Lengths(entries)
  {
    var ts := seq(|entries|, g requires 0 <= g < |entries| => Table(categories[g], entries[g]));
    assert Sizes(ts) == Lengths(entries);
    ts
  }

  /** All labelled entries, table after table. */
  function Rows(tables: seq<Table>): seq<Row> {
    Flatten(Grouped(tables))
  }

  /** The number of entries of each table. */
  function Sizes(tables: seq<Table>): (ns: seq<nat>)
    ensures |ns| == |tables| && forall g :: 0 <= g < |tables| ==> ns[g] == |tables[g].entries|
  {
    seq(|tables|, g requires 0 <= g < |tables| => |tables[g].entries|)
  }

  /** Records for a run of labelled entries: record `k` gets ID `first + k`
      and the `k`-th clock reading. */
  function BuildRows(rs: seq<Row>, first: nat, level: string, clock: nat -> string): (ws: seq<Word>)
    ensures |ws| == |rs|
  {
    seq(|rs|, k requires 0 <= k < |rs| => MakeWord(first + k, rs[k].category, level, rs[k].entry, clock(k)))
  }

  /** What the append loops leave in `new_words`. */
  function TableWords(tables: seq<Table>, first: nat, level: string, clock: nat -> string): (ws: seq<Word>)
    ensures |ws| == |Rows(tables)|
  {
    BuildRows(Rows(tables), first, level, clock)
  }

  lemma BuildRowsAt(rs: seq<Row>, first: nat, level: string, clock: nat -> string, k: nat)
    requires k < |rs|
    ensures BuildRows(rs, first, level, clock)[k] == MakeWord(first + k, rs[k].category, level, rs[k].entry, clock(k))
  {
  }

  /** One pass of an append loop adds the record of entry `j` of table `g`. */
  lemma AppendStep(tables: seq<Table>, g: nat, j: nat, first: nat, level: string, clock: nat -> string)
    requires g < |tables| && j < |tables[g].entries|
    ensures var done := Flatten(Grouped(tables)[..g]) + Grouped(tables)[g][..j];
            BuildRows(Flatten(Grouped(tables)[..g]) + Grouped(tables)[g][..j + 1], first, level, clock)
            == BuildRows(done, first, level, clock)
               + [MakeWord(first + |done|, tables[g].category, level, tables[g].entries[j], clock(|done|))]
  {
    var done := Flatten(Grouped(tables)[..g]) + Grouped(tables)[g][..j];
    assert done + [Row(tables[g].category, tables[g].entries[j])]
        == Flatten(Grouped(tables)[..g]) + Grouped(tables)[g][..j + 1];
  }

  /** The per-table append loops, run table after table:
      `new_words.append({...}); current_id += 1`. */
  method BuildWords(tables: seq<Table>, first: nat, level: string, clock: nat -> string)
    returns (newWords: seq<Word>)
    ensures newWords == TableWords(tables, first, level, clock)
  {
    newWords := [];
    var currentId := first;
    for g := 0 to |tables|
      invariant newWords == BuildRows(Flatten(Grouped(tables)[..g]), first, level, clock)
      invariant currentId == first + |newWords|
    {
      for j := 0 to |tables[g].entries|
        invariant newWords == BuildRows(Flatten(Grouped(tables)[..g]) + Grouped(tables)[g][..j], first, level, clock)
        invariant currentId == first + |newWords|
      {
        AppendStep(tables, g, j, first, level, clock);
        newWords := newWords + [MakeWord(currentId, tables[g].category, level, tables[g].entries[j], clock(|newWords|))];
        currentId := currentId + 1;
      }
      assert Grouped(tables)[g][..|Grouped(tables)[g]|] == Grouped(tables)[g];
      FlattenSnoc(Grouped(tables), g);
    }
    assert Grouped(tables)[..|tables|] == Grouped(tables);
  }

  /** As many records as the tables have entries. */
  lemma TableWordsCount(tables: seq<Table>, first: nat, level: string, clock: nat -> string)
    ensures |TableWords(tables, first, level, clock)| == Sum(Sizes(tables))
  {
    FlattenLength(Grouped(tables));
    assert Lengths(Grouped(tables)) == Sizes(tables);
  }

  /** The IDs are first, first + 1, ... with no gaps, written canonically. */
  lemma TableWordIds(tables: seq<Table>, first: nat, level: string, clock: nat -> string)
    ensures CountsUpFrom(TableWords(tables, first, level, clock), first)
    ensures forall k :: 0 <= k < |Rows(tables)| ==> TableWords(tables, first, level, clock)[k].id == Render(first + k)
  {
    var ws := TableWords(tables, first, level, clock);
    forall k | 0 <= k < |ws|
      ensures IsNumeral(ws[k].id) && Value(ws[k].id) == first + k && ws[k].id == Render(first + k)
    {
      BuildRowsAt(Rows(tables), first, level, clock, k);
      ValueRender(first + k);
    }
  }

  /** Entry `j` of table `g` becomes the record right after the earlier
      tables' records, with that table's category and the script's level. */
  lemma TableWordOrder(tables: seq<Table>, first: nat, level: string, clock: nat -> string, g: nat, j: nat)
    requires g < |tables| && j < |tables[g].entries|
    ensures var k := Sum(Sizes(tables)[..g]) + j;
            var ws := TableWords(tables, first, level, clock);
            && k < |ws|
            && ws[k].category == tables[g].category && ws[k].level == level
            && ws[k].term == tables[g].entries[j].term && ws[k].examples == tables[g].entries[j].examples
  {
    var gs := Grouped(tables);
    FlattenIndex(gs, g, j);
    FlattenLength(gs[..g]);
    assert Lengths(gs[..g]) == Sizes(tables)[..g];
    BuildRowsAt(Rows(tables), first, level, clock, Sum(Sizes(tables)[..g]) + j);
  }

  /** Every new record is at the script's level. */
  lemma TableWordsLevel(tables: seq<Table>, first: nat, level: string, clock: nat -> string)
    ensures WordsAtLevel(TableWords(tables, first, level, clock), level) == |Rows(tables)|
  {
    var ws := TableWords(tables, first, level, clock);
    forall k | 0 <= k < |ws| ensures ws[k].level == level {
      BuildRowsAt(Rows(tables), first, level, clock, k);
    }
    WordsAtLevelAll(ws, level);
  }

  /** The figures the summary prints. */
  datatype Report = Report(maxId: nat, levelBefore: nat, added: nat, total: nat, levelAfter: nat)

  datatype Outcome =
    | Raised(failure: Failure)      // `open`, `int` or `max` raised; nothing written
    | Written(file: seq<Word>, report: Report)

  /** The file and figures of a run that found `maxId` as the largest
      loaded ID. */
  function Extended(loaded: seq<Word>, maxId: nat, tables: seq<Table>, level: string, clock: nat -> string): (out: Outcome)
    ensures out.Written?
  {
    var added := TableWords(tables, maxId + 1, level, clock);
    Written(loaded + added,
            Report(maxId, WordsAtLevel(loaded, level), |added|, |loaded + added|, WordsAtLevel(loaded + added, level)))
  }

  /** The script's effect as a value: the file it writes and the figures it
      prints, or the exception that stops it first. */
  function Script(f: JsonFile<Word>, tables: seq<Table>, level: string, clock: nat -> string): (out: Outcome)
    ensures f.Missing? ==> out == Raised(FileNotFound)
    ensures f.Loaded? && MaxId(f.items).Err? ==> out == Raised(MaxId(f.items).error)
    ensures f.Loaded? && MaxId(f.items).Ok? ==> out == Extended(f.items, MaxId(f.items).value, tables, level, clock)
  {
    match f
    case Missing => Raised(FileNotFound)
    case Loaded(loaded) =>
      match MaxId(loaded)
      case Err(e) => Raised(e)
      case Ok(m) => Extended(loaded, m, tables, level, clock)
  }

  /** A written file holds the loaded records unchanged, in order, followed
      by the new ones in table order; the first figure is the level count
      before the run. */
  lemma ExtendedFile(loaded: seq<Word>, maxId: nat, tables: seq<Table>, level: string, clock: nat -> string)
    ensures var out := Extended(loaded, maxId, tables, level, clock);
            && out.file[..|loaded|] == loaded
            && out.file[|loaded|..] == TableWords(tables, maxId + 1, level, clock)
            && out.report.maxId == maxId
            && out.report.levelBefore == WordsAtLevel(loaded, level)
  {
    var added := TableWords(tables, maxId + 1, level, clock);
    assert (loaded + added)[..|loaded|] == loaded;
    assert (loaded + added)[|loaded|..] == added;
  }

  /** The new IDs count up from one above `maxId`; when `maxId` bounds every
      loaded ID, IDs that were unique stay unique. */
  lemma ExtendedIds(loaded: seq<Word>, maxId: nat, tables: seq<Table>, level: string, clock: nat -> string)
    requires NumericIds(loaded)
    requires forall i :: 0 <= i < |loaded| ==> Value(loaded[i].id) <= maxId
    ensures var out := Extended(loaded, maxId, tables, level, clock);
            && CountsUpFrom(out.file[|loaded|..], maxId + 1)
            && (UniqueIds(loaded) ==> UniqueIds(out.file))
  {
    var added := TableWords(tables, maxId + 1, level, clock);
    ExtendedFile(loaded, maxId, tables, level, clock);
    TableWordIds(tables, maxId + 1, level, clock);
    if UniqueIds(loaded) {
      AppendFreshUnique(loaded, added, maxId + 1);
    }
  }

  /** Entry `j` of table `g` is written right after the loaded records and
      the earlier tables' entries, with ID `maxId + 1` plus its offset, its
      table's category and the script's level. */
  lemma ExtendedLayout(loaded: seq<Word>, maxId: nat, tables: seq<Table>, level: string, clock: nat -> string, g: nat, j: nat)
    requires g < |tables| && j < |tables[g].entries|
    ensures var file := Extended(loaded, maxId, tables, level, clock).file;
            var k := Sum(Sizes(tables)[..g]) + j;
            && |loaded| + k < |file|
            && MadeFrom(file[|loaded| + k], maxId + 1 + k, tables[g].category, level, tables[g].entries[j])
  {
    var ws := TableWords(tables, maxId + 1, level, clock);
    var k := Sum(Sizes(tables)[..g]) + j;
    ExtendedFile(loaded, maxId, tables, level, clock);
    TableWordOrder(tables, maxId + 1, level, clock, g, j);
    TableWordIds(tables, maxId + 1, level, clock);
    assert (loaded + ws)[|loaded| + k] == ws[k];
  }

  /** Record `w` is entry `e` of a table of `category`, numbered `id` and
      written at `level`. */
  predicate MadeFrom(w: Word, id: nat, category: string, level: string, e: Entry) {
    && w.id == Render(id)
    && w.category == category
    && w.level == level
    && w.term == e.term
    && w.examples == e.examples
  }

  /** One record per table entry is added, the total grows by that number
      and so does the count at the script's level. */
  lemma ExtendedFigures(loaded: seq<Word>, maxId: nat, tables: seq<Table>, level: string, clock: nat -> string)
    ensures var r := Extended(loaded, maxId, tables, level, clock).report;
            && r.added == Sum(Sizes(tables))
            && r.total == |loaded| + r.added
            && r.levelAfter == r.levelBefore + r.added
  {
    var added := TableWords(tables, maxId + 1, level, clock);
    TableWordsCount(tables, maxId + 1, level, clock);
    TableWordsLevel(tables, maxId + 1, level, clock);
    WordsAtLevelAppend(loaded, added, level);
  }

  /** The script for one level: read the file, find the largest ID, build
      the new records, extend the loaded list in place and report. */
  method AddVocabulary(f: JsonFile<Word>, tables: seq<Table>, level: string, clock: nat -> string)
    returns (out: Outcome)
    ensures out == Script(f, tables, level, clock)
  {
    if f.Missing? {
      return Raised(FileNotFound);
    }
    var maxId := MaxId(f.items);
    if maxId.Err? {
      return Raised(maxId.error);
    }
    out := ExtendLoaded(f.items, maxId.value, tables, level, clock);
  }

  /** The part of the script after the largest ID is known: the loaded list
      is extended in place with the new records and the figures are taken. */
  method ExtendLoaded(loaded: seq<Word>, maxId: nat, tables: seq<Table>, level: string, clock: nat -> string)
    returns (out: Outcome)
    ensures out == Extended(loaded, maxId, tables, level, clock)
  {
    var words := new RecordList(loaded);
    var levelBefore := WordsAtLevel(words.items, level);
    var newWords := BuildWords(tables, maxId + 1, level, clock);
    words.Extend(newWords);
    out := Written(words.items, Report(maxId, levelBefore, |newWords|, |words.items|, WordsAtLevel(words.items, level)));
  }
}
