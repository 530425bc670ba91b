/** add_a1_vocabulary.py: one hundred basic A1 words in six category tables, numbered from one above the largest existing ID and appended to sample_words.json. */
module A1Vocabulary {
  import opened Common
  import opened Decimal
  import opened Records
  import opened Stats
  import opened Allocation
  import opened Lists
  import opened GroupedVocabulary

  /** The categories of the 6 tables, in the order the script appends them. */
  const Categories: seq<string> := ["颜色", "身体部位", "衣物", "情绪", "天气", "方位词"]

  /** The number of entries of each table. */
  const TableSizes: seq<nat> := [15, 25, 20, 15, 15, 10]

  /** The tables hold 100 entries. */
  lemma TableTotal()
    ensures Sum(TableSizes) == 100
  {
    assert [15][..0] == [];
    assert [15, 25][..1] == [15];
    assert [15, 25, 20][..2] == [15, 25];
    assert [15, 25, 20, 15][..3] == [15, 25, 20];
    assert [15, 25, 20, 15, 15][..4] == [15, 25, 20, 15];
    assert [15, 25, 20, 15, 15, 10][..5] == [15, 25, 20, 15, 15];
  }

  /** With tables of the sizes above, a run adds 100 records at level
      A1: the total and the A1 count both grow by 100. */
  lemma RunFigures(f: JsonFile<Word>, entries: seq<seq<Entry>>, clock: nat -> string)
    requires |entries| == |Categories| && Lengths(entries) == TableSizes
    requires f.Loaded? && MaxId(f.items).Ok?
    ensures var out := Script(f, Labelled(Categories, entries), "A1", clock);
            && out.Written?
            && out.report.added == 100
            && out.report.total == |f.items| + 100
            && out.report.levelAfter == out.report.levelBefore + 100
  {
    ExtendedFigures(f.items, MaxId(f.items).value, Labelled(Categories, entries), "A1", clock);
    TableTotal();
  }

  /** Entry `j` of table `g` is written right after the loaded records and
      the earlier tables' entries, with ID max_id + 1 + its offset, category
      `Categories[g]`, level A1 and the entry's term and examples. */
  lemma RunLayout(loaded: seq<Word>, maxId: nat, entries: seq<seq<Entry>>, clock: nat -> string, g: nat, j: nat)
    requires |entries| == |Categories|
    requires g < |entries| && j < |entries[g]|
    ensures var file := Extended(loaded, maxId, Labelled(Categories, entries), "A1", clock).file;
            var k := Sum(Lengths(entries)[..g]) + j;
            && |loaded| + k < |file|
            && MadeFrom(file[|loaded| + k], maxId + 1 + k, Categories[g], "A1", entries[g][j])
  {
    var ts := Labelled(Categories, entries);
    assert Sizes(ts)[..g] == Lengths(entries)[..g];
    assert ts[g].category == Categories[g] && ts[g].entries == entries[g];
    ExtendedLayout(loaded, maxId, ts, "A1", clock, g, j);
  }
}
