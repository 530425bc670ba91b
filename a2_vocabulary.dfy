/** add_a2_vocabulary.py: one hundred and fifty A2 words in five category tables, numbered from one above the largest existing ID and appended to sample_words.json. */
module A2Vocabulary {
  import opened Common
  import opened Decimal
  import opened Records
  import opened Stats
  import opened Allocation
  import opened Lists
  import opened GroupedVocabulary

  /** The categories of the 5 tables, in the order the script appends them. */
  const Categories: seq<string> := ["通讯科技", "娱乐运动", "抽象概念", "工作学习", "社交关系"]

  /** The number of entries of each table. */
  const TableSizes: seq<nat> := [35, 30, 30, 30, 25]

  /** The tables hold 150 entries. */
  lemma TableTotal()
    ensures Sum(TableSizes) == 150
  {
    assert [35][..0] == [];
    assert [35, 30][..1] == [35];
    assert [35, 30, 30][..2] == [35, 30];
    assert [35, 30, 30, 30][..3] == [35, 30, 30];
    assert [35, 30, 30, 30, 25][..4] == [35, 30, 30, 30];
  }

  /** With tables of the sizes above, a run adds 150 records at level
      A2: the total and the A2 count both grow by 150. */
  lemma RunFigures(f: JsonFile<Word>, entries: seq<seq<Entry>>, clock: nat -> string)
    requires |entries| == |Categories| && Lengths(entries) == TableSizes
    requires f.Loaded? && MaxId(f.items).Ok?
    ensures var out := Script(f, Labelled(Categories, entries), "A2", clock);
            && out.Written?
            && out.report.added == 150
            && out.report.total == |f.items| + 150
            && out.report.levelAfter == out.report.levelBefore + 150
  {
    ExtendedFigures(f.items, MaxId(f.items).value, Labelled(Categories, entries), "A2", clock);
    TableTotal();
  }

  /** Entry `j` of table `g` is written right after the loaded records and
      the earlier tables' entries, with ID max_id + 1 + its offset, category
      `Categories[g]`, level A2 and the entry's term and examples. */
  lemma RunLayout(loaded: seq<Word>, maxId: nat, entries: seq<seq<Entry>>, clock: nat -> string, g: nat, j: nat)
    requires |entries| == |Categories|
    requires g < |entries| && j < |entries[g]|
    ensures var file := Extended(loaded, maxId, Labelled(Categories, entries), "A2", clock).file;
            var k := Sum(Lengths(entries)[..g]) + j;
            && |loaded| + k < |file|
            && MadeFrom(file[|loaded| + k], maxId + 1 + k, Categories[g], "A2", entries[g][j])
  {
    var ts := Labelled(Categories, entries);
    assert Sizes(ts)[..g] == Lengths(entries)[..g];
    assert ts[g].category == Categories[g] && ts[g].entries == entries[g];
    ExtendedLayout(loaded, maxId, ts, "A2", clock, g, j);
  }
}
