/** add_a1_essential_vocabulary.py: load sample_words.json (empty when the
    file is missing), give up if nothing was loaded, allocate the next ID,
    build one record per entry of seven topic tables with consecutive IDs,
    tally the new records by category and write `existing + new` back. */
module EssentialA1 {
  import opened Common
  import opened Decimal
  import opened Records
  import opened Stats
  import opened Allocation
  import opened Lists

  /** `load_existing_words`: the FileNotFoundError is caught, so a missing
      sample_words.json reads as an empty list; a present one as its contents. */
  function LoadExistingWords(f: JsonFile<Word>): (ws: seq<Word>)
    ensures f.Missing? ==> ws == []
    ensures f.Loaded? ==> ws == f.items
  {
    match f
    case Missing => []
    case Loaded(words) => words
  }

  /** One tuple of a topic table: the term, its category and its examples. */
  datatype Entry = Entry(term: Term, category: string, examples: seq<string>)

  /** The entry a record was built from. */
  function EntryOf(w: Word): Entry {
    Entry(w.term, w.category, w.examples)
  }

  function AudioUrl(id: string): string {
    "assets/audio/words/" + id + ".mp3"
  }

  /** `create_word_data`: the entry's fields unchanged, level "A1", the clock
      reading with ".000Z" appended, an audio path named after the ID and an
      explicit null image. */
  function CreateWordData(id: string, e: Entry, now: string): (w: Word)
    ensures w.id == id && EntryOf(w) == e
    ensures w.level == "A1" && w.createdAt == now + ".000Z"
    ensures w.audioUrl == Present(AudioUrl(id)) && w.imageUrl == Null
  {
    Word(id, e.term, e.category, "A1", now + ".000Z", e.examples, Present(AudioUrl(id)), Null)
  }

  /** The ID the `k`-th new record receives: the start string itself first,
      then `str(int(start) + k)`. */
  function IdAt(start: string, k: nat): (id: string)
    requires k == 0 || IsNumeral(start)
    ensures k > 0 ==> IsCanonical(id) && Value(id) == Value(start) + k
  {
    if k == 0 then start else ValueRender(Value(start) + k); Render(Value(start) + k)
  }

  /** `str(int(current_id) + 1)` moves from the `n`-th ID to the next one. */
  lemma IdStep(start: string, n: nat)
    requires IsNumeral(start)
    ensures IsNumeral(IdAt(start, n))
    ensures Render(Value(IdAt(start, n)) + 1) == IdAt(start, n + 1)
  {
    ValueRender(Value(start) + n);
  }

  /** Records built from a flat run of entries: record `k` gets the `k`-th
      ID and the `k`-th clock reading. */
  function Build(es: seq<Entry>, start: string, clock: nat -> string): (ws: seq<Word>)
    requires es != [] ==> IsNumeral(start)
    ensures |ws| == |es|
  {
    seq(|es|, k requires 0 <= k < |es| => CreateWordData(IdAt(start, k), es[k], clock(k)))
  }

  lemma BuildAt(es: seq<Entry>, start: string, clock: nat -> string, k: nat)
    requires IsNumeral(start) && k < |es|
    ensures Build(es, start, clock)[k] == CreateWordData(IdAt(start, k), es[k], clock(k))
  {
  }

  /** The loop state after the entries `es`: the records built from them
      and the ID the next entry receives. */
  ghost predicate Generated(words: seq<Word>, nextId: string, es: seq<Entry>, start: string, clock: nat -> string) {
    && (es != [] ==> IsNumeral(start))
    && words == Build(es, start, clock)
    && nextId == IdAt(start, |words|)
  }

  /** One pass of the inner loop appends the record of entry `j` of group `g`
      and moves to the next ID. */
  lemma GenerateStep(groups: seq<seq<Entry>>, g: nat, j: nat, start: string, clock: nat -> string,
                     words: seq<Word>, nextId: string)
    requires g < |groups| && j < |groups[g]|
    requires IsNumeral(start)
    requires Generated(words, nextId, Flatten(groups[..g]) + groups[g][..j], start, clock)
    ensures IsNumeral(nextId)
    ensures Render(Value(nextId) + 1) == IdAt(start, |words| + 1)
    ensures Generated(words + [CreateWordData(nextId, groups[g][j], clock(|words|))], IdAt(start, |words| + 1),
                      Flatten(groups[..g]) + groups[g][..j + 1], start, clock)
  {
    SnocSlice(Flatten(groups[..g]), groups[g], j);
    EntryStep(Flatten(groups[..g]) + groups[g][..j], groups[g][j], start, clock, words, nextId);
  }

  lemma SnocSlice<T>(prefix: seq<T>, row: seq<T>, j: nat)
    requires j < |row|
    ensures prefix + row[..j] + [row[j]] == prefix + row[..j + 1]
  {
    assert row[..j + 1] == row[..j] + [row[j]];
  }

  /** Inside the loops there is an entry, so the flattened groups are not
      empty. */
  lemma HasEntry(groups: seq<seq<Entry>>, g: nat, j: nat)
    requires g < |groups| && j < |groups[g]|
    ensures Flatten(groups) != []
  {
    FlattenIndex(groups, g, j);
  }

  /** Appending the record of entry `e` continues the state of `done`. */
  lemma EntryStep(done: seq<Entry>, e: Entry, start: string, clock: nat -> string, words: seq<Word>, nextId: string)
    requires IsNumeral(start)
    requires Generated(words, nextId, done, start, clock)
    ensures IsNumeral(nextId)
    ensures Render(Value(nextId) + 1) == IdAt(start, |words| + 1)
    ensures Generated(words + [CreateWordData(nextId, e, clock(|words|))], IdAt(start, |words| + 1), done + [e], start, clock)
  {
    assert |words| == |done| && nextId == IdAt(start, |words|);
    IdStep(start, |words|);
    BuildSnoc(done, e, start, clock);
  }

  lemma BuildSnoc(es: seq<Entry>, e: Entry, start: string, clock: nat -> string)
    requires IsNumeral(start)
    ensures Build(es + [e], start, clock) == Build(es, start, clock) + [CreateWordData(IdAt(start, |es|), e, clock(|es|))]
  {
    var a, b := Build(es + [e], start, clock), Build(es, start, clock) + [CreateWordData(IdAt(start, |es|), e, clock(|es|))];
    forall k | 0 <= k < |a| ensures a[k] == b[k] {
      if k < |es| {
        assert (es + [e])[k] == es[k];
      }
    }
  }

  /** After the last entry of group `g` the state covers the groups up to
      and including `g`. */
  lemma GroupDone(groups: seq<seq<Entry>>, g: nat, start: string, clock: nat -> string,
                  words: seq<Word>, nextId: string)
    requires g < |groups|
    requires Generated(words, nextId, Flatten(groups[..g]) + groups[g][..|groups[g]|], start, clock)
    ensures Generated(words, nextId, Flatten(groups[..g + 1]), start, clock)
  {
    assert groups[g][..|groups[g]|] == groups[g];
    FlattenSnoc(groups, g);
  }

  /** What `generate_essential_a1_words` returns: one record per entry, in
      group order and then table order. */
  function EssentialWords(groups: seq<seq<Entry>>, start: string, clock: nat -> string): (ws: seq<Word>)
    requires Flatten(groups) != [] ==> IsNumeral(start)
    ensures |ws| == |Flatten(groups)|
  {
    Build(Flatten(groups), start, clock)
  }

  /** The generation loop: `current_id = next_id; next_id = str(int(next_id) + 1)`
      per entry, appending `create_word_data(current_id, ...)`. `int` raises
      when there is an entry and the start is not numeric. */
  method GenerateEssentialA1Words(groups: seq<seq<Entry>>, start: string, clock: nat -> string)
    returns (words: seq<Word>)
    requires Flatten(groups) != [] ==> IsNumeral(start)
    ensures words == EssentialWords(groups, start, clock)
  {
    words := [];
    var nextId := start;
    for g := 0 to |groups|
      invariant Generated(words, nextId, Flatten(groups[..g]), start, clock)
    {
      assert groups[g][..0] == [];
      assert Flatten(groups[..g]) + groups[g][..0] == Flatten(groups[..g]);
      for j := 0 to |groups[g]|
        invariant Generated(words, nextId, Flatten(groups[..g]) + groups[g][..j], start, clock)
      {
        HasEntry(groups, g, j);
        GenerateStep(groups, g, j, start, clock, words, nextId);
        var currentId := nextId;
        nextId := Render(Value(nextId) + 1);
        words := words + [CreateWordData(currentId, groups[g][j], clock(|words|))];
      }
      GroupDone(groups, g, start, clock, words, nextId);
    }
    assert groups[..|groups|] == groups;
  }

  /** The new IDs count up by one from the start with no gaps: record `k`
      has the value start + k, and is written canonically after the first. */
  lemma EssentialIds(groups: seq<seq<Entry>>, start: string, clock: nat -> string, k: nat)
    requires IsNumeral(start)
    requires k < |Flatten(groups)|
    ensures IsNumeral(EssentialWords(groups, start, clock)[k].id)
    ensures Value(EssentialWords(groups, start, clock)[k].id) == Value(start) + k
    ensures IsCanonical(start) ==> EssentialWords(groups, start, clock)[k].id == Render(Value(start) + k)
  {
    BuildAt(Flatten(groups), start, clock, k);
    ValueRender(Value(start) + k);
    if k == 0 && IsCanonical(start) {
      RenderValue(start);
    }
  }

  /** Entry `j` of group `g` becomes the record right after all records of
      the earlier groups. */
  lemma EssentialOrder(groups: seq<seq<Entry>>, start: string, clock: nat -> string, g: nat, j: nat)
    requires g < |groups| && j < |groups[g]|
    requires IsNumeral(start)
    ensures |Flatten(groups[..g])| + j < |EssentialWords(groups, start, clock)|
    ensures EntryOf(EssentialWords(groups, start, clock)[|Flatten(groups[..g])| + j]) == groups[g][j]
  {
    var flat, k := Flatten(groups), |Flatten(groups[..g])| + j;
    FlattenIndex(groups, g, j);
    BuildAt(flat, start, clock, k);
    var w := CreateWordData(IdAt(start, k), flat[k], clock(k));
    assert EntryOf(w) == groups[g][j];
  }

  /** Started from `get_next_id`, every new ID is distinct and above every
      existing one, so IDs that were unique stay unique after the merge. */
  lemma EssentialIdsFresh(existing: seq<Word>, groups: seq<seq<Entry>>, clock: nat -> string)
    requires GetNextId(existing).Ok?
    requires UniqueIds(existing)
    ensures var start := GetNextId(existing).value;
            var added := EssentialWords(groups, start, clock);
            && CountsUpFrom(added, Value(start))
            && UniqueIds(added)
            && UniqueIds(Merge(existing, added))
            && forall i, k :: 0 <= i < |existing| && 0 <= k < |added| ==>
                 Value(existing[i].id) < Value(added[k].id)
  {
    var start := GetNextId(existing).value;
    var added := EssentialWords(groups, start, clock);
    forall k | 0 <= k < |added|
      ensures IsNumeral(added[k].id) && Value(added[k].id) == Value(start) + k
    {
      EssentialIds(groups, start, clock, k);
    }
    AppendFreshUnique(existing, added, Value(start));
  }

  /** The sizes of the seven topic tables (time, places, transport, jobs,
      body, directions, furniture). */
  const TableSizes: seq<nat> := [43, 35, 26, 29, 25, 15, 21]

  /** The seven tables hold 194 entries. */
  lemma TableTotal()
    ensures Sum(TableSizes) == 194
  {
    assert [43][..0] == [];
    assert [43, 35][..1] == [43];
    assert [43, 35, 26][..2] == [43, 35];
    assert [43, 35, 26, 29][..3] == [43, 35, 26];
    assert [43, 35, 26, 29, 25][..4] == [43, 35, 26, 29];
    assert [43, 35, 26, 29, 25, 15][..5] == [43, 35, 26, 29, 25];
    assert [43, 35, 26, 29, 25, 15, 21][..6] == [43, 35, 26, 29, 25, 15];
  }

  /** Every generated record is at level A1. */
  lemma EssentialAllA1(groups: seq<seq<Entry>>, start: string, clock: nat -> string)
    requires Flatten(groups) != [] ==> IsNumeral(start)
    ensures WordsAtLevel(EssentialWords(groups, start, clock), "A1") == |Flatten(groups)|
  {
    var ws := EssentialWords(groups, start, clock);
    forall i | 0 <= i < |ws| ensures ws[i].level == "A1" {
      BuildAt(Flatten(groups), start, clock, i);
    }
    WordsAtLevelAll(ws, "A1");
  }

  /** The figures `main` and the generator print: the number of records
      loaded, the first new ID, the size of each group, the number added, the
      category tally, the total and the A1 count. */
  datatype Report = Report(loaded: nat, nextId: string, groupSizes: seq<nat>, added: nat,
                           categories: map<string, nat>, total: nat, a1Count: nat)

  datatype Outcome =
    | Aborted                       // nothing loaded: `main` returns before writing
    | Raised(failure: Failure)      // `int(word['id'])` raised in `get_next_id`
    | Written(file: seq<Word>, report: Report)

  /** `main`. Nothing is written when the load yields an empty list or an ID
      does not parse. Otherwise the file receives the existing records
      followed by the generated ones, and the report's tallies count the new
      records by category and the merged records at level A1. */
  method Run(f: JsonFile<Word>, groups: seq<seq<Entry>>, clock: nat -> string) returns (out: Outcome)
    ensures out.Aborted? <==> LoadExistingWords(f) == []
    ensures out.Raised? <==> LoadExistingWords(f) != [] && !NumericIds(LoadExistingWords(f))
    ensures out.Raised? ==> GetNextId(LoadExistingWords(f)) == Err(out.failure)
    ensures out.Written? ==>
              var existing := LoadExistingWords(f);
              var r := out.report;
              && r.loaded == |existing|
              && GetNextId(existing) == Ok(r.nextId)
              && r.groupSizes == Lengths(groups)
              && out.file == Merge(existing, EssentialWords(groups, r.nextId, clock))
              && r.added == |Flatten(groups)| == Sum(Lengths(groups))
              && (forall c :: c in r.categories <==> c in WordCategories(out.file[|existing|..]))
              && (forall c :: c in r.categories ==>
                    r.categories[c] == Occurrences(WordCategories(out.file[|existing|..]), c))
              && MapSum(r.categories) == r.added
              && r.total == |existing| + r.added
              && r.a1Count == WordsAtLevel(existing, "A1") + r.added
    ensures out.Written? && Lengths(groups) == TableSizes ==> out.report.added == 194
  {
    var existing := LoadExistingWords(f);
    if existing == [] {
      return Aborted;
    }
    var next := GetNextId(existing);
    if next.Err? {
      return Raised(next.error);
    }
    var nextId := next.value;
    var newWords := GenerateEssentialA1Words(groups, nextId, clock);
    var categories := Tally(WordCategories(newWords));
    var allWords := Merge(existing, newWords);
    WordsAtLevelAppend(existing, newWords, "A1");
    EssentialAllA1(groups, nextId, clock);
    FlattenLength(groups);
    if Lengths(groups) == TableSizes {
      TableTotal();
    }
    var a1Count := WordsAtLevel(allWords, "A1");
    out := Written(allWords, Report(|existing|, nextId, Lengths(groups), |newWords|, categories, |allWords|, a1Count));
  }
}
