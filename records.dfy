/** The two record schemas of the content store. Free-text fields are kept as
    strings; the model never looks inside them. */
module Records {
  import opened Common
  import opened Stats

  /** The four text fields every vocabulary entry carries. */
  datatype Term = Term(italian: string, chinese: string, english: string, pronunciation: string)

  /** One object of sample_words.json. `audioUrl` and `imageUrl` are written
      by one script only; the others leave them out of the object. */
  datatype Word = Word(
    id: string,
    term: Term,
    category: string,
    level: string,
    createdAt: string,
    examples: seq<string>,
    audioUrl: Slot<string>,
    imageUrl: Slot<string>)

  /** One comprehension question of a reading passage (its prompt texts and
      explanation are free text and not modelled). */
  datatype Question = Question(id: string, kind: string, options: seq<string>, answer: string)

  /** One object of reading_passages.json (its title and body text are not
      modelled). */
  datatype Passage = Passage(
    id: string,
    level: string,
    category: string,
    wordCount: nat,
    estimatedMinutes: nat,
    questions: seq<Question>,
    createdAt: string)

  function WordLevels(ws: seq<Word>): (ls: seq<string>)
    ensures |ls| == |ws| && forall i :: 0 <= i < |ws| ==> ls[i] == ws[i].level
  {
    seq(|ws|, i requires 0 <= i < |ws| => ws[i].level)
  }

  function WordCategories(ws: seq<Word>): (cs: seq<string>)
    ensures |cs| == |ws| && forall i :: 0 <= i < |ws| ==> cs[i] == ws[i].category
  {
    seq(|ws|, i requires 0 <= i < |ws| => ws[i].category)
  }

  function PassageLevels(ps: seq<Passage>): (ls: seq<string>)
    ensures |ls| == |ps| && forall i :: 0 <= i < |ps| ==> ls[i] == ps[i].level
  {
    seq(|ps|, i requires 0 <= i < |ps| => ps[i].level)
  }

  function WordCounts(ps: seq<Passage>): (ns: seq<nat>)
    ensures |ns| == |ps| && forall i :: 0 <= i < |ps| ==> ns[i] == ps[i].wordCount
  {
    seq(|ps|, i requires 0 <= i < |ps| => ps[i].wordCount)
  }

  function Minutes(ps: seq<Passage>): (ns: seq<nat>)
    ensures |ns| == |ps| && forall i :: 0 <= i < |ps| ==> ns[i] == ps[i].estimatedMinutes
  {
    seq(|ps|, i requires 0 <= i < |ps| => ps[i].estimatedMinutes)
  }

  function QuestionCounts(ps: seq<Passage>): (ns: seq<nat>)
    ensures |ns| == |ps| && forall i :: 0 <= i < |ps| ==> ns[i] == |ps[i].questions|
  {
    seq(|ps|, i requires 0 <= i < |ps| => |ps[i].questions|)
  }

  /** Projecting a concatenation is concatenating the projections. */
  lemma ProjectionsAppend(a: seq<Word>, b: seq<Word>)
    ensures WordLevels(a + b) == WordLevels(a) + WordLevels(b)
    ensures WordCategories(a + b) == WordCategories(a) + WordCategories(b)
  {
  }

  lemma PassageProjectionsAppend(a: seq<Passage>, b: seq<Passage>)
    ensures PassageLevels(a + b) == PassageLevels(a) + PassageLevels(b)
    ensures WordCounts(a + b) == WordCounts(a) + WordCounts(b)
    ensures Minutes(a + b) == Minutes(a) + Minutes(b)
    ensures QuestionCounts(a + b) == QuestionCounts(a) + QuestionCounts(b)
  {
  }

  /** `len([w for w in ws if w.get('level') == level])`. */
  function WordsAtLevel(ws: seq<Word>, level: string): (n: nat)
    ensures n <= |ws|
    ensures n > 0 <==> exists i :: 0 <= i < |ws| && ws[i].level == level
  {
    Occurrences(WordLevels(ws), level)
  }

  /** Merging adds the counts of the two parts. */
  lemma WordsAtLevelAppend(a: seq<Word>, b: seq<Word>, level: string)
    ensures WordsAtLevel(a + b, level) == WordsAtLevel(a, level) + WordsAtLevel(b, level)
  {
    ProjectionsAppend(a, b);
    OccurrencesAppend(WordLevels(a), WordLevels(b), level);
  }

  lemma WordsAtLevelAll(ws: seq<Word>, level: string)
    requires forall i :: 0 <= i < |ws| ==> ws[i].level == level
    ensures WordsAtLevel(ws, level) == |ws|
  {
    OccurrencesAll(WordLevels(ws), level);
  }

  /** `len([p for p in ps if p.get('level') == level])`. */
  function PassagesAtLevel(ps: seq<Passage>, level: string): (n: nat)
    ensures n <= |ps|
    ensures n > 0 <==> exists i :: 0 <= i < |ps| && ps[i].level == level
  {
    Occurrences(PassageLevels(ps), level)
  }

  /** `sum([p['wordCount'] for p in ps])`. */
  function TotalWordCount(ps: seq<Passage>): (t: nat)
    ensures ps == [] ==> t == 0
    ensures forall i :: 0 <= i < |ps| ==> ps[i].wordCount <= t
  {
    SumBounds(WordCounts(ps));
    Sum(WordCounts(ps))
  }

  /** `sum([p['estimatedMinutes'] for p in ps])`. */
  function TotalMinutes(ps: seq<Passage>): (t: nat)
    ensures ps == [] ==> t == 0
    ensures forall i :: 0 <= i < |ps| ==> ps[i].estimatedMinutes <= t
  {
    SumBounds(Minutes(ps));
    Sum(Minutes(ps))
  }

  /** The number of questions over all passages. */
  function TotalQuestions(ps: seq<Passage>): nat {
    Sum(QuestionCounts(ps))
  }

  /** Level counts and totals of a merged passage list are those of the old
      list plus those of the new one. */
  lemma PassageFiguresAppend(a: seq<Passage>, b: seq<Passage>, level: string)
    ensures PassagesAtLevel(a + b, level) == PassagesAtLevel(a, level) + PassagesAtLevel(b, level)
    ensures TotalWordCount(a + b) == TotalWordCount(a) + TotalWordCount(b)
    ensures TotalMinutes(a + b) == TotalMinutes(a) + TotalMinutes(b)
    ensures TotalQuestions(a + b) == TotalQuestions(a) + TotalQuestions(b)
  {
    PassageProjectionsAppend(a, b);
    OccurrencesAppend(PassageLevels(a), PassageLevels(b), level);
    SumAppend(WordCounts(a), WordCounts(b));
    SumAppend(Minutes(a), Minutes(b));
    SumAppend(QuestionCounts(a), QuestionCounts(b));
  }

  /** The printed figure `len(passages) * 5` is the real question total when
      every passage has five questions. */
  lemma QuestionFigure(ps: seq<Passage>)
    requires forall i :: 0 <= i < |ps| ==> |ps[i].questions| == 5
    ensures TotalQuestions(ps) == |ps| * 5
  {
    SumConstant(QuestionCounts(ps), 5);
  }

  /** No two records share an ID. */
  predicate UniqueIds(ws: seq<Word>) {
    forall i, j :: 0 <= i < j < |ws| ==> ws[i].id != ws[j].id
  }
}
