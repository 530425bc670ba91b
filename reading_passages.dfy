/** add_reading_passages.py: read reading_passages.json, append ten new
    passages (three at level A1, seven at A2), each with five comprehension
    questions, write the list back and report level counts, the total word
    count, the question figure and the total reading time. */
module ReadingPassages {
  import opened Common
  import opened Decimal
  import opened Records
  import opened Stats
  import opened Lists

  /** The question IDs of every passage, in order. */
  const QuestionIds: seq<string> := ["q1", "q2", "q3", "q4", "q5"]

  /** The two options of a true/false question: "true", "false". */
  const TrueFalse: seq<string> := ["真", "假"]

  /** Question `k` of a passage: its ID is `q1`..`q5` by position, a choice
      question offers four options and a true/false question the two fixed
      ones, and the answer is one of the options. */
  predicate WellFormedQuestion(q: Question, k: nat)
    requires k < |QuestionIds|
  {
    && q.id == QuestionIds[k]
    && ((q.kind == "choice" && |q.options| == 4) || (q.kind == "true_false" && q.options == TrueFalse))
    && q.answer in q.options
  }

  /** A passage at level A1 or A2 with five well-formed questions. */
  predicate WellFormedPassage(p: Passage) {
    && (p.level == "A1" || p.level == "A2")
    && |p.questions| == 5
    && forall k :: 0 <= k < 5 ==> WellFormedQuestion(p.questions[k], k)
  }

  /** reading_011 (A1, 实用文本). */
  function Reading011(now: string): (p: Passage)
    ensures WellFormedPassage(p)
  {
    Passage("reading_011", "A1", "实用文本", 78, 2, [
      Question("q1", "choice", ["0,80€", "1,50€", "2,00€", "2,30€"], "1,50€"),
      Question("q2", "choice", ["8:00", "9:00", "13:00", "20:00"], "9:00"),
      Question("q3", "choice", ["0,99€", "2,00€", "2,30€", "8,50€"], "2,30€"),
      Question("q4", "true_false", ["真", "假"], "真"),
      Question("q5", "choice", ["鸡肉", "新鲜鱼", "奶酪", "西红柿"], "新鲜鱼")
    ], now + "Z")
  }

  /** reading_012 (A1, 实用文本). */
  function Reading012(now: string): (p: Passage)
    ensures WellFormedPassage(p)
  {
    Passage("reading_012", "A1", "实用文本", 96, 2, [
      Question("q1", "choice", ["Il Grande Blu", "La Dolce Vita", "Amore a Firenze", "Avventura a Roma"], "La Dolce Vita"),
      Question("q2", "choice", ["5€", "7€", "10€", "12€"], "7€"),
      Question("q3", "true_false", ["真", "假"], "真"),
      Question("q4", "choice", ["喜剧", "纪录片", "浪漫片", "经典片"], "浪漫片"),
      Question("q5", "choice", ["5€", "7€", "10€", "免费"], "5€")
    ], now + "Z")
  }

  /** reading_013 (A1, 实用文本). */
  function Reading013(now: string): (p: Passage)
    ensures WellFormedPassage(p)
  {
    Passage("reading_013", "A1", "实用文本", 89, 2, [
      Question("q1", "choice", ["1", "2", "3", "4"], "3"),
      Question("q2", "choice", ["850€", "1.000€", "1.200€", "1.500€"], "1.200€"),
      Question("q3", "true_false", ["真", "假"], "真"),
      Question("q4", "choice", ["1楼", "2楼", "3楼", "5楼"], "3楼"),
      Question("q5", "true_false", ["真", "假"], "真")
    ], now + "Z")
  }

  /** reading_014 (A2, 实用文本). */
  function Reading014(now: string): (p: Passage)
    ensures WellFormedPassage(p)
  {
    Passage("reading_014", "A2", "实用文本", 134, 3, [
      Question("q1", "choice", ["10°C", "12°C", "15°C", "16°C"], "12°C"),
      Question("q2", "choice", ["北部", "中部", "西西里", "全国"], "西西里"),
      Question("q3", "true_false", ["真", "假"], "真"),
      Question("q4", "choice", ["北部", "中部", "南部", "都一样"], "南部"),
      Question("q5", "choice", ["待在家", "带雨伞去北部和西西里", "去海滩", "待在室内"], "带雨伞去北部和西西里")
    ], now + "Z")
  }

  /** reading_015 (A2, 实用文本). */
  function Reading015(now: string): (p: Passage)
    ensures WellFormedPassage(p)
  {
    Passage("reading_015", "A2", "实用文本", 162, 3, [
      Question("q1", "choice", ["飞机", "火车", "汽车", "船"], "火车"),
      Question("q2", "choice", ["里亚托桥", "运河", "圣马可广场", "餐厅"], "圣马可广场"),
      Question("q3", "choice", ["睡觉", "坐贡多拉和参观里亚托桥", "回米兰", "去佛罗伦萨"], "坐贡多拉和参观里亚托桥"),
      Question("q4", "true_false", ["真", "假"], "假"),
      Question("q5", "choice", ["45", "87", "1234", "162"], "1234")
    ], now + "Z")
  }

  /** reading_016 (A2, 工作学习). */
  function Reading016(now: string): (p: Passage)
    ensures WellFormedPassage(p)
  {
    Passage("reading_016", "A2", "工作学习", 156, 3, [
      Question("q1", "choice", ["1月15日", "1月22日下午2点", "1月22日上午", "周五"], "1月22日下午2点"),
      Question("q2", "choice", ["一楼", "二楼", "三楼会议室", "办公室"], "三楼会议室"),
      Question("q3", "choice", ["Tech Italia", "Marco Bianchi", "Milano Fashion Week", "不知道"], "Milano Fashion Week"),
      Question("q4", "true_false", ["真", "假"], "真"),
      Question("q5", "choice", ["星期一", "立即", "星期五之前", "1月22日"], "星期五之前")
    ], now + "Z")
  }

  /** reading_017 (A2, 文化). */
  function Reading017(now: string): (p: Passage)
    ensures WellFormedPassage(p)
  {
    Passage("reading_017", "A2", "文化", 192, 3, [
      Question("q1", "choice", ["3天", "5天", "7天", "10天"], "5天"),
      Question("q2", "choice", ["15.000", "22.000", "50.000", "80.000"], "50.000"),
      Question("q3", "choice", ["Laura", "市长", "Marco Mengoni", "文中未提及"], "Marco Mengoni"),
      Question("q4", "true_false", ["真", "假"], "真"),
      Question("q5", "choice", ["2025", "2026", "今年", "不知道"], "2026")
    ], now + "Z")
  }

  /** reading_018 (A2, 日常生活). */
  function Reading018(now: string): (p: Passage)
    ensures WellFormedPassage(p)
  {
    Passage("reading_018", "A2", "日常生活", 238, 3, [
      Question("q1", "choice", ["5-6小时", "7-8小时", "8-10小时", "10小时以上"], "7-8小时"),
      Question("q2", "choice", ["10分钟", "20分钟", "30分钟", "1小时"], "30分钟"),
      Question("q3", "choice", ["1升", "2升", "3升", "文中未提及"], "2升"),
      Question("q4", "true_false", ["真", "假"], "假"),
      Question("q5", "choice", ["多工作", "阅读、听音乐、冥想或瑜伽", "多睡觉", "多吃东西"], "阅读、听音乐、冥想或瑜伽")
    ], now + "Z")
  }

  /** reading_019 (A2, 日常生活). */
  function Reading019(now: string): (p: Passage)
    ensures WellFormedPassage(p)
  {
    Passage("reading_019", "A2", "日常生活", 242, 3, [
      Question("q1", "choice", ["工作晚餐", "庆祝周年纪念", "朋友聚会", "生日派对"], "庆祝周年纪念"),
      Question("q2", "choice", ["松露馄饨", "肉酱面", "意大利面", "烩饭"], "肉酱面"),
      Question("q3", "choice", ["65€", "75€", "85€", "95€"], "85€"),
      Question("q4", "true_false", ["真", "假"], "假"),
      Question("q5", "choice", ["避免去这家餐厅", "自带食物", "提前预订", "只点甜点"], "提前预订")
    ], now + "Z")
  }

  /** reading_020 (A2, 旅游). */
  function Reading020(now: string): (p: Passage)
    ensures WellFormedPassage(p)
  {
    Passage("reading_020", "A2", "旅游", 278, 4, [
      Question("q1", "choice", ["8:00", "9:00", "10:00", "11:00"], "9:00"),
      Question("q2", "choice", ["披萨", "意大利面", "佛罗伦萨牛排", "提拉米苏"], "佛罗伦萨牛排"),
      Question("q3", "choice", ["乌菲兹美术馆", "老桥", "米开朗基罗广场", "圣十字教堂"], "米开朗基罗广场"),
      Question("q4", "true_false", ["真", "假"], "真"),
      Question("q5", "choice", ["租车", "穿舒适的鞋", "早上5点出发", "带很多钱"], "穿舒适的鞋")
    ], now + "Z")
  }

  /** `new_passages` after the ten appends: passage `k` carries the `k`-th
      clock reading. */
  function NewPassages(clock: nat -> string): (ps: seq<Passage>)
    ensures |ps| == 10
  {
    [Reading011(clock(0)), Reading012(clock(1)), Reading013(clock(2)), Reading014(clock(3)), Reading015(clock(4)),
     Reading016(clock(5)), Reading017(clock(6)), Reading018(clock(7)), Reading019(clock(8)), Reading020(clock(9))]
  }

  /** Every new passage is well formed and carries its own clock reading. */
  lemma NewPassagesWellFormed(clock: nat -> string)
    ensures var ps := NewPassages(clock);
            forall i :: 0 <= i < |ps| ==> WellFormedPassage(ps[i]) && ps[i].createdAt == clock(i) + "Z"
  {
  }

  /** The new passages continue the numbering reading_011, reading_012, ...,
      reading_020, so no two share an ID. */
  lemma NewPassageIds(clock: nat -> string)
    ensures var ps := NewPassages(clock);
            && (forall i :: 0 <= i < |ps| ==> ps[i].id == "reading_0" + Render(11 + i))
            && (forall i, j :: 0 <= i < j < |ps| ==> ps[i].id != ps[j].id)
  {
    var ps := NewPassages(clock);
    assert PassageIds(ps) == NewIds;
    NewIdsNumbered();
    NumberedIdsDistinct(ps);
  }

  /** The IDs of the ten new passages, as written in the script. */
  const NewIds: seq<string> := [
    "reading_011", "reading_012", "reading_013", "reading_014", "reading_015",
    "reading_016", "reading_017", "reading_018", "reading_019", "reading_020"]

  function PassageIds(ps: seq<Passage>): (ids: seq<string>)
    ensures |ids| == |ps| && forall i :: 0 <= i < |ps| ==> ids[i] == ps[i].id
  {
    seq(|ps|, i requires 0 <= i < |ps| => ps[i].id)
  }

  lemma NewIdsNumbered()
    ensures forall i :: 0 <= i < |NewIds| ==> NewIds[i] == "reading_0" + Render(11 + i)
  {
    forall i | 0 <= i < |NewIds| ensures NewIds[i] == "reading_0" + Render(11 + i) {
      var n := 11 + i;
      assert Render(n) == Render(n / 10) + [DigitChar(n % 10)];
    }
  }

  /** Passages numbered `reading_0` followed by 11, 12, ... have distinct IDs. */
  lemma NumberedIdsDistinct(ps: seq<Passage>)
    requires forall i :: 0 <= i < |ps| ==> ps[i].id == "reading_0" + Render(11 + i)
    ensures forall i, j :: 0 <= i < j < |ps| ==> ps[i].id != ps[j].id
  {
    forall i, j | 0 <= i < j < |ps| ensures ps[i].id != ps[j].id {
      var a, b := Render(11 + i), Render(11 + j);
      RenderInjective(11 + i, 11 + j);
      PrefixCancel("reading_0", a, b);
    }
  }

  lemma PrefixCancel(p: string, a: string, b: string)
    ensures p + a == p + b ==> a == b
  {
    assert (p + a)[|p|..] == a;
    assert (p + b)[|p|..] == b;
  }

  /** The first three new passages are at level A1 and the other seven at A2. */
  lemma NewPassageLevels(clock: nat -> string)
    ensures var ps := NewPassages(clock);
            && (forall i :: 0 <= i < |ps| ==> (ps[i].level == "A1" <==> i < 3))
            && PassagesAtLevel(ps, "A1") == 3
            && PassagesAtLevel(ps, "A2") == 7
  {
    var ps := NewPassages(clock);
    assert PassageLevels(ps) == ["A1", "A1", "A1", "A2", "A2", "A2", "A2", "A2", "A2", "A2"];
    SplitLevels(ps);
  }

  /** Counting the levels of a list whose first three passages are A1 and
      whose other seven are A2. */
  lemma SplitLevels(ps: seq<Passage>)
    requires PassageLevels(ps) == ["A1", "A1", "A1", "A2", "A2", "A2", "A2", "A2", "A2", "A2"]
    ensures forall i :: 0 <= i < |ps| ==> (ps[i].level == "A1" <==> i < 3)
    ensures PassagesAtLevel(ps, "A1") == 3 && PassagesAtLevel(ps, "A2") == 7
  {
    var a1, a2 := PassageLevels(ps[..3]), PassageLevels(ps[3..]);
    assert ps == ps[..3] + ps[3..];
    PassageProjectionsAppend(ps[..3], ps[3..]);
    OccurrencesAll(a1, "A1");
    OccurrencesAll(a2, "A2");
    OccurrencesAppend(a1, a2, "A1");
    OccurrencesAppend(a1, a2, "A2");
    assert "A2" !in a1 && "A1" !in a2;
  }

  /** The ten new passages hold 1665 words, take 28 minutes to read and ask
      50 questions. */
  lemma NewPassageTotals(clock: nat -> string)
    ensures var ps := NewPassages(clock);
            && TotalWordCount(ps) == 1665
            && TotalMinutes(ps) == 28
            && TotalQuestions(ps) == 50
  {
    var ps := NewPassages(clock);
    assert WordCounts(ps) == [78, 96, 89, 134, 162, 156, 192, 238, 242, 278];
    WordTotal(WordCounts(ps));
    assert Minutes(ps) == [2, 2, 2, 3, 3, 3, 3, 3, 3, 4];
    MinuteTotal(Minutes(ps));
    SumConstant(QuestionCounts(ps), 5);
  }

  lemma WordTotal(ns: seq<nat>)
    requires ns == [78, 96, 89, 134, 162, 156, 192, 238, 242, 278]
    ensures Sum(ns) == 1665
  {
    assert [78][..0] == [];
    assert [78, 96][..1] == [78];
    assert [78, 96, 89][..2] == [78, 96];
    assert [78, 96, 89, 134][..3] == [78, 96, 89];
    assert [78, 96, 89, 134, 162][..4] == [78, 96, 89, 134];
    assert [78, 96, 89, 134, 162, 156][..5] == [78, 96, 89, 134, 162];
    assert [78, 96, 89, 134, 162, 156, 192][..6] == [78, 96, 89, 134, 162, 156];
    assert [78, 96, 89, 134, 162, 156, 192, 238][..7] == [78, 96, 89, 134, 162, 156, 192];
    assert [78, 96, 89, 134, 162, 156, 192, 238, 242][..8] == [78, 96, 89, 134, 162, 156, 192, 238];
    assert ns[..9] == [78, 96, 89, 134, 162, 156, 192, 238, 242];
  }

  lemma MinuteTotal(ns: seq<nat>)
    requires ns == [2, 2, 2, 3, 3, 3, 3, 3, 3, 4]
    ensures Sum(ns) == 28
  {
    assert [2][..0] == [];
    assert [2, 2][..1] == [2];
    assert [2, 2, 2][..2] == [2, 2];
    assert [2, 2, 2, 3][..3] == [2, 2, 2];
    assert [2, 2, 2, 3, 3][..4] == [2, 2, 2, 3];
    assert [2, 2, 2, 3, 3, 3][..5] == [2, 2, 2, 3, 3];
    assert [2, 2, 2, 3, 3, 3, 3][..6] == [2, 2, 2, 3, 3, 3];
    assert [2, 2, 2, 3, 3, 3, 3, 3][..7] == [2, 2, 2, 3, 3, 3, 3];
    assert [2, 2, 2, 3, 3, 3, 3, 3, 3][..8] == [2, 2, 2, 3, 3, 3, 3, 3];
    assert ns[..9] == [2, 2, 2, 3, 3, 3, 3, 3, 3];
  }

  /** The figures the summary prints: the counts before the run, the number
      added, and the counts and totals of the merged list. `questionFigure`
      is the printed `len(passages) * 5`. */
  datatype Report = Report(
    before: nat, a1Before: nat, a2Before: nat,
    added: nat, total: nat, a1After: nat, a2After: nat,
    totalWords: nat, questionFigure: nat, totalMinutes: nat)

  datatype Outcome =
    | Raised(failure: Failure)      // `open` raised; nothing written
    | Written(file: seq<Passage>, report: Report)

  /** The outcome of extending `loaded` with `added` and taking the figures. */
  function Extended(loaded: seq<Passage>, added: seq<Passage>): (out: Outcome)
    ensures out.Written? && out.file == loaded + added
  {
    var file := loaded + added;
    Written(file, Report(
      |loaded|, PassagesAtLevel(loaded, "A1"), PassagesAtLevel(loaded, "A2"),
      |added|, |file|, PassagesAtLevel(file, "A1"), PassagesAtLevel(file, "A2"),
      TotalWordCount(file), |file| * 5, TotalMinutes(file)))
  }

  /** The script's effect as a value. */
  function Script(f: JsonFile<Passage>, clock: nat -> string): (out: Outcome)
    ensures f.Missing? <==> out == Raised(FileNotFound)
    ensures f.Loaded? ==> out == Extended(f.items, NewPassages(clock))
  {
    match f
    case Missing => Raised(FileNotFound)
    case Loaded(loaded) => Extended(loaded, NewPassages(clock))
  }

  /** The whole script: the passages are extended in place with the new ones
      before the figures are taken. */
  method AddReadingPassages(f: JsonFile<Passage>, clock: nat -> string) returns (out: Outcome)
    ensures out == Script(f, clock)
  {
    if f.Missing? {
      return Raised(FileNotFound);
    }
    var passages := new RecordList(f.items);
    var before := |passages.items|;
    var a1Before := PassagesAtLevel(passages.items, "A1");
    var a2Before := PassagesAtLevel(passages.items, "A2");
    var newPassages := NewPassages(clock);
    passages.Extend(newPassages);
    var file := passages.items;
    out := Written(file, Report(
      before, a1Before, a2Before, |newPassages|, |file|,
      PassagesAtLevel(file, "A1"), PassagesAtLevel(file, "A2"),
      TotalWordCount(file), |file| * 5, TotalMinutes(file)));
  }

  /** Extending adds the new list's size, level counts, words and minutes to
      the old list's. The printed question figure is the real question total
      when every passage has five questions. */
  lemma ExtendedFigures(loaded: seq<Passage>, added: seq<Passage>)
    ensures var r := Extended(loaded, added).report;
            && r.before == |loaded| && r.added == |added|
            && r.total == |loaded| + |added|
            && r.a1Before == PassagesAtLevel(loaded, "A1")
            && r.a2Before == PassagesAtLevel(loaded, "A2")
            && r.a1After == r.a1Before + PassagesAtLevel(added, "A1")
            && r.a2After == r.a2Before + PassagesAtLevel(added, "A2")
            && r.totalWords == TotalWordCount(loaded) + TotalWordCount(added)
            && r.totalMinutes == TotalMinutes(loaded) + TotalMinutes(added)
            && ((forall i :: 0 <= i < |loaded + added| ==> |(loaded + added)[i].questions| == 5) ==>
                  r.questionFigure == TotalQuestions(loaded + added))
  {
    PassageFiguresAppend(loaded, added, "A1");
    PassageFiguresAppend(loaded, added, "A2");
    if forall i :: 0 <= i < |loaded + added| ==> |(loaded + added)[i].questions| == 5 {
      QuestionFigure(loaded + added);
    }
  }

  /** A run adds ten passages: three to the A1 count and seven to the A2
      count. */
  lemma ScriptCounts(loaded: seq<Passage>, clock: nat -> string)
    ensures var r := Script(Loaded(loaded), clock).report;
            && r.before == |loaded|
            && r.added == 10
            && r.total == |loaded| + 10
            && r.a1After == r.a1Before + 3
            && r.a2After == r.a2Before + 7
  {
    NewPassageLevels(clock);
    ExtendedFigures(loaded, NewPassages(clock));
  }

  /** A run adds 1665 words and 28 minutes to the totals. */
  lemma ScriptTotals(loaded: seq<Passage>, clock: nat -> string)
    ensures var r := Script(Loaded(loaded), clock).report;
            && r.totalWords == TotalWordCount(loaded) + 1665
            && r.totalMinutes == TotalMinutes(loaded) + 28
  {
    NewPassageTotals(clock);
    ExtendedFigures(loaded, NewPassages(clock));
  }

  /** The printed question figure is the real question total when every
      loaded passage has five questions. */
  lemma ScriptQuestionFigure(loaded: seq<Passage>, clock: nat -> string)
    requires forall i :: 0 <= i < |loaded| ==> |loaded[i].questions| == 5
    ensures var out := Script(Loaded(loaded), clock);
            out.report.questionFigure == TotalQuestions(out.file)
  {
    var ps := NewPassages(clock);
    NewPassagesWellFormed(clock);
    AllFiveQuestions(loaded, ps);
    ExtendedFigures(loaded, ps);
  }

  lemma AllFiveQuestions(loaded: seq<Passage>, added: seq<Passage>)
    requires forall i :: 0 <= i < |loaded| ==> |loaded[i].questions| == 5
    requires forall i :: 0 <= i < |added| ==> WellFormedPassage(added[i])
    ensures forall i :: 0 <= i < |loaded + added| ==> |(loaded + added)[i].questions| == 5
  {
    forall i | 0 <= i < |loaded + added| ensures |(loaded + added)[i].questions| == 5 {
      if i >= |loaded| {
        assert (loaded + added)[i] == added[i - |loaded|];
      }
    }
  }

  /** From the ten passages the script expects (four A1, six A2) it reaches
      twenty: seven A1 and thirteen A2. */
  lemma ScriptTarget(loaded: seq<Passage>, clock: nat -> string)
    requires |loaded| == 10
    requires PassagesAtLevel(loaded, "A1") == 4 && PassagesAtLevel(loaded, "A2") == 6
    ensures var r := Script(Loaded(loaded), clock).report;
            r.total == 20 && r.a1After == 7 && r.a2After == 13
  {
    ScriptCounts(loaded, clock);
  }
}
