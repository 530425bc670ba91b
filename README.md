# Italian learning content scripts, modelled in Dafny

The repository ships five one-off dataset scripts that grow the app's JSON
content files. Four of them append vocabulary records to
`assets/data/sample_words.json`, and one appends reading passages to
`assets/data/reading_passages.json`. Each script follows the same pattern:

1. load the list;
2. allocate IDs (add_vocabulary.py and add_reading_passages.py carry literal IDs instead);
3. build records;
4. append them;
5. count and print figures.

This project models that layer:

- **Common** (`common.dfy`): the loaded file (`Missing` or `Loaded(items)`)
  and the exceptions that stop a script before it writes anything.
- **Decimal** (`decimal.dfy`): IDs are decimal strings. The model covers
  `int(s)` (`Parse`, `Value`) and `str(n)` (`Render`), and proves that the
  two round-trip.
- **Records** (`records.dfy`): the word and passage schemas, plus the
  filtered counts and sums the scripts print.
- **Stats** (`stats.dfy`): occurrence counts and sums. `Tally` is the
  `d[k] = d.get(k, 0) + 1` loop.
- **Allocation** (`allocation.dfy`): the inline `max(int(w['id']) ...)` of
  the A1 and A2 scripts, and `get_next_id`.
- **Lists** (`lists.dfy`): the in-memory list and its in-place
  `append`/`extend` (class `RecordList`), the `existing + new` merge, and
  the flattening of group tables that the nested loops walk.
- One module per script:
  - **EssentialA1**: add_a1_essential_vocabulary.py.
  - **GroupedVocabulary**: the shape shared by add_a1_vocabulary.py and
    add_a2_vocabulary.py.
  - **A1Vocabulary** and **A2Vocabulary**: those two scripts. Each holds
    only its category labels and table sizes, plus the lemmas about its
    figures and layout. A run is `GroupedVocabulary.AddVocabulary` applied to
    `Labelled(Categories, entries)` and the script's level.
  - **TableVocabulary**: add_vocabulary.py.
  - **ReadingPassages**: add_reading_passages.py.

Each script is modelled the same way:

- A method follows the source's loops and in-place updates.
- It is proved equal to a pure `Script`/`Extended` function, or its
  contract states the new file and figures directly.
- Lemmas prove the promised properties about that function:
  - the loaded records are an unchanged prefix;
  - IDs are consecutive from the right start and unique;
  - every record has the right level and category;
  - the counts split as "before plus added";
  - the totals match the script's own numbers.

The vocabulary tables are literal data in the source. Here they are
parameters of the model. Their sizes are counted from the literal tables
(194 entries for the essential-A1 script, 150 for A2, 100 for A1 and 140
rows for add_vocabulary.py), and they appear as conditions in the lemmas. The ten
reading passages are different: their structural fields are written out
(ID, level, category, word count, minutes, and each question's ID, type,
options and answer). Their well-formedness, IDs, levels and totals are
proved about that actual data.

## Model

| member | source | states |
|---|---|---|
| Decimal.Parse | add_a1_essential_vocabulary.py:288 | `int(s)` succeeds exactly on non-empty all-digit strings, and then yields their value |
| Decimal.Value | add_a2_vocabulary.py:17 | the number `int(s)` yields for a digit string, read most significant digit first; `Render` is its inverse on canonical numerals (ValueRender, RenderValue) |
| Decimal.Render | add_a1_essential_vocabulary.py:288 | `str(n)` is canonical (no leading zero except "0"), and has one digit exactly when n < 10 |
| Decimal.ValueRender | add_a1_essential_vocabulary.py:288 | `int(str(n)) == n` |
| Decimal.ParseRender | add_a1_essential_vocabulary.py:288 | parsing a rendered number gives it back, so `next_id` stays a valid numeral between iterations |
| Decimal.RenderValue | add_a1_essential_vocabulary.py:288 | `str(int(s)) == s` for a canonical numeral |
| Decimal.RenderInjective | add_a2_vocabulary.py:66 | distinct numbers render to distinct ID strings, and equal ones to equal strings |
| Stats.Tally | add_a1_essential_vocabulary.py:324-327 | the `get(k, 0) + 1` loop yields a dict whose keys are exactly the values that occur, each mapped to its number of occurrences, with counts summing to the list length |
| Stats.OccurrencesAppend | add_reading_passages.py:833-834 | a filtered count over a concatenation is the sum of the counts over the parts |
| Stats.SumAppend | add_reading_passages.py:853 | a sum over a concatenation is the sum of the two sums |
| Stats.CountsSum | add_vocabulary.py:205-208 | a map holding the occurrence counts of a list sums to the list's length |
| Stats.OccurrencesPair | add_vocabulary.py:18-177 | when every element is one of two distinct values, their two counts add up to the length |
| Records.WordsAtLevelAppend | add_a2_vocabulary.py:274 | the level count of `words` after `extend` is the count before plus the count among the new records |
| Records.WordsAtLevel | add_a2_vocabulary.py:19 | `len([w for w in words if w.get('level') == l])`: at most the list's length, and positive exactly when some record has that level |
| Records.PassagesAtLevel | add_reading_passages.py:17-18 | `len([p for p in passages if p.get('level') == l])`: at most the list's length, and positive exactly when some passage has that level |
| Records.TotalWordCount | add_reading_passages.py:853 | `sum(p['wordCount'] ...)`: zero for no passages and at least each passage's own count |
| Records.TotalMinutes | add_reading_passages.py:858 | `sum(p['estimatedMinutes'] ...)`: zero for no passages and at least each passage's own minutes |
| Records.PassageFiguresAppend | add_reading_passages.py:833-858 | level counts, word total, minute total and question total of the merged passage list are the old ones plus the new ones |
| Records.QuestionFigure | add_reading_passages.py:857 | the printed `len(passages) * 5` equals the real number of questions when every passage has five |
| Allocation.MaxId | add_a2_vocabulary.py:17 | `max(int(w['id']) ...)` fails on an empty list (EmptyDataset) or on a non-numeric ID (InvalidId), and otherwise bounds every ID and equals one of them |
| Allocation.MaxIdInvalid | add_a2_vocabulary.py:17 | the ID reported as invalid is the first non-numeric one in list order |
| Allocation.GetNextId | add_a1_essential_vocabulary.py:20-25 | "1" for an empty list; otherwise a canonical numeral strictly above every existing ID and exactly one above the largest; an error exactly when some ID is not numeric |
| Allocation.NextIdAfterContiguous | add_a1_essential_vocabulary.py:20-25 | when the existing IDs are exactly 1..n, the next ID is `str(n + 1)` |
| Allocation.AppendFreshUnique | add_a1_essential_vocabulary.py:337 | records numbered consecutively from above every existing ID are distinct, and appending them keeps a list of unique IDs unique |
| Lists.RecordList.Append | add_vocabulary.py:194 | `list.append(r)` leaves the list as before followed by `r` |
| Lists.RecordList.Extend | add_a2_vocabulary.py:266 | `list.extend(rs)` leaves the list as before followed by `rs` |
| Lists.Merge | add_a1_essential_vocabulary.py:337 | `existing + new` has the existing records as an unchanged prefix, the new ones as the suffix, and the sum of the lengths |
| Lists.FlattenLength | add_a1_essential_vocabulary.py:276-299 | the group loops visit as many entries as the group lengths add up to |
| Lists.FlattenIndex | add_a1_essential_vocabulary.py:276-299 | entry `j` of group `g` is visited right after all entries of the earlier groups |
| EssentialA1.LoadExistingWords | add_a1_essential_vocabulary.py:11-18 | a missing file reads as an empty list; a present one as its contents |
| EssentialA1.CreateWordData | add_a1_essential_vocabulary.py:27-41 | the record keeps the ID and the entry's term, category and examples unchanged, and sets level "A1", the clock reading plus ".000Z", `audioUrl` "assets/audio/words/<id>.mp3" and an explicit null image |
| EssentialA1.IdAt | add_a1_essential_vocabulary.py:287-288 | the ID the k-th new record receives: the start string itself for k = 0, and for k > 0 the canonical numeral of `int(start) + k` |
| EssentialA1.IdStep | add_a1_essential_vocabulary.py:287-288 | `str(int(current) + 1)` moves from the n-th ID to the (n+1)-th and keeps it numeric |
| EssentialA1.GenerateEssentialA1Words | add_a1_essential_vocabulary.py:43-301 | the nested group loops with the `next_id` counter produce exactly one record per entry, in group order then table order, created by `create_word_data` with the k-th ID |
| EssentialA1.EssentialWords | add_a1_essential_vocabulary.py:274-301 | what `generate_essential_a1_words` returns: one record per entry of the groups, in group order then table order |
| EssentialA1.EssentialIds | add_a1_essential_vocabulary.py:287-288 | record k has the numeric ID start + k, written as `str(start + k)` when the start is canonical |
| EssentialA1.EssentialOrder | add_a1_essential_vocabulary.py:276-299 | entry `j` of group `g` becomes the record right after all records of the earlier groups |
| EssentialA1.EssentialIdsFresh | add_a1_essential_vocabulary.py:316-337 | started from `get_next_id`, the new IDs count up without gaps, are unique, lie above every existing ID, and keep the merged list's IDs unique |
| EssentialA1.EssentialAllA1 | add_a1_essential_vocabulary.py:347 | every generated record is at level A1 |
| EssentialA1.TableTotal | add_a1_essential_vocabulary.py:276-284 | the seven topic tables (43, 35, 26, 29, 25, 15, 21 entries) hold 194 entries |
| EssentialA1.Run | add_a1_essential_vocabulary.py:303-348 | `main` aborts exactly when the load yields an empty list, raises exactly when an ID is not numeric, and otherwise writes `existing + new`; the report keeps the loaded count, the first new ID and every group's size; the category tally counts exactly the new records by category and sums to their number, the total is their sum, and the A1 count grows by the number added (194 with the script's tables) |
| GroupedVocabulary.MakeWord | add_a2_vocabulary.py:65-75 | the appended dict has ID `str(current_id)`, the entry's term and examples, the table's category, the script's level, the clock reading plus "Z", and no audio or image field |
| GroupedVocabulary.BuildWords | add_a2_vocabulary.py:22-263 | the per-table append loops with the `current_id += 1` counter produce exactly the records of `TableWords` |
| GroupedVocabulary.TableWords | add_a2_vocabulary.py:22-263 | what the append loops leave in `new_words`: one record per labelled entry, table after table |
| GroupedVocabulary.Labelled | add_a2_vocabulary.py:64-263 | the script's tables: its i-th loop appends the i-th entry list under the i-th category label; the table sizes are the entry lists' lengths |
| GroupedVocabulary.TableWordsCount | add_a2_vocabulary.py:272 | one record per table entry is built |
| GroupedVocabulary.TableWordIds | add_a2_vocabulary.py:23-263 | the IDs are first, first + 1, … with no gaps, each written as `str(first + k)` |
| GroupedVocabulary.TableWordOrder | add_a2_vocabulary.py:64-263 | entry `j` of table `g` becomes record `sizes[0] + … + sizes[g-1] + j`, with that table's category, the script's level, and the entry's term and examples |
| GroupedVocabulary.TableWordsLevel | add_a2_vocabulary.py:72 | every new record is at the script's level |
| GroupedVocabulary.Script | add_a2_vocabulary.py:13-274 | a missing file raises; a failing `max` raises its error; otherwise the outcome is the extension of the loaded list from the largest ID |
| GroupedVocabulary.Extended | add_a2_vocabulary.py:17-274 | the outcome once `max_id` is known: a written file (never an exception), whose content and figures ExtendedFile, ExtendedIds, ExtendedLayout and ExtendedFigures state |
| GroupedVocabulary.ExtendedFile | add_a2_vocabulary.py:266 | the written file is the loaded records unchanged and in order, followed by the new ones in build order; the report's first figures are the largest ID and the level count before the run |
| GroupedVocabulary.ExtendedIds | add_a2_vocabulary.py:17-23 | the new IDs count up from `max_id + 1`, and when `max_id` bounds every loaded ID, unique IDs stay unique |
| GroupedVocabulary.ExtendedLayout | add_a2_vocabulary.py:64-266 | entry `j` of table `g` is written at position `len(loaded) + sizes[0] + … + sizes[g-1] + j`, with ID `max_id + 1` plus that offset, its table's category, the script's level, and its term and examples |
| GroupedVocabulary.ExtendedFigures | add_a2_vocabulary.py:272-274 | exactly one record per entry is added, the total grows by that number, and so does the count at the script's level |
| GroupedVocabulary.AddVocabulary | add_a2_vocabulary.py:13-274 | the script (open, `max`, the append loops, `words.extend`) has exactly the outcome of `Script` |
| GroupedVocabulary.ExtendLoaded | add_a2_vocabulary.py:22-274 | after `max_id` is known, building the new records and extending the loaded list in place has exactly the outcome of `Extended` |
| A2Vocabulary.TableTotal | add_a2_vocabulary.py:26-62 | 35 + 30 + 30 + 30 + 25 = 150 entries |
| A2Vocabulary.RunFigures | add_a2_vocabulary.py:272-274 | with tables of those sizes and a successful `max`, 150 records are added, and the total and the A2 count each grow by 150 |
| A2Vocabulary.RunLayout | add_a2_vocabulary.py:64-263 | entry `j` of table `g` is written after the loaded records and the earlier tables, with ID `max_id + 1` plus its offset, category `Categories[g]`, level A2, and its term and examples |
| A1Vocabulary.TableTotal | add_a1_vocabulary.py:24-41 | 15 + 25 + 20 + 15 + 15 + 10 = 100 entries |
| A1Vocabulary.RunFigures | add_a1_vocabulary.py:239-241 | with tables of those sizes and a successful `max`, 100 records are added, and the total and the A1 count each grow by 100 |
| A1Vocabulary.RunLayout | add_a1_vocabulary.py:43-230 | entry `j` of table `g` is written after the loaded records and the earlier tables, with ID `max_id + 1` plus its offset, category `Categories[g]`, level A1, and its term and examples |
| TableVocabulary.RowRecord | add_vocabulary.py:182-193 | the dict built for a row copies its ID, term, category, level and examples, sets `createdAt` to "2024-01-22T00:00:00.000Z", and has no audio or image field |
| TableVocabulary.RowRecords | add_vocabulary.py:181-194 | one record per table row, in table order, each built by RowRecord |
| TableVocabulary.AppendRows | add_vocabulary.py:181-194 | `words.append` once per row leaves the loaded records followed by the rows' records in table order |
| TableVocabulary.LastId | add_vocabulary.py:202 | `words[-1]['id']` is the last record's ID, and fails exactly on an empty list |
| TableVocabulary.Run | add_vocabulary.py:8-212 | a missing file raises; otherwise the file is the loaded records plus one record per row; the printed count before the appends is the loaded length, and the total, last ID and added count are those of that file; and `level_counts` has exactly the levels that occur, each with its number of records, summing to the total |
| TableVocabulary.LastIdAppend | add_vocabulary.py:194-202 | the printed last ID is the last row's, or the last loaded record's when there are no rows |
| TableVocabulary.NewWordsLastId | add_vocabulary.py:202 | with the script's table (IDs "461" to "600") the printed range ends at "600" |
| TableVocabulary.NewWordsIds | add_vocabulary.py:15-177 | the table's IDs count up from 461 without gaps, so no two new records share one |
| TableVocabulary.NewWordsUnique | add_vocabulary.py:181-194 | a file whose IDs were unique, numeric and below 461 keeps unique IDs after the appends |
| TableVocabulary.NewWordsLevels | add_vocabulary.py:18-177 | every row is at level A1 or A2, so those two counts together grow by exactly 140 |
| ReadingPassages.Reading011 | add_reading_passages.py:26-101 | reading_011 is well formed: level A1 or A2, questions q1–q5, each a four-option choice or a 真/假 true/false question, with the answer among the options |
| ReadingPassages.Reading012 | add_reading_passages.py:104-182 | reading_012 is well formed in the same sense |
| ReadingPassages.Reading013 | add_reading_passages.py:185-263 | reading_013 is well formed in the same sense |
| ReadingPassages.Reading014 | add_reading_passages.py:268-341 | reading_014 is well formed in the same sense |
| ReadingPassages.Reading015 | add_reading_passages.py:344-420 | reading_015 is well formed in the same sense |
| ReadingPassages.Reading016 | add_reading_passages.py:423-506 | reading_016 is well formed in the same sense |
| ReadingPassages.Reading017 | add_reading_passages.py:509-574 | reading_017 is well formed in the same sense |
| ReadingPassages.Reading018 | add_reading_passages.py:577-655 | reading_018 is well formed in the same sense |
| ReadingPassages.Reading019 | add_reading_passages.py:658-736 | reading_019 is well formed in the same sense |
| ReadingPassages.Reading020 | add_reading_passages.py:739-822 | reading_020 is well formed in the same sense |
| ReadingPassages.NewPassages | add_reading_passages.py:21-822 | the ten appends build a list of ten passages |
| ReadingPassages.NewPassagesWellFormed | add_reading_passages.py:21-822 | every new passage is well formed and carries its own clock reading plus "Z" |
| ReadingPassages.NewPassageIds | add_reading_passages.py:27-740 | the new IDs are "reading_0" followed by 11, 12, …, 20 in append order, and no two are equal |
| ReadingPassages.NewPassageLevels | add_reading_passages.py:23-822 | the first three new passages are A1 and the other seven A2, so 3 A1 and 7 A2 passages are added |
| ReadingPassages.NewPassageTotals | add_reading_passages.py:26-822 | the new passages hold 1665 words, take 28 minutes and ask 50 questions |
| ReadingPassages.Script | add_reading_passages.py:13-858 | a missing file raises; otherwise the outcome is the loaded list extended with the ten new passages |
| ReadingPassages.Extended | add_reading_passages.py:16-858 | the outcome once the file is loaded: always written, with the loaded passages followed by the added ones; the figures are stated by ExtendedFigures |
| ReadingPassages.AddReadingPassages | add_reading_passages.py:13-858 | the script (open, the counts before, `passages.extend`, the counts and sums after) has exactly the outcome of `Script` |
| ReadingPassages.ExtendedFigures | add_reading_passages.py:16-858 | after `extend`, the length, level counts, word total and minute total are the old ones plus those of the added list; the question figure is the real total when every passage has five questions |
| ReadingPassages.ScriptCounts | add_reading_passages.py:16-834 | a run adds ten passages: the total grows by 10, the A1 count by 3 and the A2 count by 7 |
| ReadingPassages.ScriptTotals | add_reading_passages.py:853-858 | a run adds 1665 words to the word total and 28 minutes to the reading time |
| ReadingPassages.ScriptQuestionFigure | add_reading_passages.py:857 | when every loaded passage has five questions, the printed `len(passages) * 5` equals the real number of questions in the written file |
| ReadingPassages.ScriptTarget | add_reading_passages.py:5 | from the ten passages the script expects (4 A1, 6 A2), the file reaches 20: 7 A1 and 13 A2 |

## Left out

- File I/O and JSON. Reading a file is modelled as `Missing` or `Loaded(items)`; the written file is the `file` of the outcome (`open`, `json.load` and `json.dump` are not modelled).
- The clock. `datetime.now().isoformat()` is a parameter `clock: nat -> string` that gives the reading for the k-th record built.
- Printing. The model keeps the figures the scripts compute and print as fields of each script's `Report`. It does not keep the print text, nor the sorted order in which the tallies are printed (add_a1_essential_vocabulary.py:330-331, add_vocabulary.py:211-212). The per-category counts that the A1 and A2 scripts print are literal text (add_a2_vocabulary.py:276-281, add_a1_vocabulary.py:243-249), so they are not kept either.
- The A2 coverage percentages (add_a2_vocabulary.py:284-290). They are floating-point divisions of the A2 count.
- convert_voices.py. It downloads files over the network and loads numpy arrays; none of that is part of this model.
- The failure of the write itself. The essential-A1 script catches it with `except Exception` (add_a1_essential_vocabulary.py:362-363); the model assumes the write succeeds.
- Decimal.Parse: accepts only non-empty ASCII digit strings. Python's `int()` also accepts surrounding whitespace, a sign, underscores and non-ASCII digits (`int(" 12")`, `int("+5")`, `int("1_0")`). For a loaded ID of such a form, `MaxId` and `GetNextId` return `Err(InvalidId(..))` where the script would go on.
- The literal vocabulary tables are not retyped. Their entries enter as parameters, and their sizes and labels appear as the conditions of the lemmas.
- A1Vocabulary.RunFigures, A2Vocabulary.RunFigures: state the 100 and 150 added records under the condition that the tables have the script's sizes, because the tables are parameters.
- EssentialA1.Run: states the 194 added records under the condition that the groups have the script's sizes, for the same reason.
- TableVocabulary.NewWordsLastId, TableVocabulary.NewWordsIds, TableVocabulary.NewWordsUnique, TableVocabulary.NewWordsLevels: assume the table facts (140 rows, IDs "461" to "600" in order, levels A1 or A2) as the predicate `IsNewWordsTable` rather than reading them from the literal table.
- The reading passages' `title`, `titleChinese`, `content`, and the question prompts and explanations. They are free text that no computation reads.
- Records are assumed to carry `level`, `wordCount` and `estimatedMinutes` fields, so the `KeyError` of `p['wordCount']` and the `None` of `w.get('level')` on a record without a level are not modelled.
- The per-table loops of the A1 and A2 scripts (module-level code, one loop per table) are modelled as one nested loop over the list of tables. Likewise, the essential-A1 group loop is a nested loop over the groups.
- The `words[-1]` of add_vocabulary.py raises only after the file is written. The model records that case as `lastId == None` in an otherwise written outcome.
