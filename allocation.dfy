/** The two ID allocators: the inline `max([int(w['id']) for w in words])`
    of the A1 and A2 scripts, and `get_next_id` of the essential-A1 script. */
module Allocation {
  import opened Common
  import opened Decimal
  import opened Records

  /** Every loaded record's ID is something `int` accepts. */
  predicate NumericIds(ws: seq<Word>) {
    forall i :: 0 <= i < |ws| ==> IsNumeral(ws[i].id)
  }

  /** `max([int(w['id']) for w in ws])`. The comprehension converts the IDs
      in list order, so the first non-numeric one raises; `max` of an empty
      list raises too. Otherwise the result bounds every ID and is one of them. */
  function MaxId(ws: seq<Word>): (r: Result<nat>)
    ensures r.Ok? <==> ws != [] && NumericIds(ws)
    ensures r == Err(EmptyDataset) <==> ws == []
    ensures r.Ok? ==> forall i :: 0 <= i < |ws| ==> Value(ws[i].id) <= r.value
    ensures r.Ok? ==> exists i :: 0 <= i < |ws| && Value(ws[i].id) == r.value
    ensures r.Err? ==> r.error.EmptyDataset? || r.error.InvalidId?
  {
    if ws == [] then Err(EmptyDataset)
    else match Parse(ws[0].id)
      case None => Err(InvalidId(ws[0].id))
      case Some(v) =>
        if |ws| == 1 then Ok(v)
        else match MaxId(ws[1..])
          case Ok(m) =>
            assert forall i :: 1 <= i < |ws| ==> ws[i] == ws[1..][i - 1];
            Ok(if v < m then m else v)
          case Err(e) =>
            assert forall i :: 1 <= i < |ws| ==> ws[i] == ws[1..][i - 1];
            Err(e)
  }

  /** The ID that `int` rejects is the first non-numeric one in list order. */
  lemma {:induction false} MaxIdInvalid(ws: seq<Word>)
    requires MaxId(ws).Err? && MaxId(ws).error.InvalidId?
    ensures exists i :: 0 <= i < |ws| && ws[i].id == MaxId(ws).error.id && !IsNumeral(ws[i].id)
                        && NumericIds(ws[..i])
  {
    if !IsNumeral(ws[0].id) {
      assert ws[..0] == [];
    } else {
      MaxIdInvalid(ws[1..]);
      var i :| 0 <= i < |ws[1..]| && ws[1..][i].id == MaxId(ws).error.id && !IsNumeral(ws[1..][i].id)
                && NumericIds(ws[1..][..i]);
      assert ws[..i + 1] == [ws[0]] + ws[1..][..i];
      assert ws[i + 1] == ws[1..][i];
    }
  }

  /** `get_next_id`: "1" for an empty list, otherwise `str(max_id + 1)`.
      The result is canonical, strictly above every existing ID and exactly
      one above the largest. */
  function GetNextId(ws: seq<Word>): (r: Result<string>)
    ensures ws == [] ==> r == Ok("1")
    ensures r.Ok? <==> NumericIds(ws)
    ensures r.Ok? ==> IsCanonical(r.value)
    ensures r.Ok? ==> forall i :: 0 <= i < |ws| ==> Value(ws[i].id) < Value(r.value)
    ensures r.Ok? && ws != [] ==> exists i :: 0 <= i < |ws| && Value(r.value) == Value(ws[i].id) + 1
    ensures r.Err? ==> MaxId(ws) == Err(r.error)
  {
    if ws == [] then Ok("1")
    else match MaxId(ws)
      case Ok(m) =>
        ValueRender(m + 1);
        Ok(Render(m + 1))
      case Err(e) => Err(e)
  }

  /** The numeric values of the IDs, in list order. */
  function IdValues(ws: seq<Word>): (vs: seq<nat>)
    requires NumericIds(ws)
    ensures |vs| == |ws| && forall i :: 0 <= i < |ws| ==> vs[i] == Value(ws[i].id)
  {
    seq(|ws|, i requires 0 <= i < |ws| => Value(ws[i].id))
  }

  /** When the existing IDs are exactly 1..n, in any order and possibly
      repeated, the next ID is n + 1. */
  lemma NextIdAfterContiguous(ws: seq<Word>, n: nat)
    requires NumericIds(ws)
    requires forall i :: 0 <= i < |ws| ==> 1 <= Value(ws[i].id) <= n
    requires forall v :: 1 <= v <= n ==> v in IdValues(ws)
    ensures GetNextId(ws) == Ok(Render(n + 1))
  {
    if n == 0 {
      assert ws == [];
    } else {
      assert 1 in IdValues(ws);
      assert n in IdValues(ws);
      var r := GetNextId(ws).value;
      var i :| 0 <= i < |ws| && Value(r) == Value(ws[i].id) + 1;
      var j :| 0 <= j < |ws| && IdValues(ws)[j] == n;
      assert Value(r) == n + 1;
      RenderValue(r);
    }
  }

  /** The IDs of `ws` are base, base + 1, ... in list order. */
  predicate CountsUpFrom(ws: seq<Word>, base: nat) {
    forall k :: 0 <= k < |ws| ==> IsNumeral(ws[k].id) && Value(ws[k].id) == base + k
  }

  /** Records numbered consecutively from above every existing ID have
      distinct IDs, and appending them keeps a list's IDs unique. */
  lemma AppendFreshUnique(existing: seq<Word>, added: seq<Word>, base: nat)
    requires UniqueIds(existing) && NumericIds(existing)
    requires forall i :: 0 <= i < |existing| ==> Value(existing[i].id) < base
    requires CountsUpFrom(added, base)
    ensures UniqueIds(added) && UniqueIds(existing + added)
  {
    var all := existing + added;
    forall i, j | 0 <= i < j < |all| ensures all[i].id != all[j].id {
      if j < |existing| {
        assert all[i] == existing[i] && all[j] == existing[j];
      } else if i < |existing| {
        assert all[i] == existing[i] && all[j] == added[j - |existing|];
      } else {
        assert all[i] == added[i - |existing|] && all[j] == added[j - |existing|];
      }
    }
  }
}
