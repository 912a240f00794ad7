/** The reference-manual checkboxes of the create form: the fixed list of
    manuals offered, whether a manual shows as checked, and the new value of
    the form's `selectedManuals` field when a checkbox changes. */
module ManualSelectionSection {
  import opened IncidentTypes

  datatype ManualOption = ManualOption(id: string, displayLabel: string)

  /** The manuals offered, in display order. */
  function AvailableManuals(): (r: seq<ManualOption>)
    ensures |r| == 5
    ensures forall i, j :: 0 <= i < j < |r| ==> r[i].id != r[j].id
  {
    [ ManualOption("manual1", "Manual de Operaciones (MO)"),
      ManualOption("manual2", "Manual General de Mantenimiento (MGM)"),
      ManualOption("manual3", "Manual de Vuelo de la Aeronave (AFM)"),
      ManualOption("manual4", "Manual de Control de Calidad (QCM)"),
      ManualOption("manual5", "Manual de Operaciones de Tierra (GOM)") ]
  }

  function ManualIds(ms: seq<ManualOption>): (r: seq<string>)
    ensures |r| == |ms| && forall i :: 0 <= i < |ms| ==> r[i] == ms[i].id
  {
    seq(|ms|, i requires 0 <= i < |ms| => ms[i].id)
  }

  /** The offered ids are exactly manual1 to manual5, in that order, and no
      two manuals share an id. */
  lemma AvailableManualIdsAre()
    ensures ManualIds(AvailableManuals()) == ["manual1", "manual2", "manual3", "manual4", "manual5"]
    ensures forall i, j :: 0 <= i < j < |AvailableManuals()| ==>
              AvailableManuals()[i].id != AvailableManuals()[j].id
  {
  }

  /** `field.value || []`: a missing field value counts as no selection. */
  function CurrentValues(current: Option<seq<string>>): (r: seq<string>)
    ensures current.None? ==> r == []
    ensures current.Some? ==> r == current.value
  {
    match current
    case None => []
    case Some(v) => v
  }

  /** `field.value?.includes(id)`: checked exactly when the id is in the field
      value (a missing value checks nothing). */
  predicate IsChecked(current: Option<seq<string>>, id: string)
    ensures IsChecked(current, id) <==> id in CurrentValues(current)
  {
    current.Some? && id in current.value
  }

  /** `a` is `b` with some elements left out, the rest in their order. */
  predicate IsSubsequence(a: seq<string>, b: seq<string>)
    decreases |b|
  {
    if a == [] then true
    else if b == [] then false
    else if a[0] == b[0] then IsSubsequence(a[1..], b[1..])
    else IsSubsequence(a, b[1..])
  }

  /** `l.filter(value => value !== id)`: every occurrence of `id` removed,
      every other element kept, in order and as often as before. */
  function RemoveAll(l: seq<string>, id: string): (r: seq<string>)
    ensures id !in r
    ensures multiset(r) == multiset(l)[id := 0]
    ensures IsSubsequence(r, l)
    decreases |l|
  {
    if l == [] then []
    else
      assert l == [l[0]] + l[1..];
      var rest := RemoveAll(l[1..], id);
      if l[0] == id then
        assert rest == [] || rest[0] != l[0];
        rest
      else
        assert ([l[0]] + rest)[1..] == rest;
        [l[0]] + rest
  }

  /** The new field value when the checkbox of manual `id` changes to
      `checked`: append on check, remove every occurrence on uncheck. */
  function OnCheckedChange(current: Option<seq<string>>, id: string, checked: bool): (r: seq<string>)
    ensures checked ==> |r| == |CurrentValues(current)| + 1 && r[..|CurrentValues(current)|] == CurrentValues(current)
                        && r[|CurrentValues(current)|] == id
    ensures !checked ==> id !in r && IsSubsequence(r, CurrentValues(current))
                         && multiset(r) == multiset(CurrentValues(current))[id := 0]
  {
    var currentValues := CurrentValues(current);
    if checked then currentValues + [id] else RemoveAll(currentValues, id)
  }

  /** Checking appends the id at the end without removing an earlier copy. */
  lemma CheckAppends(current: Option<seq<string>>, id: string)
    ensures OnCheckedChange(current, id, true)[..|CurrentValues(current)|] == CurrentValues(current)
    ensures |OnCheckedChange(current, id, true)| == |CurrentValues(current)| + 1
    ensures OnCheckedChange(current, id, true)[|CurrentValues(current)|] == id
    ensures multiset(OnCheckedChange(current, id, true))[id] == multiset(CurrentValues(current))[id] + 1
  {
    var cv := CurrentValues(current);
    assert multiset(cv + [id]) == multiset(cv) + multiset{id};
  }

  /** Unchecking removes every occurrence and keeps the other ids, in order
      and with their multiplicities. */
  lemma UncheckRemovesAll(current: Option<seq<string>>, id: string)
    ensures id !in OnCheckedChange(current, id, false)
    ensures IsSubsequence(OnCheckedChange(current, id, false), CurrentValues(current))
    ensures forall x :: x != id ==>
              multiset(OnCheckedChange(current, id, false))[x] == multiset(CurrentValues(current))[x]
  {
  }

  /** After a change the checkbox shows the new state, and every other
      manual's checkbox shows what it showed before. */
  lemma CheckboxShowsChange(current: Option<seq<string>>, id: string, checked: bool, other: string)
    requires other != id
    ensures IsChecked(Some(OnCheckedChange(current, id, checked)), id) == checked
    ensures IsChecked(Some(OnCheckedChange(current, id, checked)), other) == IsChecked(current, other)
  {
    var cv := CurrentValues(current);
    var r := OnCheckedChange(current, id, checked);
    if !checked {
      assert other in r <==> multiset(r)[other] > 0;
      assert other in cv <==> multiset(cv)[other] > 0;
    }
  }

  lemma {:induction false} RemoveAllAbsent(l: seq<string>, id: string)
    requires id !in l
    ensures RemoveAll(l, id) == l
    decreases |l|
  {
    if l != [] {
      RemoveAllAbsent(l[1..], id);
    }
  }

  lemma {:induction false} RemoveAllAppend(l: seq<string>, id: string)
    ensures RemoveAll(l + [id], id) == RemoveAll(l, id)
    decreases |l|
  {
    if l == [] {
      assert RemoveAll([id], id) == RemoveAll([], id);
    } else {
      assert (l + [id])[1..] == l[1..] + [id];
      RemoveAllAppend(l[1..], id);
    }
  }

  /** Checking a manual that was not selected and then unchecking it gives
      back the original selection. */
  lemma CheckThenUncheckRestores(current: Option<seq<string>>, id: string)
    requires id !in CurrentValues(current)
    ensures OnCheckedChange(Some(OnCheckedChange(current, id, true)), id, false) == CurrentValues(current)
  {
    RemoveAllAppend(CurrentValues(current), id);
    RemoveAllAbsent(CurrentValues(current), id);
  }
}
