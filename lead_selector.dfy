/** The lead picker of the email campaign screen: the list of leads with an email, narrowed by
    a case-insensitive search, a check box per lead and a select-all switch. The selection is
    a list of lead ids. */
module LeadSelector {
  import opened Common

  type LeadId = nat

  /** The fields the picker reads; "" stands for a missing email, status or source. */
  datatype PickerLead = PickerLead(id: LeadId, name: string, email: string, status: string, source: string)

  /** The search test, on the lowered search text. */
  predicate Matches(l: PickerLead, lowerSearch: string) {
    Contains(ToLower(l.name), lowerSearch)
    || Contains(ToLower(l.email), lowerSearch)
    || (l.status != "" && Contains(ToLower(l.status), lowerSearch))
    || (l.source != "" && Contains(ToLower(l.source), lowerSearch))
  }

  /** The leads with an email, in order. */
  function WithEmail(leads: seq<PickerLead>): (r: seq<PickerLead>)
    ensures forall l :: l in r <==> l in leads && l.email != ""
  {
    if leads == [] then []
    else (if leads[0].email != "" then [leads[0]] else []) + WithEmail(leads[1..])
  }

  function Searched(leads: seq<PickerLead>, lowerSearch: string): (r: seq<PickerLead>)
    ensures forall l :: l in r <==> l in leads && Matches(l, lowerSearch)
  {
    if leads == [] then []
    else (if Matches(leads[0], lowerSearch) then [leads[0]] else []) + Searched(leads[1..], lowerSearch)
  }

  /** `filteredLeads`. */
  function FilteredLeads(leads: seq<PickerLead>, search: string): (r: seq<PickerLead>)
    ensures forall l :: l in r <==> l in leads && l.email != "" && (search == "" || Matches(l, ToLower(search)))
  {
    var withEmail := WithEmail(leads);
    if search == "" then withEmail else Searched(withEmail, ToLower(search))
  }

  /** The search ignores case: searching in upper or lower case lists the same leads. */
  lemma SearchIgnoresCase(leads: seq<PickerLead>, search: string)
    requires search != ""
    ensures FilteredLeads(leads, ToUpper(search)) == FilteredLeads(leads, search)
  {
    LowerOfUpper(search);
  }

  lemma LowerOfUpper(s: string)
    ensures ToLower(ToUpper(s)) == ToLower(s) && (s != "" ==> ToUpper(s) != "")
  {
    forall i | 0 <= i < |s|
      ensures ToLowerChar(ToUpperChar(s[i])) == ToLowerChar(s[i])
    {
    }
  }

  function Ids(leads: seq<PickerLead>): (ids: seq<LeadId>)
    ensures |ids| == |leads| && forall k :: 0 <= k < |leads| ==> ids[k] == leads[k].id
  {
    if leads == [] then [] else [leads[0].id] + Ids(leads[1..])
  }

  /** `xs.filter(x => x !== id)`. */
  function Without(xs: seq<LeadId>, id: LeadId): (r: seq<LeadId>)
    ensures forall x :: x in r <==> x in xs && x != id
    ensures id !in xs ==> r == xs
    ensures |r| <= |xs|
  {
    if xs == [] then []
    else (if xs[0] == id then [] else [xs[0]]) + Without(xs[1..], id)
  }

  /** `toggleLead`: an id that is selected is removed, every copy of it; any other is appended. */
  function Toggle(selected: seq<LeadId>, id: LeadId): (r: seq<LeadId>)
    ensures id in selected ==> id !in r && forall x :: x != id ==> (x in r <==> x in selected)
    ensures id !in selected ==> r == selected + [id]
  {
    if id in selected then Without(selected, id) else selected + [id]
  }

  /** Toggling a lead twice restores the selected set, and the very list when the lead was not
      selected. */
  lemma ToggleTwice(selected: seq<LeadId>, id: LeadId)
    ensures (set x | x in Toggle(Toggle(selected, id), id)) == (set x | x in selected)
    ensures id !in selected ==> Toggle(Toggle(selected, id), id) == selected
  {
    if id !in selected {
      assert Without(selected + [id], id) == selected by {
        WithoutAppended(selected, id);
      }
    }
  }

  lemma {:induction false} WithoutAppended(xs: seq<LeadId>, id: LeadId)
    requires id !in xs
    ensures Without(xs + [id], id) == xs
  {
    if xs == [] {
      assert [] + [id] == [id];
    } else {
      assert (xs + [id])[0] == xs[0] && (xs + [id])[1..] == xs[1..] + [id];
      WithoutAppended(xs[1..], id);
      assert [xs[0]] + xs[1..] == xs;
    }
  }

  /** `xs.filter(x => !ids.includes(x))`. */
  function WithoutAll(xs: seq<LeadId>, ids: seq<LeadId>): (r: seq<LeadId>)
    ensures forall x :: x in r <==> x in xs && x !in ids
    ensures |r| <= |xs|
  {
    if xs == [] then []
    else (if xs[0] in ids then [] else [xs[0]]) + WithoutAll(xs[1..], ids)
  }

  predicate NoDuplicates(xs: seq<LeadId>) {
    forall i, j :: 0 <= i < j < |xs| ==> xs[i] != xs[j]
  }

  /** `Array.from(new Set(xs))`: the first copy of each id, in order. */
  function Dedup(xs: seq<LeadId>): (r: seq<LeadId>)
    ensures NoDuplicates(r)
    ensures forall x :: x in r <==> x in xs
    decreases |xs|
  {
    if xs == [] then []
    else
      var rest := Dedup(Without(xs[1..], xs[0]));
      var r := [xs[0]] + rest;
      assert NoDuplicates(r) by {
        forall i, j | 0 <= i < j < |r|
          ensures r[i] != r[j]
        {
          assert r[j] == rest[j - 1] && rest[j - 1] in rest;
          if i > 0 {
            assert r[i] == rest[i - 1];
          }
        }
      }
      r
  }

  lemma {:induction false} WithoutConcat(a: seq<LeadId>, b: seq<LeadId>, id: LeadId)
    ensures Without(a + b, id) == Without(a, id) + Without(b, id)
  {
    if a == [] {
      assert a + b == b;
    } else {
      assert (a + b)[0] == a[0] && (a + b)[1..] == a[1..] + b;
      WithoutConcat(a[1..], b, id);
    }
  }

  /** The union keeps the selection first, in its order, when it has no duplicates. */
  lemma {:induction false} DedupKeepsPrefix(selected: seq<LeadId>, ids: seq<LeadId>)
    requires NoDuplicates(selected)
    ensures |selected| <= |Dedup(selected + ids)| && Dedup(selected + ids)[..|selected|] == selected
  {
    if selected != [] {
      var xs := selected + ids;
      assert xs[0] == selected[0] && xs[1..] == selected[1..] + ids;
      assert selected[0] !in selected[1..] by {
        forall k | 0 <= k < |selected[1..]|
          ensures selected[1..][k] != selected[0]
        {
          assert selected[1..][k] == selected[k + 1];
        }
      }
      WithoutConcat(selected[1..], ids, selected[0]);
      var ids' := Without(ids, selected[0]);
      assert NoDuplicates(selected[1..]) by {
        forall i, j | 0 <= i < j < |selected[1..]|
          ensures selected[1..][i] != selected[1..][j]
        {
          assert selected[1..][i] == selected[i + 1] && selected[1..][j] == selected[j + 1];
        }
      }
      DedupKeepsPrefix(selected[1..], ids');
      var rest := Dedup(selected[1..] + ids');
      assert Dedup(xs) == [selected[0]] + rest;
      assert Dedup(xs)[..|selected|] == [selected[0]] + rest[..|selected| - 1];
      assert [selected[0]] + selected[1..] == selected;
    }
  }

  /** Every listed id is selected (`every` is true on an empty list). */
  predicate AllSelected(selected: seq<LeadId>, ids: seq<LeadId>) {
    forall k :: 0 <= k < |ids| ==> ids[k] in selected
  }

  /** `handleSelectAll`. */
  function SelectAll(selected: seq<LeadId>, listed: seq<PickerLead>): (r: seq<LeadId>)
    ensures AllSelected(selected, Ids(listed)) ==>
      forall x :: x in r <==> x in selected && x !in Ids(listed)
    ensures !AllSelected(selected, Ids(listed)) ==>
      NoDuplicates(r) && forall x :: x in r <==> x in selected || x in Ids(listed)
  {
    var allFilteredIds := Ids(listed);
    if AllSelected(selected, allFilteredIds) then WithoutAll(selected, allFilteredIds)
    else Dedup(selected + allFilteredIds)
  }

  /** With nothing listed, select-all changes nothing. */
  lemma SelectAllOfNothing(selected: seq<LeadId>)
    ensures SelectAll(selected, []) == selected
  {
    WithoutNone(selected);
  }

  lemma {:induction false} WithoutNone(xs: seq<LeadId>)
    ensures WithoutAll(xs, []) == xs
  {
    if xs != [] {
      WithoutNone(xs[1..]);
      assert [xs[0]] + xs[1..] == xs;
    }
  }

  /** Select-all twice, starting with some listed lead unselected, selects and then deselects the
      listed leads: what stays is the earlier selection without them. */
  lemma SelectAllTwice(selected: seq<LeadId>, listed: seq<PickerLead>)
    requires !AllSelected(selected, Ids(listed))
    ensures forall x :: x in SelectAll(SelectAll(selected, listed), listed) <==> x in selected && x !in Ids(listed)
  {
    var once := SelectAll(selected, listed);
    var ids := Ids(listed);
    assert AllSelected(once, ids) by {
      forall k | 0 <= k < |ids|
        ensures ids[k] in once
      {
        assert ids[k] in ids;
      }
    }
  }
}
