/**
 * The predefined analysis requirements shared by the wizard, its
 * requirements step and the configuration dialog, and the list updates
 * those components apply to them by id.
 */
module Requirements {
  import opened Seqs

  /** One predefined requirement: its id, its text and whether it is checked. */
  datatype Requirement = Requirement(id: string, text: string, selected: bool)

  /** Only `selected` may differ: same id, same text. */
  predicate SameEntry(a: Requirement, b: Requirement) {
    a.id == b.id && a.text == b.text
  }

  /** `reqs.map(req => req.id === id ? { ...req, selected: !req.selected } : req)`. */
  function Toggled(reqs: seq<Requirement>, id: string): (r: seq<Requirement>)
    ensures |r| == |reqs|
    ensures forall i | 0 <= i < |reqs| :: SameEntry(r[i], reqs[i])
    ensures forall i | 0 <= i < |reqs| :: r[i].selected == (reqs[i].selected != (reqs[i].id == id))
  {
    seq(|reqs|, i requires 0 <= i < |reqs| =>
      if reqs[i].id == id then reqs[i].(selected := !reqs[i].selected) else reqs[i])
  }

  /** Toggling the same id twice gives back the original list. */
  lemma ToggleTwice(reqs: seq<Requirement>, id: string)
    ensures Toggled(Toggled(reqs, id), id) == reqs
  {
    var r := Toggled(Toggled(reqs, id), id);
    forall i | 0 <= i < |reqs|
      ensures r[i] == reqs[i]
    {
      assert SameEntry(r[i], reqs[i]);
    }
  }

  /** `reqs.map(r => r.id === id ? { ...r, selected: checked } : r)`. */
  function WithSelected(reqs: seq<Requirement>, id: string, checked: bool): (r: seq<Requirement>)
    ensures |r| == |reqs|
    ensures forall i | 0 <= i < |reqs| :: SameEntry(r[i], reqs[i])
    ensures forall i | 0 <= i < |reqs| :: r[i].selected == if reqs[i].id == id then checked else reqs[i].selected
  {
    seq(|reqs|, i requires 0 <= i < |reqs| =>
      if reqs[i].id == id then reqs[i].(selected := checked) else reqs[i])
  }

  /**
   * Toggling is setting each matching entry to the opposite of what it
   * was: when the entries with the id agree, toggling equals setting them
   * to the negation, and setting twice is setting once.
   */
  lemma ToggleIsSelect(reqs: seq<Requirement>, id: string, was: bool)
    requires forall i | 0 <= i < |reqs| :: reqs[i].id == id ==> reqs[i].selected == was
    ensures Toggled(reqs, id) == WithSelected(reqs, id, !was)
    ensures WithSelected(WithSelected(reqs, id, !was), id, !was) == WithSelected(reqs, id, !was)
  {
    var a, b := Toggled(reqs, id), WithSelected(reqs, id, !was);
    forall i | 0 <= i < |reqs|
      ensures a[i] == b[i]
    {
      assert SameEntry(a[i], reqs[i]) && SameEntry(b[i], reqs[i]);
    }
    var c := WithSelected(b, id, !was);
    forall i | 0 <= i < |reqs|
      ensures c[i] == b[i]
    {
      assert SameEntry(c[i], b[i]);
    }
  }

  /** `reqs.map(req => req.id === id ? { ...req, text } : req)`. */
  function WithText(reqs: seq<Requirement>, id: string, text: string): (r: seq<Requirement>)
    ensures |r| == |reqs|
    ensures forall i | 0 <= i < |reqs| :: r[i].id == reqs[i].id && r[i].selected == reqs[i].selected
    ensures forall i | 0 <= i < |reqs| :: r[i].text == if reqs[i].id == id then text else reqs[i].text
  {
    seq(|reqs|, i requires 0 <= i < |reqs| =>
      if reqs[i].id == id then reqs[i].(text := text) else reqs[i])
  }

  predicate HasId(reqs: seq<Requirement>, id: string) {
    exists i | 0 <= i < |reqs| :: reqs[i].id == id
  }

  /** Editing an id no entry has changes nothing. */
  lemma WithTextAbsent(reqs: seq<Requirement>, id: string, text: string)
    requires !HasId(reqs, id)
    ensures WithText(reqs, id, text) == reqs
  {
    var r := WithText(reqs, id, text);
    forall i | 0 <= i < |reqs|
      ensures r[i] == reqs[i]
    {
      assert reqs[i].id != id;
    }
  }

  function IdIsNot(id: string): Requirement -> bool {
    (r: Requirement) => r.id != id
  }

  /** `reqs.filter(req => req.id !== id)`: every entry with the id is gone, every other one stays, in order. */
  function WithoutId(reqs: seq<Requirement>, id: string): (r: seq<Requirement>)
    ensures |r| <= |reqs|
    ensures !HasId(r, id)
    ensures forall i | 0 <= i < |r| :: r[i] in reqs
    ensures forall i | 0 <= i < |reqs| :: reqs[i].id != id ==> reqs[i] in r
  {
    Filter(reqs, IdIsNot(id))
  }

  /** Deleting an id that is absent changes nothing, and deleting it twice is deleting it once. */
  lemma WithoutIdAbsent(reqs: seq<Requirement>, id: string)
    ensures !HasId(reqs, id) ==> WithoutId(reqs, id) == reqs
    ensures WithoutId(WithoutId(reqs, id), id) == WithoutId(reqs, id)
  {
    if !HasId(reqs, id) {
      FilterKeepsAll(reqs, IdIsNot(id));
    }
    FilterKeepsAll(WithoutId(reqs, id), IdIsNot(id));
  }
}
