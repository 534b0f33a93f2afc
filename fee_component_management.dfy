/**
 * The fee-component screen: the fee components kept in the screen's own state, a form
 * for adding one, and a delete button on each row.
 *
 * As written, a new component's id is the list's length plus one. That is fresh only as
 * long as nothing was deleted: after a deletion the next addition can reuse the id of a
 * component still listed (`AsWrittenAddReusesId`), and a later delete of that id then
 * removes both. `AddComponentWithFreshId` takes one more than the largest id instead,
 * and every sequence of additions and deletions through it keeps the ids unique
 * (`FreshEditsKeepIdsUnique`).
 */
module FeeComponents {
  import opened Wrappers
  import opened Text
  import opened Seqs

  /** A fee component as the screen lists it; `amount` is `None` when the form's text was not a number. */
  datatype ComponentEntry = ComponentEntry(
    id: int,
    name: string,
    className: string,
    amount: Option<int>,
    description: string)

  /** The text fields of the "Add Fee Component" form. */
  datatype ComponentForm = ComponentForm(name: string, className: string, amount: string, description: string)

  /** The names of the form's fields. */
  datatype ComponentField = Name | ClassName | Amount | Description

  const EmptyComponentForm := ComponentForm("", "", "", "")

  /** The four components the screen starts with. */
  const SeedComponents := [
    ComponentEntry(1, "Tuition Fee", "Class 10", Some(15000), "Monthly tuition fee"),
    ComponentEntry(2, "Transport Fee", "Class 10", Some(2000), "Monthly transport fee"),
    ComponentEntry(3, "Lab Fee", "Class 10", Some(1500), "Laboratory fee"),
    ComponentEntry(4, "Library Fee", "Class 10", Some(500), "Library maintenance fee")
  ]

  function FieldValue(f: ComponentForm, field: ComponentField): string {
    match field
    case Name => f.name
    case ClassName => f.className
    case Amount => f.amount
    case Description => f.description
  }

  /** `{ ...prev, [field]: value }`: the named field takes the value and every other field is kept. */
  function WithField(f: ComponentForm, field: ComponentField, value: string): (g: ComponentForm)
    ensures FieldValue(g, field) == value
    ensures forall other :: other != field ==> FieldValue(g, other) == FieldValue(f, other)
  {
    match field
    case Name => f.(name := value)
    case ClassName => f.(className := value)
    case Amount => f.(amount := value)
    case Description => f.(description := value)
  }

  /** Every field of the empty form is the empty string. */
  lemma EmptyFormIsBlank(field: ComponentField)
    ensures FieldValue(EmptyComponentForm, field) == ""
  {
  }

  /** The component built from a form under a given id. */
  function NewComponent(id: int, f: ComponentForm): ComponentEntry {
    ComponentEntry(id, f.name, f.className, ParseInt(f.amount), f.description)
  }

  /** Adding as written: the new component's id is the length of the list plus one. */
  function AddComponent(components: seq<ComponentEntry>, f: ComponentForm): seq<ComponentEntry> {
    components + [NewComponent(|components| + 1, f)]
  }

  /**
   * `prev.filter(component => component.id !== id)`: every component with that id goes,
   * every other stays, in its order.
   */
  function DeleteComponent(components: seq<ComponentEntry>, id: int): (r: seq<ComponentEntry>)
    ensures IsSubsequence(r, components)
    ensures forall c :: c in r <==> c in components && c.id != id
    ensures forall c :: multiset(r)[c] == if c.id != id then multiset(components)[c] else 0
  {
    Filter(components, (c: ComponentEntry) => c.id != id)
  }

  /** Deleting an id no component has changes nothing. */
  lemma DeleteAbsentIdKeepsAll(components: seq<ComponentEntry>, id: int)
    requires forall i :: 0 <= i < |components| ==> components[i].id != id
    ensures DeleteComponent(components, id) == components
  {
    FilterKeepsAll(components, (c: ComponentEntry) => c.id != id);
  }

  /** Deleting the same id twice is deleting it once. */
  lemma DeleteIdempotent(components: seq<ComponentEntry>, id: int)
    ensures DeleteComponent(DeleteComponent(components, id), id) == DeleteComponent(components, id)
  {
    FilterIdempotent(components, (c: ComponentEntry) => c.id != id);
  }

  /** Two deletions give the same list in either order. */
  lemma DeletesCommute(components: seq<ComponentEntry>, a: int, b: int)
    ensures DeleteComponent(DeleteComponent(components, a), b) == DeleteComponent(DeleteComponent(components, b), a)
  {
    FilterCommutes(components, (c: ComponentEntry) => c.id != a, (c: ComponentEntry) => c.id != b);
  }

  function ComponentIds(components: seq<ComponentEntry>): seq<int> {
    seq(|components|, i requires 0 <= i < |components| => components[i].id)
  }

  /** No two listed components share an id. */
  predicate IdsUnique(components: seq<ComponentEntry>) {
    Distinct(ComponentIds(components))
  }

  /** Unique ids, said position by position: components at different positions have different ids. */
  lemma IdsUniqueAt(components: seq<ComponentEntry>)
    ensures IdsUnique(components) <==>
      forall i, j :: 0 <= i < j < |components| ==> components[i].id != components[j].id
  {
    var ids := ComponentIds(components);
    assert forall i :: 0 <= i < |components| ==> ids[i] == components[i].id;
  }

  /** Unique ids, said by membership: no repeated component, and equal ids mean the same component. */
  lemma IdsUniqueByMembership(components: seq<ComponentEntry>)
    ensures IdsUnique(components) <==>
      && Distinct(components)
      && forall a, b :: a in components && b in components && a.id == b.id ==> a == b
  {
    IdsUniqueAt(components);
    if IdsUnique(components) {
      forall a, b | a in components && b in components && a.id == b.id ensures a == b {
        var i :| 0 <= i < |components| && components[i] == a;
        var j :| 0 <= j < |components| && components[j] == b;
        assert !(i < j) && !(j < i);
      }
    }
  }

  /** Deleting keeps the ids unique. */
  lemma DeleteKeepsIdsUnique(components: seq<ComponentEntry>, id: int)
    requires IdsUnique(components)
    ensures IdsUnique(DeleteComponent(components, id))
  {
    var r := DeleteComponent(components, id);
    IdsUniqueByMembership(components);
    SubsequenceOfDistinct(r, components);
    IdsUniqueByMembership(r);
  }

  /** One more than the largest id listed, and 1 for an empty list. */
  function NextFreeId(components: seq<ComponentEntry>): (n: int)
    ensures n >= 1
    ensures forall i :: 0 <= i < |components| ==> components[i].id < n
    decreases |components|
  {
    if components == [] then 1
    else
      var init := components[..|components| - 1];
      var last := components[|components| - 1].id + 1;
      var m := NextFreeId(init);
      assert forall i :: 0 <= i < |init| ==> components[i] == init[i];
      if m < last then last else m
  }

  /** While the ids are still 1..n, the next free id is n + 1, the id adding as written picks. */
  lemma {:induction false} NextFreeIdOfNumbered(components: seq<ComponentEntry>)
    ensures NumberedFromOne(ComponentIds(components)) ==> NextFreeId(components) == |components| + 1
    decreases |components|
  {
    if components != [] && NumberedFromOne(ComponentIds(components)) {
      var init := components[..|components| - 1];
      assert ComponentIds(init) == ComponentIds(components)[..|init|];
      NextFreeIdOfNumbered(init);
      assert ComponentIds(components)[|init|] == components[|init|].id;
    }
  }

  /** Adding with an id larger than every listed one. */
  function AddComponentWithFreshId(components: seq<ComponentEntry>, f: ComponentForm): (r: seq<ComponentEntry>)
    ensures |r| == |components| + 1 && r[..|components|] == components
    ensures r[|components|] == NewComponent(NextFreeId(components), f)
    ensures forall i :: 0 <= i < |components| ==> r[i].id != r[|components|].id
    ensures NumberedFromOne(ComponentIds(components)) ==> r == AddComponent(components, f)
  {
    NextFreeIdOfNumbered(components);
    components + [NewComponent(NextFreeId(components), f)]
  }

  /** Adding with a fresh id keeps the ids unique. */
  lemma AddWithFreshIdKeepsIdsUnique(components: seq<ComponentEntry>, f: ComponentForm)
    requires IdsUnique(components)
    ensures IdsUnique(AddComponentWithFreshId(components, f))
  {
    var r := AddComponentWithFreshId(components, f);
    IdsUniqueAt(components);
    forall i, j | 0 <= i < j < |r| ensures r[i].id != r[j].id {
      if j < |components| {
        assert r[i] == components[i] && r[j] == components[j];
      }
    }
    IdsUniqueAt(r);
  }

  /** What a user can do to the list: add the form's component, or delete an id. */
  datatype Edit = Add(form: ComponentForm) | Remove(id: int)

  /** One edit, adding as written. */
  function StepAsWritten(components: seq<ComponentEntry>, e: Edit): seq<ComponentEntry> {
    match e
    case Add(f) => AddComponent(components, f)
    case Remove(id) => DeleteComponent(components, id)
  }

  /** One edit, adding with a fresh id. */
  function StepWithFreshIds(components: seq<ComponentEntry>, e: Edit): seq<ComponentEntry> {
    match e
    case Add(f) => AddComponentWithFreshId(components, f)
    case Remove(id) => DeleteComponent(components, id)
  }

  /** The list after a sequence of edits, adding as written. */
  function ApplyAsWritten(components: seq<ComponentEntry>, edits: seq<Edit>): seq<ComponentEntry>
    decreases |edits|
  {
    if edits == [] then components else ApplyAsWritten(StepAsWritten(components, edits[0]), edits[1..])
  }

  /** The list after a sequence of edits, adding with fresh ids. */
  function ApplyWithFreshIds(components: seq<ComponentEntry>, edits: seq<Edit>): seq<ComponentEntry>
    decreases |edits|
  {
    if edits == [] then components else ApplyWithFreshIds(StepWithFreshIds(components, edits[0]), edits[1..])
  }

  /** Two edits as written are the two steps one after the other. */
  lemma ApplyTwoAsWritten(components: seq<ComponentEntry>, e: Edit, g: Edit)
    ensures ApplyAsWritten(components, [e, g]) == StepAsWritten(StepAsWritten(components, e), g)
  {
    var one := StepAsWritten(components, e);
    assert [e, g][1..] == [g] && [g][1..] == [];
    assert ApplyAsWritten(components, [e, g]) == ApplyAsWritten(one, [g]) == ApplyAsWritten(StepAsWritten(one, g), []);
  }

  /** Two edits with fresh ids are the two steps one after the other. */
  lemma ApplyTwoWithFreshIds(components: seq<ComponentEntry>, e: Edit, g: Edit)
    ensures ApplyWithFreshIds(components, [e, g]) == StepWithFreshIds(StepWithFreshIds(components, e), g)
  {
    var one := StepWithFreshIds(components, e);
    assert [e, g][1..] == [g] && [g][1..] == [];
    assert ApplyWithFreshIds(components, [e, g]) == ApplyWithFreshIds(one, [g])
        == ApplyWithFreshIds(StepWithFreshIds(one, g), []);
  }

  /** Any sequence of additions with fresh ids and deletions keeps unique ids unique. */
  lemma {:induction false} FreshEditsKeepIdsUnique(components: seq<ComponentEntry>, edits: seq<Edit>)
    requires IdsUnique(components)
    ensures IdsUnique(ApplyWithFreshIds(components, edits))
    decreases |edits|
  {
    if edits != [] {
      match edits[0]
      case Add(f) =>
        AddWithFreshIdKeepsIdsUnique(components, f);
        FreshEditsKeepIdsUnique(AddComponentWithFreshId(components, f), edits[1..]);
      case Remove(id) =>
        DeleteKeepsIdsUnique(components, id);
        FreshEditsKeepIdsUnique(DeleteComponent(components, id), edits[1..]);
    }
  }

  /** Ids numbered 1..n are unique. */
  lemma NumberedIdsUnique(components: seq<ComponentEntry>)
    requires NumberedFromOne(ComponentIds(components))
    ensures IdsUnique(components)
  {
    NumberedIdsAreFresh(ComponentIds(components));
  }

  /** The seed list is numbered 1..4. */
  lemma SeedNumbered()
    ensures NumberedFromOne(ComponentIds(SeedComponents))
  {
  }

  /** From the seed list, the ids stay unique under any edits. */
  lemma SeedFreshEditsKeepIdsUnique(edits: seq<Edit>)
    ensures IdsUnique(ApplyWithFreshIds(SeedComponents, edits))
  {
    SeedNumbered();
    NumberedIdsUnique(SeedComponents);
    FreshEditsKeepIdsUnique(SeedComponents, edits);
  }

  /** Deletion as a plain recursion over the list, to compute it on concrete lists. */
  function Without(components: seq<ComponentEntry>, id: int): seq<ComponentEntry> {
    if components == [] then []
    else (if components[0].id != id then [components[0]] else []) + Without(components[1..], id)
  }

  lemma {:induction false} DeleteIsWithout(components: seq<ComponentEntry>, id: int)
    ensures DeleteComponent(components, id) == Without(components, id)
  {
    if components != [] {
      DeleteIsWithout(components[1..], id);
    }
  }

  /** `Without` on four components, of which only the second has the id. */
  lemma WithoutSecondOfFour(a: ComponentEntry, b: ComponentEntry, c: ComponentEntry, d: ComponentEntry, id: int)
    requires a.id != id && b.id == id && c.id != id && d.id != id
    ensures Without([a, b, c, d], id) == [a, c, d]
  {
    assert [d][1..] == [];
    assert Without([d], id) == [d];
    assert [c, d][1..] == [d];
    assert Without([c, d], id) == [c, d];
    assert [b, c, d][1..] == [c, d];
    assert Without([b, c, d], id) == [c, d];
    assert [a, b, c, d][1..] == [b, c, d];
  }

  /** `Without` on four components, of which the last two have the id. */
  lemma WithoutLastTwoOfFour(a: ComponentEntry, b: ComponentEntry, c: ComponentEntry, d: ComponentEntry, id: int)
    requires a.id != id && b.id != id && c.id == id && d.id == id
    ensures Without([a, b, c, d], id) == [a, b]
  {
    assert [d][1..] == [];
    assert Without([d], id) == [];
    assert [c, d][1..] == [d];
    assert Without([c, d], id) == [];
    assert [b, c, d][1..] == [c, d];
    assert Without([b, c, d], id) == [b];
    assert [a, b, c, d][1..] == [b, c, d];
  }

  /** Deleting from four components, of which only the second has the id, leaves the other three. */
  lemma DeleteSecondOfFour(a: ComponentEntry, b: ComponentEntry, c: ComponentEntry, d: ComponentEntry, id: int)
    requires a.id != id && b.id == id && c.id != id && d.id != id
    ensures DeleteComponent([a, b, c, d], id) == [a, c, d]
  {
    WithoutSecondOfFour(a, b, c, d, id);
    DeleteIsWithout([a, b, c, d], id);
  }

  /** Deleting from four components, of which the last two have the id, leaves the first two. */
  lemma DeleteLastTwoOfFour(a: ComponentEntry, b: ComponentEntry, c: ComponentEntry, d: ComponentEntry, id: int)
    requires a.id != id && b.id != id && c.id == id && d.id == id
    ensures DeleteComponent([a, b, c, d], id) == [a, b]
  {
    WithoutLastTwoOfFour(a, b, c, d, id);
    DeleteIsWithout([a, b, c, d], id);
  }

  /** Removing id 2 from components numbered 1..4 leaves 1, 3 and 4, whichever way adding works. */
  lemma RemoveSecondOfFour(a: ComponentEntry, b: ComponentEntry, c: ComponentEntry, d: ComponentEntry)
    requires a.id == 1 && b.id == 2 && c.id == 3 && d.id == 4
    ensures StepAsWritten([a, b, c, d], Remove(2)) == [a, c, d]
    ensures StepWithFreshIds([a, b, c, d], Remove(2)) == [a, c, d]
  {
    DeleteSecondOfFour(a, b, c, d, 2);
  }

  /** Adding to three components as written numbers the new one 4. */
  lemma AddToThree(a: ComponentEntry, c: ComponentEntry, d: ComponentEntry, f: ComponentForm)
    ensures StepAsWritten([a, c, d], Add(f)) == [a, c, d, NewComponent(4, f)]
  {
  }

  /** Adding with a fresh id to components numbered 1, 3, 4 numbers the new one 5. */
  lemma FreshAddToThree(a: ComponentEntry, c: ComponentEntry, d: ComponentEntry, f: ComponentForm)
    requires a.id == 1 && c.id == 3 && d.id == 4
    ensures StepWithFreshIds([a, c, d], Add(f)) == [a, c, d, NewComponent(5, f)]
  {
    assert [a] == [a, c][..1] && [a, c] == [a, c, d][..2] && [a][..0] == [];
    assert NextFreeId([a]) == 2;
    assert NextFreeId([a, c]) == 4;
    assert NextFreeId([a, c, d]) == 5;
  }

  /** As written, deleting id 2 from components numbered 1..4 and adding one numbers the new one 4. */
  lemma AsWrittenDeleteThenAdd(a: ComponentEntry, b: ComponentEntry, c: ComponentEntry, d: ComponentEntry,
                               f: ComponentForm)
    requires a.id == 1 && b.id == 2 && c.id == 3 && d.id == 4
    ensures ApplyAsWritten([a, b, c, d], [Remove(2), Add(f)]) == [a, c, d, NewComponent(4, f)]
  {
    RemoveSecondOfFour(a, b, c, d);
    AddToThree(a, c, d, f);
    ApplyTwoAsWritten([a, b, c, d], Remove(2), Add(f));
  }

  /** With fresh ids, the same two edits number the new component 5. */
  lemma FreshDeleteThenAdd(a: ComponentEntry, b: ComponentEntry, c: ComponentEntry, d: ComponentEntry,
                           f: ComponentForm)
    requires a.id == 1 && b.id == 2 && c.id == 3 && d.id == 4
    ensures ApplyWithFreshIds([a, b, c, d], [Remove(2), Add(f)]) == [a, c, d, NewComponent(5, f)]
  {
    RemoveSecondOfFour(a, b, c, d);
    FreshAddToThree(a, c, d, f);
    ApplyTwoWithFreshIds([a, b, c, d], Remove(2), Add(f));
  }

  /**
   * As written, deleting component 2 from the seed list and then adding one gives the
   * new component id 4, which the Library Fee still has; deleting 4 afterwards removes
   * both, leaving two components.
   */
  lemma AsWrittenAddReusesId(f: ComponentForm)
    ensures var r := ApplyAsWritten(SeedComponents, [Remove(2), Add(f)]);
      && |r| == 4 && r[2].id == 4 && r[3].id == 4 && !IdsUnique(r)
      && |DeleteComponent(r, 4)| == 2
  {
    var s := SeedComponents;
    AsWrittenDeleteThenAdd(s[0], s[1], s[2], s[3], f);
    var r := [s[0], s[2], s[3], NewComponent(4, f)];
    DeleteLastTwoOfFour(r[0], r[1], r[2], r[3], 4);
    IdsUniqueAt(r);
  }

  /** With fresh ids, the same deletion and addition gives the new component id 5, and the ids stay unique. */
  lemma FreshIdAfterDelete(f: ComponentForm)
    ensures var r := ApplyWithFreshIds(SeedComponents, [Remove(2), Add(f)]);
      && |r| == 4 && r[3].id == 5 && IdsUnique(r)
  {
    var s := SeedComponents;
    FreshDeleteThenAdd(s[0], s[1], s[2], s[3], f);
    SeedFreshEditsKeepIdsUnique([Remove(2), Add(f)]);
  }

  /** The screen's state. */
  class FeeComponentManagement {
    var components: seq<ComponentEntry>
    var form: ComponentForm
    var addDialogOpen: bool

    constructor ()
      ensures components == SeedComponents && form == EmptyComponentForm && !addDialogOpen
      ensures NumberedFromOne(ComponentIds(components)) && IdsUnique(components)
    {
      SeedNumbered();
      NumberedIdsUnique(SeedComponents);
      components := SeedComponents;
      form := EmptyComponentForm;
      addDialogOpen := false;
    }

    /** Typing into one form field changes that field and nothing else. */
    method HandleInputChange(field: ComponentField, value: string)
      modifies this
      ensures form == WithField(old(form), field, value)
      ensures components == old(components) && addDialogOpen == old(addDialogOpen)
    {
      form := WithField(form, field, value);
    }

    /**
     * Adds the form's component at the end, numbered one past the length, with the
     * parsed amount; then blanks the form and closes the dialog. The ids stay 1..n as
     * long as they were: it is deletion that breaks them.
     */
    method HandleAddFeeComponent()
      modifies this
      ensures components == AddComponent(old(components), old(form))
      ensures |components| == |old(components)| + 1 && components[..|old(components)|] == old(components)
      ensures var c := components[|old(components)|];
        && c.id == |old(components)| + 1
        && c.name == old(form).name && c.className == old(form).className
        && c.amount == ParseInt(old(form).amount) && c.description == old(form).description
      ensures form == EmptyComponentForm && !addDialogOpen
      ensures old(NumberedFromOne(ComponentIds(components))) ==>
        NumberedFromOne(ComponentIds(components)) && IdsUnique(components)
    {
      ghost var wasNumbered := NumberedFromOne(ComponentIds(components));
      if wasNumbered {
        var r := AddComponentWithFreshId(components, form);
        NumberedIdsUnique(components);
        AddWithFreshIdKeepsIdsUnique(components, form);
      }
      var before := components;
      components := AddComponent(components, form);
      if wasNumbered {
        forall i | 0 <= i < |components| ensures ComponentIds(components)[i] == i + 1 {
          if i < |before| {
            assert components[i] == before[i];
            assert ComponentIds(before)[i] == before[i].id;
          }
        }
      }
      form := EmptyComponentForm;
      addDialogOpen := false;
    }

    /**
     * The corrected addition: like `HandleAddFeeComponent`, but the new component is
     * numbered one past the largest id listed, so unique ids stay unique across deletions.
     */
    method HandleAddFeeComponentWithFreshId()
      modifies this
      ensures components == AddComponentWithFreshId(old(components), old(form))
      ensures |components| == |old(components)| + 1 && components[..|old(components)|] == old(components)
      ensures var c := components[|old(components)|];
        && c.id == NextFreeId(old(components))
        && c.name == old(form).name && c.className == old(form).className
        && c.amount == ParseInt(old(form).amount) && c.description == old(form).description
      ensures forall i :: 0 <= i < |old(components)| ==> components[i].id < components[|old(components)|].id
      ensures form == EmptyComponentForm && !addDialogOpen
      ensures old(IdsUnique(components)) ==> IdsUnique(components)
    {
      if IdsUnique(components) {
        AddWithFreshIdKeepsIdsUnique(components, form);
      }
      components := AddComponentWithFreshId(components, form);
      form := EmptyComponentForm;
      addDialogOpen := false;
    }

    /** Removes every component with the id; the form and the dialog are untouched. */
    method HandleDelete(id: int)
      modifies this
      ensures components == DeleteComponent(old(components), id)
      ensures forall c :: c in components ==> c.id != id
      ensures form == old(form) && addDialogOpen == old(addDialogOpen)
      ensures old(IdsUnique(components)) ==> IdsUnique(components)
    {
      if IdsUnique(components) {
        DeleteKeepsIdsUnique(components, id);
      }
      components := DeleteComponent(components, id);
    }
  }
}
