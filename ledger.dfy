/**
 * The root controller: App's `friends`, `showAddFriend` and `selectedFriend`
 * state, the selection toggle, and the wiring of the two forms' submissions to
 * the registry. The forms' remounting is explicit: a hidden add-friend form holds
 * its mount-time state, and the split-bill form starts afresh whenever the
 * selected friend's id (the form's key) changes, including when selection is cleared.
 */
module Ledger {
  import opened Wrappers
  import opened Friends
  import opened AddFriend
  import opened SplitBill

  // ---------------------------------------------------------------------------
  // Selection
  // ---------------------------------------------------------------------------

  /** `selectedFriend?.id === friend.id`: the row's button reads "Close" rather than "Select". */
  function IsSelected(selected: Option<Friend>, f: Friend): (b: bool)
    ensures b <==> FormKey(selected) == Some(f.id)
  {
    selected.Some? && selected.value.id == f.id
  }

  /** The selection update of `handleSelection`: the same friend again deselects, any other friend is selected. */
  function Toggle(selected: Option<Friend>, f: Friend): (r: Option<Friend>)
    ensures r.None? <==> IsSelected(selected, f)
    ensures r.Some? ==> r.value == f
  {
    if IsSelected(selected, f) then None else Some(f)
  }

  /** Clicking a row flips whether that row is the selected one, and leaves no other row selected. */
  lemma ToggleFlipsSelected(selected: Option<Friend>, f: Friend, g: Friend)
    ensures IsSelected(Toggle(selected, f), f) == !IsSelected(selected, f)
    ensures g.id != f.id ==> !IsSelected(Toggle(selected, f), g)
  {
  }

  /**
   * Clicking the same row twice: back to no selection when nothing or another
   * friend was selected, and to that friend when it was selected already. So the
   * prior selection comes back only when it was none or that friend itself.
   */
  lemma ToggleTwice(selected: Option<Friend>, f: Friend)
    ensures Toggle(Toggle(selected, f), f) == if IsSelected(selected, f) then Some(f) else None
    ensures selected.None? ==> Toggle(Toggle(selected, f), f) == selected
    ensures selected == Some(f) ==> Toggle(Toggle(selected, f), f) == selected
  {
  }

  /** The split-bill form's key: the selected id, or none when the form is not mounted. */
  function FormKey(selected: Option<Friend>): (k: Option<Id>)
    ensures k.None? <==> selected.None?
    ensures k.Some? ==> k.value == selected.value.id
  {
    if selected.Some? then Some(selected.value.id) else None
  }

  /** Every click on a row changes the split-bill form's key, so the form always starts afresh after one. */
  lemma ToggleChangesKey(selected: Option<Friend>, f: Friend)
    ensures FormKey(Toggle(selected, f)) != FormKey(selected)
  {
  }

  // ---------------------------------------------------------------------------
  // The root controller
  // ---------------------------------------------------------------------------

  class App {
    var friends: seq<Friend>
    var showAddFriend: bool
    var selected: Option<Friend>
    const addForm: AddFriendForm
    const splitForm: SplitBillForm

    /** The registry App started with, and the ids of the friends added since, in order. */
    ghost const seed: seq<Friend>
    ghost var added: seq<Id>

    /**
     * Ids stay unique and in the order seed-then-additions; the selection is a
     * record of the registry; a hidden form is in its mount-time state.
     */
    ghost predicate Valid()
      reads this, addForm, splitForm
    {
      && UniqueIds(friends)
      && IdsOf(friends) == IdsOf(seed) + added
      && (selected.Some? ==> selected.value in friends)
      && (!showAddFriend ==> addForm.IsFresh())
      && (selected.None? ==> splitForm.IsFresh())
    }

    constructor (initial: seq<Friend>)
      requires UniqueIds(initial)
      ensures Valid() && fresh(addForm) && fresh(splitForm)
      ensures friends == initial && !showAddFriend && selected.None?
      ensures seed == initial && added == []
    {
      friends := initial;
      showAddFriend := false;
      selected := None;
      addForm := new AddFriendForm();
      splitForm := new SplitBillForm();
      seed := initial;
      added := [];
    }

    /** `setSelectedFriend` together with the key-driven remount of the split-bill form. */
    method SetSelectedFriend(next: Option<Friend>)
      modifies this`selected, splitForm
      ensures selected == next
      ensures FormKey(next) != FormKey(old(selected)) ==> splitForm.IsFresh()
      ensures FormKey(next) == FormKey(old(selected)) ==> unchanged(splitForm)
    {
      if FormKey(next) != FormKey(selected) {
        splitForm.Reset();
      }
      selected := next;
    }

    /** The "Add Friend" / "Close" button: flips the flag; closing unmounts the form and so discards its input. */
    method HandleShowAddFriend()
      requires Valid()
      modifies this`showAddFriend, addForm
      ensures Valid()
      ensures showAddFriend == !old(showAddFriend)
      ensures addForm.IsFresh()
      ensures !old(showAddFriend) ==> unchanged(addForm)
    {
      showAddFriend := !showAddFriend;
      if !showAddFriend {
        addForm.Reset();
      }
    }

    /** `handleAddFriend`: the record goes at the end of the registry and the form closes. */
    method HandleAddFriend(f: Friend)
      requires Valid() && f.id !in IdsOf(friends)
      modifies this`friends, this`showAddFriend, this`added, addForm
      ensures Valid()
      ensures friends == AppendFriend(old(friends), f)
      ensures !showAddFriend && addForm.IsFresh()
      ensures added == old(added) + [f.id]
    {
      AppendFriendIds(friends, f);
      friends := AppendFriend(friends, f);
      added := added + [f.id];
      showAddFriend := false;
      addForm.Reset();
    }

    /** `handleSelection`: toggles the selection and closes the add-friend form. */
    method HandleSelection(f: Friend)
      requires Valid() && f in friends
      modifies this`selected, this`showAddFriend, addForm, splitForm
      ensures Valid()
      ensures selected == Toggle(old(selected), f)
      ensures !showAddFriend && addForm.IsFresh() && splitForm.IsFresh()
    {
      ToggleChangesKey(selected, f);
      SetSelectedFriend(Toggle(selected, f));
      showAddFriend := false;
      addForm.Reset();
    }

    /**
     * `handleSplitBill`: the selected friend's record has `value` added to its
     * balance, nothing else in the registry changes, and the selection is cleared.
     */
    method HandleSplitBill(value: int)
      requires Valid() && selected.Some?
      modifies this`friends, this`selected, splitForm
      ensures Valid()
      ensures friends == ApplySplit(old(friends), old(selected).value.id, value)
      ensures forall k :: 0 <= k < |old(friends)| && old(friends)[k] == old(selected).value ==>
                friends == old(friends)[k := old(friends)[k].(balance := old(friends)[k].balance + value)]
      ensures selected.None? && splitForm.IsFresh()
    {
      var id := selected.value.id;
      forall k | 0 <= k < |friends| && friends[k] == selected.value
        ensures ApplySplit(friends, id, value) == friends[k := friends[k].(balance := friends[k].balance + value)]
      {
        ApplySplitChangesOne(friends, id, value, k);
      }
      ApplySplitIds(friends, id, value);
      friends := ApplySplit(friends, id, value);
      SetSelectedFriend(None);
    }

    /** Submitting the add-friend form with a fresh id: a valid submission is appended and closes the form. */
    method SubmitAddFriend(id: Id)
      requires Valid() && showAddFriend && id !in IdsOf(friends)
      modifies this`friends, this`showAddFriend, this`added, addForm
      ensures Valid()
      ensures NewFriend(old(addForm.name), old(addForm.img), id).None? ==>
                friends == old(friends) && showAddFriend && added == old(added)
                && addForm.name == old(addForm.name) && addForm.img == old(addForm.img)
      ensures NewFriend(old(addForm.name), old(addForm.img), id).Some? ==>
                friends == AppendFriend(old(friends), NewFriend(old(addForm.name), old(addForm.img), id).value)
                && !showAddFriend && addForm.IsFresh() && added == old(added) + [id]
    {
      var r := addForm.Submit(id);
      if r.Some? {
        HandleAddFriend(r.value);
      }
    }

    /** Submitting the split-bill form: a delta, if one is emitted, goes to the selected friend's balance. */
    method SubmitSplitBill()
      requires Valid() && selected.Some?
      modifies this`friends, this`selected, splitForm
      ensures Valid()
      ensures SplitDelta(old(splitForm.bill), old(splitForm.paidByMe), old(splitForm.whoIsPaying)).None? ==>
                friends == old(friends) && selected == old(selected) && unchanged(splitForm)
      ensures SplitDelta(old(splitForm.bill), old(splitForm.paidByMe), old(splitForm.whoIsPaying)).Some? ==>
                friends == ApplySplit(old(friends), old(selected).value.id,
                                      SplitDelta(old(splitForm.bill), old(splitForm.paidByMe), old(splitForm.whoIsPaying)).value)
                && selected.None? && splitForm.IsFresh()
    {
      var d := splitForm.Submit();
      if d.Some? {
        HandleSplitBill(d.value);
      }
    }
  }

  /** Two bill splits of 100 with an expense of 40 on the seed registry: user paying, then friend paying. */
  method SplitScenario()
  {
    var app := new App(Seed());
    var clark, sarah := app.friends[0], app.friends[1];

    app.HandleSelection(clark);
    assert app.selected == Some(clark);
    app.splitForm.SetBill(100);
    app.splitForm.SetExpense(40);
    app.splitForm.SetExpense(120);
    assert app.splitForm.paidByMe == 40;
    assert app.Valid();
    app.SubmitSplitBill();
    assert app.friends[0].balance == -7 + 60 && app.friends[1] == sarah;
    assert app.selected.None?;

    app.HandleSelection(sarah);
    app.splitForm.SetBill(100);
    app.splitForm.SetExpense(40);
    app.splitForm.SetWhoIsPaying(ByFriend);
    assert app.Valid();
    app.SubmitSplitBill();
    assert app.friends[1].balance == 20 - 40;
  }

  /** Clicking a row twice, and the add-friend button twice. */
  method ToggleScenario()
  {
    var app := new App(Seed());
    var clark := app.friends[0];
    app.HandleSelection(clark);
    app.HandleSelection(clark);
    assert app.selected.None?;
    app.HandleShowAddFriend();
    app.HandleShowAddFriend();
    assert !app.showAddFriend;
  }

  /** An empty name is rejected and leaves the form open; a named friend is appended and closes it. */
  method AddFriendScenario()
  {
    var app := new App(Seed());
    app.HandleShowAddFriend();
    assert app.addForm.name == "";
    assert "f1" !in IdsOf(app.friends);
    app.SubmitAddFriend("f1");
    assert |app.friends| == 3 && app.showAddFriend;
    app.addForm.SetName("Dana");
    assert app.Valid();
    app.SubmitAddFriend("f1");
    assert |app.friends| == 4 && app.friends[3].name == "Dana" && app.friends[3].balance == 0;
    assert !app.showAddFriend;
  }
}
