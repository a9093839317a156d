# Eat-n-split friend ledger, modelled in Dafny

This project models the state logic of a small bill-splitting app. The app keeps
a list of friends, each with a signed running balance:

- a negative balance means the user owes the friend;
- a positive balance means the friend owes the user.

The user can do three things:

- add a friend through a form;
- select a friend, or deselect by clicking the same row again;
- split a bill with the selected friend. The split turns the bill, the user's own
  expense and the payer into a balance delta for that friend.

Modules, following the components of `src/App.js`:

- `Wrappers`: `Option`, used for "no selection" and for a submission that emits nothing.
- `Friends`: the friend record, the registry operations and the balance message.
  - Append is `AppendFriend`.
  - The per-id balance update is `ApplySplit`.
  - The message a row shows is `Messages`.
  - `Seed` is the initial registry.
- `AddFriend`: the add-friend form's validation and record construction (`NewFriend`), and the form's fields as a class.
- `SplitBill`: the friend's derived share (`PaidByFriend`), the clamping expense setter (`ClampExpense`), the submitted delta (`SplitDelta`), and the form's fields as a class.
- `Ledger`: the selection toggle, the root controller `App` and three example sessions.
  - `App` holds `friends`, `showAddFriend` and `selected`, and owns the two forms.
  - The examples are `SplitScenario`, `ToggleScenario` and `AddFriendScenario`.

The framework mounts and unmounts the forms. The model states this explicitly:

- `App.Valid` says a hidden add-friend form is in its mount-time state.
- `App.Valid` also says that with no selection, the split-bill form is in its mount-time state.
- `App.SetSelectedFriend` resets the split-bill form exactly when its key changes. The key is the selected friend's id, or none.
- `ToggleChangesKey` proves that every row click changes that key.

`App.Valid` also carries three invariants:

- ids are unique;
- the id order is the seed's ids followed by the ids of added friends, in the order they were added;
- a selected friend is a record of the registry.

## Model

| member | source | states |
|---|---|---|
| Friends.Seed | src/App.js:2-21 | the initial registry has three records with distinct ids, each avatar URL being the avatar service URL with its id as `u` parameter |
| Friends.AppendFriend | src/App.js:37 | the result is one longer, keeps every old record in place and order, and has the new record last |
| Friends.AppendFriendIds | src/App.js:36-37 | appending extends the id order by the new id; with a fresh id, ids stay unique |
| Friends.Credit | src/App.js:48-51 | the `map` callback (a definition): id, name and image are kept, and the balance rises by `value` exactly when the id matches |
| Friends.ApplySplit | src/App.js:47-53 | same length and order; every record with the given id has `value` added to its balance; every other record is unchanged |
| Friends.ApplySplitIds | src/App.js:47-53 | the update keeps the id sequence, and hence id uniqueness |
| Friends.ApplySplitChangesOne | src/App.js:47-53 | with unique ids, the result is the registry with only the matching record's balance raised by `value` |
| Friends.ApplySplitAbsent | src/App.js:47-53 | an id not in the registry leaves it unchanged |
| Friends.ApplySplitAdds | src/App.js:47-53 | two updates of one friend equal one update by the sum |
| Friends.Abs | src/App.js:100-101 | `Math.abs`: the result is non-negative and is `x` or `-x` |
| Friends.Messages | src/App.js:100-102 | exactly one of the three conditional messages is shown; "you owe" iff balance < 0, "owes you" iff balance > 0, "even" iff balance = 0; the amount is the positive absolute value |
| AddFriend.AvatarUrl | src/App.js:121 | the avatar URL is the image field, then `?u=`, then the id, so the id can be read back |
| AddFriend.NewFriend | src/App.js:115-123 | nothing is emitted iff the name or the image field is empty; otherwise the record has the given id, the name, balance 0 and the image field with `?u=<id>` appended |
| AddFriend.AddFriendForm.constructor | src/App.js:109-110 | a new form has an empty name and the default image URL |
| AddFriend.AddFriendForm.SetName | src/App.js:134 | the name field takes the typed text; the image field is unchanged |
| AddFriend.AddFriendForm.SetImg | src/App.js:136 | the image field takes the typed text; the name is unchanged |
| AddFriend.AddFriendForm.Reset | src/App.js:127-128 | the fields return to an empty name and the default image URL |
| AddFriend.AddFriendForm.Submit | src/App.js:112-129 | it emits `NewFriend` of the current fields; a rejected submission leaves the fields as they were; a successful one resets them |
| SplitBill.PaidByFriend | src/App.js:146 | 0 while the bill is 0; otherwise the two shares add up to the bill |
| SplitBill.ClampExpense | src/App.js:172-174 | an input above the current bill keeps the old expense; any other input is stored as is |
| SplitBill.ClampExpenseWithinBill | src/App.js:172-174 | an expense within the bill stays within the bill after the setter |
| SplitBill.ClampExpenseIdempotent | src/App.js:172-174 | typing the same value twice has the effect of typing it once |
| SplitBill.LoweringBillLeavesExpenseAbove | src/App.js:164-174 | for all inputs: an expense the setter accepted against one bill stays above any lower non-zero bill set afterwards, and the friend's share is then negative |
| SplitBill.SplitDelta | src/App.js:151-152 | nothing is emitted iff the bill or the expense is 0; otherwise the delta is `bill - paidByMe` when the user paid and `-paidByMe` when the friend paid |
| SplitBill.SplitDeltaSigns | src/App.js:146-152 | for 0 < expense <= bill the delta is >= 0 when the user pays and < 0 when the friend pays, and switching the payer moves it by exactly the bill |
| SplitBill.SplitBillForm.constructor | src/App.js:144-147 | a new form has bill 0, an empty (zero) expense and the user as payer |
| SplitBill.SplitBillForm.Reset | src/App.js:144-147 | the fields return to their mount-time values |
| SplitBill.SplitBillForm.SetBill | src/App.js:164 | the bill takes the typed value without any check; the other fields are unchanged |
| SplitBill.SplitBillForm.SetExpense | src/App.js:172-174 | the expense becomes `ClampExpense` of the current bill, the old expense and the input; the other fields are unchanged |
| SplitBill.SplitBillForm.SetWhoIsPaying | src/App.js:181 | the payer takes the chosen value; the other fields are unchanged |
| SplitBill.SplitBillForm.Submit | src/App.js:149-153 | it emits nothing iff the bill or the expense is 0; otherwise it emits the delta for the current payer; the fields are not changed |
| Ledger.IsSelected | src/App.js:95 | `selectedFriend?.id === id`, the test also used at line 42 (a definition): a row is selected iff the split-bill form's key is its id |
| Ledger.Toggle | src/App.js:42 | the selection is cleared iff the clicked friend's id is the selected one; otherwise the clicked friend becomes selected |
| Ledger.ToggleFlipsSelected | src/App.js:95 | after a click on a row, that row's selected flag is the negation of what it was, and no row with another id is selected |
| Ledger.ToggleTwice | src/App.js:42 | two clicks on one row end at that friend if it was selected, and at no selection otherwise; so the prior selection is restored when it was none or that friend |
| Ledger.FormKey | src/App.js:67-71 | the split-bill form is mounted iff a friend is selected, and its key is that friend's id |
| Ledger.ToggleChangesKey | src/App.js:71 | every row click changes the split-bill form's key, so the form restarts from fresh state |
| Ledger.App.constructor | src/App.js:28-30 | the app starts with the given registry, the add-friend form hidden and no selection, and both forms fresh |
| Ledger.App.SetSelectedFriend | src/App.js:67-72 | the selection is replaced; the split-bill form is reset iff the key changes, and is otherwise untouched |
| Ledger.App.HandleShowAddFriend | src/App.js:32-34 | the flag is negated, so two calls restore it; closing discards the form's input |
| Ledger.App.HandleAddFriend | src/App.js:36-39 | the registry becomes `AppendFriend` of the old one; the form is closed and fresh; the added-ids history grows by the new id; the selection is unchanged |
| Ledger.App.HandleSelection | src/App.js:41-44 | the selection becomes `Toggle` of the old one; the add-friend form is closed; both forms are fresh; the registry is unchanged |
| Ledger.App.HandleSplitBill | src/App.js:46-55 | the registry becomes `ApplySplit` with the selected id; exactly the selected friend's record changes, by `value`; the selection is cleared and the split form is fresh |
| Ledger.App.SubmitAddFriend | src/App.js:112-129 | a rejected submission changes nothing and leaves the form open; an accepted one appends the new record and closes the form |
| Ledger.App.SubmitSplitBill | src/App.js:149-153 | with no delta nothing changes; with a delta the selected friend's balance takes `ApplySplit` by it and the selection is cleared |

## Left out

- Rendering is not modelled: the JSX, the `Button` and `FriendList` components, CSS classes and button labels. The text of the balance messages, including the friend's name, is also left out; `Messages` only classifies the message and gives the amount.
- React's state scheduling and re-rendering are not modelled. Remounting by `key` and by conditional rendering is modelled explicitly instead: `App.Valid` and `App.SetSelectedFriend`.
- How `crypto.randomUUID` makes ids is not modelled. The id is a parameter, and `App.HandleAddFriend` and `App.SubmitAddFriend` require it to be fresh in the registry.
- Friend ids: seed ids are numbers in the source and are modelled as digit strings. Ids from `crypto.randomUUID` are UUID strings, so they cannot collide with a seed id, in the source or in the model.
- Amounts are modelled as unbounded integers. Parsing with `Number(...)`, `NaN`, JavaScript's coercion of `''`, and floating-point balances are left out. The initial empty expense `''` is modelled as 0, which is falsy in the source just as `''` is.
- `e.preventDefault()` and other DOM event plumbing are not modelled.
- Payer choice: the payer selector offers only `'me'` and `'friend'`, so `Payer` has those two values, `ByMe` and `ByFriend`. Any other string would take the friend branch of line 152.
- The selection is modelled as a copy of the selected record, where the source stores a reference to it. Records are never changed in place, and the one update that replaces a record also clears the selection, so the two agree.
- App.HandleSplitBill: requires a selection, because the source reads `selectedFriend.id` and that handler is reachable only from the split-bill form, which is mounted only while a friend is selected.
- The seed data is used only as an example initial registry (`Seed` and the scenario methods).
- Ledger.ToggleTwice: two clicks on the same row restore the prior selection only when nothing, or that friend, was selected; from another friend's selection they end at no selection.
- The expense is compared with the bill only when the expense is typed (src/App.js:172-174), not when the bill changes (src/App.js:164); `LoweringBillLeavesExpenseAbove` shows the consequence.
