/**
 * Friend records and the friend registry: the ordered list App keeps in its
 * `friends` state, the two transformations applied to it (append by spread,
 * balance update by `map`), and the balance message each row of the list shows.
 */
module Friends {

  /** Friend identifiers. Seed ids are numbers in the source; they are written here as digit strings. */
  type Id = string

  /** One friend: identifier, display name, avatar URL and the signed running balance. */
  datatype Friend = Friend(id: Id, name: string, image: string, balance: int)

  /** The identifiers of a registry, in registry order. */
  function IdsOf(fs: seq<Friend>): (ids: seq<Id>)
    ensures |ids| == |fs|
    ensures forall i :: 0 <= i < |fs| ==> ids[i] == fs[i].id
  {
    seq(|fs|, i requires 0 <= i < |fs| => fs[i].id)
  }

  /** No two records of the registry share an identifier. */
  predicate UniqueIds(fs: seq<Friend>)
  {
    forall i, j :: 0 <= i < j < |fs| ==> fs[i].id != fs[j].id
  }

  /** The registry App starts with. */
  function Seed(): (fs: seq<Friend>)
    ensures |fs| == 3 && UniqueIds(fs)
    ensures forall i :: 0 <= i < |fs| ==> fs[i].image == "https://i.pravatar.cc/48?u=" + fs[i].id
  {
    [ Friend("118836", "Clark", "https://i.pravatar.cc/48?u=118836", -7),
      Friend("933372", "Sarah", "https://i.pravatar.cc/48?u=933372", 20),
      Friend("499476", "Anthony", "https://i.pravatar.cc/48?u=499476", 0) ]
  }

  // ---------------------------------------------------------------------------
  // Append (handleAddFriend)
  // ---------------------------------------------------------------------------

  /** `[...friends, newFriend]`: the new record goes last, everything before it stays put. */
  function AppendFriend(fs: seq<Friend>, f: Friend): (r: seq<Friend>)
    ensures |r| == |fs| + 1
    ensures r[..|fs|] == fs && r[|fs|] == f
  {
    fs + [f]
  }

  /** Appending extends the id order by the new id, and a fresh id keeps ids unique. */
  lemma AppendFriendIds(fs: seq<Friend>, f: Friend)
    ensures IdsOf(AppendFriend(fs, f)) == IdsOf(fs) + [f.id]
    ensures UniqueIds(fs) && f.id !in IdsOf(fs) ==> UniqueIds(AppendFriend(fs, f))
  {
  }

  // ---------------------------------------------------------------------------
  // Balance update (handleSplitBill)
  // ---------------------------------------------------------------------------

  /** The `map` callback: the record with the given id gets `balance + value`, any other is returned as is. */
  function Credit(f: Friend, id: Id, value: int): (r: Friend)
    ensures r.id == f.id && r.name == f.name && r.image == f.image
    ensures r.balance == f.balance + (if f.id == id then value else 0)
  {
    if f.id == id then f.(balance := f.balance + value) else f
  }

  /** `friends.map(...)`: every record with the given id has `value` added to its balance; all else is kept, in order. */
  function ApplySplit(fs: seq<Friend>, id: Id, value: int): (r: seq<Friend>)
    ensures |r| == |fs|
    ensures forall i :: 0 <= i < |fs| && fs[i].id == id ==> r[i] == fs[i].(balance := fs[i].balance + value)
    ensures forall i :: 0 <= i < |fs| && fs[i].id != id ==> r[i] == fs[i]
  {
    if fs == [] then [] else [Credit(fs[0], id, value)] + ApplySplit(fs[1..], id, value)
  }

  /** A balance update never touches ids, so the id order and their uniqueness survive it. */
  lemma ApplySplitIds(fs: seq<Friend>, id: Id, value: int)
    ensures IdsOf(ApplySplit(fs, id, value)) == IdsOf(fs)
    ensures UniqueIds(fs) ==> UniqueIds(ApplySplit(fs, id, value))
  {
  }

  /** With unique ids, the update changes exactly the one record carrying the id. */
  lemma ApplySplitChangesOne(fs: seq<Friend>, id: Id, value: int, k: nat)
    requires UniqueIds(fs) && k < |fs| && fs[k].id == id
    ensures ApplySplit(fs, id, value) == fs[k := fs[k].(balance := fs[k].balance + value)]
  {
  }

  /** An id that is not in the registry leaves it unchanged. */
  lemma ApplySplitAbsent(fs: seq<Friend>, id: Id, value: int)
    requires id !in IdsOf(fs)
    ensures ApplySplit(fs, id, value) == fs
  {
  }

  /** Two splits with the same friend add up: applying `a` then `b` is applying `a + b` once. */
  lemma {:induction false} ApplySplitAdds(fs: seq<Friend>, id: Id, a: int, b: int)
    ensures ApplySplit(ApplySplit(fs, id, a), id, b) == ApplySplit(fs, id, a + b)
  {
    if fs != [] {
      ApplySplitAdds(fs[1..], id, a, b);
      assert ApplySplit(fs, id, a)[1..] == ApplySplit(fs[1..], id, a);
    }
  }

  // ---------------------------------------------------------------------------
  // Balance message (Friend row)
  // ---------------------------------------------------------------------------

  /** The message a friend row shows: "you owe", "owes you", or "even"; the amount is shown without sign. */
  datatype BalanceMessage = YouOwe(amount: nat) | OwesYou(amount: nat) | Even

  /** `Math.abs` on integers. */
  function Abs(x: int): (r: nat)
    ensures r == x || r == -x
  {
    if x < 0 then -x else x
  }

  /**
   * The messages the row renders: three independent conditionals, each of which
   * may or may not contribute one paragraph. Exactly one of them fires.
   */
  function Messages(balance: int): (ms: seq<BalanceMessage>)
    ensures |ms| == 1
    ensures ms[0].YouOwe? <==> balance < 0
    ensures ms[0].OwesYou? <==> balance > 0
    ensures ms[0].Even? <==> balance == 0
    ensures !ms[0].Even? ==> ms[0].amount == Abs(balance) > 0
  {
    (if balance < 0 then [YouOwe(Abs(balance))] else [])
    + (if balance > 0 then [OwesYou(Abs(balance))] else [])
    + (if balance == 0 then [Even] else [])
  }
}
