/**
 * The add-friend form: two text fields and a submit handler that validates them
 * and builds a new friend record. The fresh identifier the source draws from
 * `crypto.randomUUID` is passed in by the caller.
 */
module AddFriend {
  import opened Wrappers
  import opened Friends

  /** The avatar service URL the image field starts with and is reset to. */
  const DefaultImage: string := "https://i.pravatar.cc/48"

  /**
   * The avatar URL of a new friend: the image field, then `?u=`, then the id,
   * so the id can be read back from a URL built on a known image field.
   */
  function AvatarUrl(img: string, id: Id): (u: string)
    ensures |u| == |img| + 3 + |id|
    ensures u[..|img|] == img && u[|img|..|img| + 3] == "?u=" && u[|img| + 3..] == id
  {
    assert (img + "?u=" + id)[|img|..] == "?u=" + id;
    img + "?u=" + id
  }

  /**
   * What a submission emits: nothing when the name or the image field is empty,
   * otherwise a record with the given id, the name, the derived avatar URL and a zero balance.
   */
  function NewFriend(name: string, img: string, id: Id): (r: Option<Friend>)
    ensures r.None? <==> name == "" || img == ""
    ensures r.Some? ==> r.value.id == id && r.value.name == name && r.value.balance == 0
    ensures r.Some? ==> |r.value.image| == |img| + 3 + |id|
    ensures r.Some? ==> r.value.image[..|img|] == img && r.value.image[|img|..|img| + 3] == "?u=" && r.value.image[|img| + 3..] == id
  {
    if name == "" || img == "" then None
    else Some(Friend(id, name, AvatarUrl(img, id), 0))
  }

  /** The form's local state: the `name` and `img` input fields. */
  class AddFriendForm {
    var name: string
    var img: string

    /** The state the form is mounted with. */
    predicate IsFresh()
      reads this
    {
      name == "" && img == DefaultImage
    }

    constructor ()
      ensures IsFresh()
    {
      name := "";
      img := DefaultImage;
    }

    /** Typing into the name field. */
    method SetName(s: string)
      modifies this
      ensures name == s && img == old(img)
    {
      name := s;
    }

    /** Typing into the image URL field. */
    method SetImg(s: string)
      modifies this
      ensures img == s && name == old(name)
    {
      img := s;
    }

    /** Puts the fields back to their mount-time values. */
    method Reset()
      modifies this
      ensures IsFresh()
    {
      name := "";
      img := DefaultImage;
    }

    /**
     * Submitting the form: emits the record `NewFriend` describes; on success the
     * fields are reset, on a rejected submission they are left as they were.
     */
    method Submit(id: Id) returns (r: Option<Friend>)
      modifies this
      ensures r == NewFriend(old(name), old(img), id)
      ensures r.None? ==> name == old(name) && img == old(img)
      ensures r.Some? ==> IsFresh()
    {
      if name == "" || img == "" {
        return None;
      }
      r := Some(Friend(id, name, AvatarUrl(img, id), 0));
      name := "";
      img := DefaultImage;
    }
  }
}
