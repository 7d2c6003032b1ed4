// The screen's view model: an observable, append-only list of contacts.

module ContactStore {
  import opened ContactModel

  /** Holds the contacts in the order they were added. There is no remove
    * or update operation, so the list only grows. */
  class ContactViewModel {
    var contacts: seq<Contact>

    /** A new view model starts with an empty list. */
    constructor ()
      ensures contacts == []
    {
      contacts := [];
    }

    /** Appends `contact` at the end; earlier entries keep their positions. */
    method AddContact(contact: Contact)
      modifies this
      ensures contacts == old(contacts) + [contact]
      ensures |contacts| == |old(contacts)| + 1
      ensures contacts[..|old(contacts)|] == old(contacts)
      ensures contacts[|old(contacts)|] == contact
    {
      contacts := contacts + [contact];
    }
  }

  /** The list held after `adds` are passed one by one, in order, to
    * `AddContact`, starting from the list `start`. */
  function AfterAdds(start: seq<Contact>, adds: seq<Contact>): seq<Contact>
    decreases |adds|
  {
    if adds == [] then start else AfterAdds(start + [adds[0]], adds[1..])
  }

  /** Any run of adds leaves the earlier list as a prefix, followed by
    * exactly the added contacts in the order they were added (duplicates
    * included). */
  lemma {:induction false} AfterAddsAppends(start: seq<Contact>, adds: seq<Contact>)
    ensures AfterAdds(start, adds) == start + adds
    decreases |adds|
  {
    if adds != [] {
      AfterAddsAppends(start + [adds[0]], adds[1..]);
      assert start + [adds[0]] + adds[1..] == start + adds;
    }
  }

  /** The store only grows: its length goes up by one per add, and the
    * list after any first part of the adds is a prefix of the final list. */
  lemma AfterAddsGrows(start: seq<Contact>, adds: seq<Contact>, k: nat)
    requires k <= |adds|
    ensures |AfterAdds(start, adds)| == |start| + |adds|
    ensures AfterAdds(start, adds[..k]) <= AfterAdds(start, adds)
    ensures forall i :: 0 <= i < |adds| ==> AfterAdds(start, adds)[|start| + i] == adds[i]
  {
    AfterAddsAppends(start, adds);
    AfterAddsAppends(start, adds[..k]);
    assert adds == adds[..k] + adds[k..];
    assert start + adds == (start + adds[..k]) + adds[k..];
  }

  /** Adding A and then B leaves A immediately before B at the end. */
  lemma AddedInOrder(start: seq<Contact>, a: Contact, b: Contact)
    ensures |AfterAdds(start, [a, b])| == |start| + 2
    ensures AfterAdds(start, [a, b])[|start|] == a
    ensures AfterAdds(start, [a, b])[|start| + 1] == b
  {
    AfterAddsAppends(start, [a, b]);
  }

  /** Nothing rejects a duplicate: adding the same contact twice keeps both. */
  lemma DuplicatesKept(c: Contact)
    ensures AfterAdds([], [c, c]) == [c, c]
  {
    AfterAddsAppends([], [c, c]);
  }
}
