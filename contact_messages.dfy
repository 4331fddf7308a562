// ContactMessageService: saving a message from the public contact form
// after its non-blank checks, and marking a message read. The
// ContactMessage entity is not part of this model; it is given the fields
// the service reads and writes.
module ContactMessages {
  import opened Wrappers
  import opened JavaStrings
  import opened Errors

  /** The fields of a contact message the service touches. */
  datatype MessageData = MessageData(id: Option<int>, name: Option<string>, email: Option<string>,
                                     message: Option<string>, read: bool)

  class ContactMessage {
    var id: Option<int>
    var name: Option<string>
    var email: Option<string>
    var message: Option<string>
    var read: bool

    function Data(): MessageData
      reads this
    {
      MessageData(id, name, email, message, read)
    }

    /** A new message from the form: not yet read. */
    constructor (name: Option<string>, email: Option<string>, message: Option<string>)
      ensures Data() == MessageData(None, name, email, message, false)
    {
      this.id := None;
      this.name := name;
      this.email := email;
      this.message := message;
      this.read := false;
    }

    method SetId(v: Option<int>)
      modifies this`id
      ensures Data() == old(Data()).(id := v)
    {
      id := v;
    }

    method SetRead(v: bool)
      modifies this`read
      ensures Data() == old(Data()).(read := v)
    {
      read := v;
    }

    /** The copy `merge` makes onto a managed instance: every field but the id. */
    method CopyFrom(d: MessageData)
      modifies this`name, this`email, this`message, this`read
      ensures Data() == d.(id := old(id))
    {
      name, email, message, read := d.name, d.email, d.message, d.read;
    }
  }

  /** `saveMessage`'s check: name, email and message all present and not blank. */
  predicate Complete(m: MessageData)
  {
    !NullOrBlank(m.name) && !NullOrBlank(m.email) && !NullOrBlank(m.message)
  }

  const IncompleteMessage := Exception(IllegalArgument, "Name, email, and message cannot be empty.")

  /** The contact message repository: messages by id. */
  class MessageStore {
    var messages: map<int, ContactMessage>
    var nextId: nat

    ghost predicate Valid()
      reads this, messages.Values
    {
      nextId >= 1 && forall k :: k in messages ==> 1 <= k < nextId && messages[k].id == Some(k)
    }

    constructor ()
      ensures Valid() && messages == map[]
    {
      messages := map[];
      nextId := 1;
    }

    /** The stored instance `save` merges `m` onto, if `m` names a stored id. */
    function MergeTarget(m: ContactMessage): set<ContactMessage>
      reads this, m
    {
      if m.id.Some? && m.id.value in messages then {messages[m.id.value]} else {}
    }

    /**
     * `saveMessage`: an incomplete message is refused and nothing is
     * stored; a complete new one is stored unchanged apart from its id. One
     * that carries an id is merged: it overwrites the message stored under
     * that id, or is stored as a new message under the next id.
     */
    method SaveMessage(m: ContactMessage) returns (r: Result<ContactMessage, Exception>)
      requires Valid()
      modifies this, m, MergeTarget(m)
      ensures Valid()
      ensures !Complete(old(m.Data())) ==>
                r == Err(IncompleteMessage) && messages == old(messages) && nextId == old(nextId) && m.Data() == old(m.Data())
      ensures Complete(old(m.Data())) && old(m.id).None? ==>
                && r == Ok(m)
                && m.Data() == old(m.Data()).(id := Some(old(nextId)))
                && messages == old(messages)[old(nextId) := m]
                && nextId == old(nextId) + 1
      ensures Complete(old(m.Data())) && old(m.id).Some? ==>
                var k := old(m.id.value);
                && m.Data() == old(m.Data())
                && if k in old(messages) then
                     && messages == old(messages) && nextId == old(nextId)
                     && r == Ok(messages[k]) && messages[k].Data() == old(m.Data())
                   else
                     && r.Ok? && fresh(r.value) && r.value.Data() == old(m.Data()).(id := Some(old(nextId)))
                     && messages == old(messages)[old(nextId) := r.value] && nextId == old(nextId) + 1
    {
      if !Complete(m.Data()) {
        return Err(IncompleteMessage);
      }
      match m.id {
        case None =>
          m.SetId(Some(nextId));
          messages := messages[nextId := m];
          nextId := nextId + 1;
          r := Ok(m);
        case Some(k) =>
          if k in messages {
            var stored := messages[k];
            if stored != m {
              stored.CopyFrom(m.Data());
            }
            r := Ok(stored);
          } else {
            var inserted := new ContactMessage(m.name, m.email, m.message);
            inserted.SetRead(m.read);
            inserted.SetId(Some(nextId));
            messages := messages[nextId := inserted];
            nextId := nextId + 1;
            r := Ok(inserted);
          }
      }
    }

    /**
     * `markAsRead`: false and no change for an unknown id; otherwise the
     * message's read flag is set, nothing else about it changes, and the
     * answer is true.
     */
    method MarkAsRead(id: int) returns (found: bool)
      requires Valid()
      modifies if id in messages then {messages[id]} else {}
      ensures Valid()
      ensures found <==> id in messages
      ensures found ==> messages[id].Data() == old(messages[id].Data()).(read := true)
    {
      if id !in messages {
        return false;
      }
      messages[id].SetRead(true);
      found := true;
    }
  }

  /** Marking is idempotent: a second mark finds the message and leaves it as the first left it. */
  method MarkTwice(store: MessageStore, id: int) returns (first: bool, second: bool)
    requires store.Valid()
    modifies if id in store.messages then {store.messages[id]} else {}
    ensures first == second
    ensures first <==> id in store.messages
    ensures first ==> store.messages[id].Data() == old(store.messages[id].Data()).(read := true)
  {
    first := store.MarkAsRead(id);
    var afterFirst := if first then Some(store.messages[id].Data()) else None;
    second := store.MarkAsRead(id);
    assert first ==> store.messages[id].Data() == afterFirst.value;
  }
}
