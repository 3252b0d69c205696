/** The Contact entity's read state, and ContactService: storing contact messages,
    reading them, counting the unread ones and deleting them. */
module Contacts {
  import opened Common

  /** A stored Contact row. */
  datatype ContactData = ContactData(
    id: Uuid, name: Option<string>, email: Option<string>, message: Option<string>,
    createdAt: Option<Timestamp>, read: bool, readAt: Option<Timestamp>)

  datatype ContactRequest = ContactRequest(name: Option<string>, email: Option<string>, message: Option<string>)

  /** ContactMailData: what the notification email is built from. */
  datatype MailData = MailData(name: Option<string>, email: Option<string>, message: Option<string>)

  /** What ContactService hands to its collaborators, in order. */
  datatype Effect = Saved(contactId: Uuid) | EmailRequested(mail: MailData)

  /** markAsRead's effect on a contact's state. */
  function MarkedRead(c: ContactData, now: Timestamp): ContactData
  {
    if c.read then c else c.(read := true, readAt := Some(now))
  }

  /** Marking read only touches the read state, sets readAt exactly on the
      transition, and a second mark (at any later time) changes nothing. */
  lemma MarkedReadProperties(c: ContactData, now: Timestamp, later: Timestamp)
    ensures var m := MarkedRead(c, now);
      && m.read
      && m.id == c.id && m.name == c.name && m.email == c.email && m.message == c.message
      && m.createdAt == c.createdAt
      && (!c.read ==> m.readAt == Some(now))
      && (c.read ==> m.readAt == c.readAt)
      && MarkedRead(m, later) == m
  {
  }

  /** The ids of the unread contacts. */
  function UnreadIds(contacts: map<Uuid, ContactData>): (ids: set<Uuid>)
    ensures ids <= contacts.Keys
  {
    set id | id in contacts && !contacts[id].read
  }

  /** countByReadFalse */
  function UnreadCount(contacts: map<Uuid, ContactData>): nat
  {
    |UnreadIds(contacts)|
  }

  /** There are never more unread contacts than contacts. */
  lemma UnreadCountBound(contacts: map<Uuid, ContactData>)
    ensures UnreadCount(contacts) <= |contacts|
  {
    assert UnreadIds(contacts) <= contacts.Keys;
    SubsetCardinality(UnreadIds(contacts), contacts.Keys);
  }

  lemma {:induction false} SubsetCardinality(a: set<Uuid>, b: set<Uuid>)
    requires a <= b
    ensures |a| <= |b|
    decreases |b|
  {
    if a != {} {
      var x :| x in a;
      SubsetCardinality(a - {x}, b - {x});
    }
  }

  /** Reading an unread contact lowers the unread count by exactly one. */
  lemma ReadLowersUnreadCount(contacts: map<Uuid, ContactData>, id: Uuid, now: Timestamp)
    requires id in contacts && !contacts[id].read
    ensures UnreadCount(contacts[id := MarkedRead(contacts[id], now)]) == UnreadCount(contacts) - 1
  {
    assert UnreadIds(contacts[id := MarkedRead(contacts[id], now)]) == UnreadIds(contacts) - {id};
  }

  /** Storing a new contact raises the unread count by exactly one. */
  lemma NewContactRaisesUnreadCount(contacts: map<Uuid, ContactData>, c: ContactData)
    requires c.id !in contacts && !c.read
    ensures UnreadCount(contacts[c.id := c]) == UnreadCount(contacts) + 1
  {
    assert UnreadIds(contacts[c.id := c]) == UnreadIds(contacts) + {c.id};
  }

  /** Deleting a contact lowers the unread count by one exactly when it was unread. */
  lemma DeleteLowersUnreadCount(contacts: map<Uuid, ContactData>, id: Uuid)
    ensures UnreadCount(contacts - {id}) ==
      UnreadCount(contacts) - (if id in contacts && !contacts[id].read then 1 else 0)
  {
    assert UnreadIds(contacts - {id}) == UnreadIds(contacts) - {id};
  }

  /** The Contact entity object. */
  class Contact {
    var id: Uuid
    var name: Option<string>
    var email: Option<string>
    var message: Option<string>
    var createdAt: Option<Timestamp>
    var read: bool
    var readAt: Option<Timestamp>

    function Data(): ContactData
      reads this
    {
      ContactData(id, name, email, message, createdAt, read, readAt)
    }

    /** `new Contact(name, email, message)`: unread, never read, not yet persisted. */
    constructor (name: Option<string>, email: Option<string>, message: Option<string>)
      ensures Data() == ContactData(NilUuid, name, email, message, None, false, None)
    {
      this.id := NilUuid;
      this.name := name;
      this.email := email;
      this.message := message;
      this.createdAt := None;
      this.read := false;
      this.readAt := None;
    }

    /** The entity findById hands out for a stored row. */
    constructor Load(d: ContactData)
      ensures Data() == d
    {
      id, name, email, message, createdAt, read, readAt :=
        d.id, d.name, d.email, d.message, d.createdAt, d.read, d.readAt;
    }

    /** markAsRead: `now` is the clock reading taken on the transition. */
    method MarkAsRead(now: Timestamp)
      modifies this
      ensures Data() == MarkedRead(old(Data()), now)
    {
      if !read {
        read := true;
        readAt := Some(now);
      }
    }
  }

  class ContactService {
    var contacts: map<Uuid, ContactData>
    var nextId: Uuid
    var effects: seq<Effect>

    ghost predicate Valid()
      reads this
    {
      nextId > 0 && forall id :: id in contacts ==> 0 < id < nextId && contacts[id].id == id
    }

    constructor ()
      ensures Valid() && contacts == map[] && effects == []
    {
      contacts, nextId, effects := map[], 1, [];
    }

    /** createContact: save the new contact, then ask for one notification email. */
    method CreateContact(request: ContactRequest, now: Timestamp)
      requires Valid()
      modifies this
      ensures Valid()
      ensures var stored := ContactData(old(nextId), request.name, request.email, request.message,
                                        Some(now), false, None);
        && old(nextId) !in old(contacts)
        && contacts == old(contacts)[old(nextId) := stored]
        && effects == old(effects) + [Saved(old(nextId)), EmailRequested(MailData(request.name, request.email, request.message))]
      ensures UnreadCount(contacts) == UnreadCount(old(contacts)) + 1
    {
      var contact := new Contact(request.name, request.email, request.message);
      contact.id := nextId;
      contact.createdAt := Some(now);
      nextId := nextId + 1;
      NewContactRaisesUnreadCount(contacts, contact.Data());
      contacts := contacts[contact.id := contact.Data()];
      effects := effects + [Saved(contact.id)];
      effects := effects + [EmailRequested(MailData(request.name, request.email, request.message))];
    }

    /** getUnreadCount */
    method GetUnreadCount() returns (count: nat)
      ensures count == UnreadCount(contacts)
      ensures count <= |contacts|
    {
      count := |UnreadIds(contacts)|;
      UnreadCountBound(contacts);
    }

    /** readContactMessage: marks an existing unread contact read and saves it once;
        a read contact or an unknown id saves nothing. Returns the unread count afterwards. */
    method ReadContactMessage(id: Uuid, now: Timestamp) returns (count: nat)
      requires Valid()
      modifies this`contacts, this`effects
      ensures Valid()
      ensures count == UnreadCount(contacts)
      ensures id in old(contacts) && !old(contacts)[id].read ==>
        && contacts == old(contacts)[id := MarkedRead(old(contacts)[id], now)]
        && contacts[id].readAt == Some(now)
        && effects == old(effects) + [Saved(id)]
        && count == UnreadCount(old(contacts)) - 1
      ensures !(id in old(contacts) && !old(contacts)[id].read) ==>
        contacts == old(contacts) && effects == old(effects) && count == UnreadCount(old(contacts))
    {
      if id in contacts && !contacts[id].read {
        var contact := new Contact.Load(contacts[id]);
        contact.MarkAsRead(now);
        ReadLowersUnreadCount(contacts, id, now);
        contacts := contacts[id := contact.Data()];
        effects := effects + [Saved(id)];
      }
      count := GetUnreadCount();
    }

    /** deleteContact: deleting an unknown id does nothing. */
    method DeleteContact(id: Uuid)
      requires Valid()
      modifies this`contacts
      ensures Valid()
      ensures contacts == old(contacts) - {id}
      ensures UnreadCount(contacts) ==
        UnreadCount(old(contacts)) - (if id in old(contacts) && !old(contacts)[id].read then 1 else 0)
    {
      DeleteLowersUnreadCount(contacts, id);
      contacts := contacts - {id};
    }
  }
}
