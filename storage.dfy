/**
 * The server's in-memory record store: two maps keyed by id and two id
 * counters that start at 1. Records are only ever added, each under the next
 * id, so a map's insertion order is its id order and listing the records in
 * id order is listing them in creation order.
 *
 * The creation time is a parameter: `now` is the timestamp of the call, as
 * the text its JSON form carries.
 */
module Storage {
  import opened Common
  import opened JsonData
  import opened Schema

  /** A stored booking: the parsed input plus `id` and `createdAt`. */
  datatype Booking = Booking(
    id: nat, name: string, email: string, phone: string, projectType: string,
    date: string, time: string, message: OptionalText, createdAt: string)

  /** A stored contact message: the parsed input plus `id` and `createdAt`. */
  datatype Contact = Contact(
    id: nat, name: string, email: string, subject: string, message: string, createdAt: string)

  /** The input fields of a stored booking. */
  function BookingInput(b: Booking): InsertBooking {
    InsertBooking(b.name, b.email, b.phone, b.projectType, b.date, b.time, b.message)
  }

  /** The input fields of a stored contact. */
  function ContactInput(c: Contact): InsertContact {
    InsertContact(c.name, c.email, c.subject, c.message)
  }

  /** `{ ...booking, id, createdAt: now }`. */
  function NewBooking(input: InsertBooking, id: nat, now: string): (b: Booking)
    ensures BookingInput(b) == input && b.id == id && b.createdAt == now
  {
    Booking(id, input.name, input.email, input.phone, input.projectType, input.date, input.time, input.message, now)
  }

  /** `{ ...contact, id, createdAt: now }`. */
  function NewContact(input: InsertContact, id: nat, now: string): (c: Contact)
    ensures ContactInput(c) == input && c.id == id && c.createdAt == now
  {
    Contact(id, input.name, input.email, input.subject, input.message, now)
  }

  /** The JSON a stored booking is sent as: its input fields plus `id` and `createdAt`. */
  function BookingJson(b: Booking): Json {
    JObj(BookingFields(BookingInput(b))["id" := JNum(b.id)]["createdAt" := JStr(b.createdAt)])
  }

  /** The JSON a stored contact is sent as. */
  function ContactJson(c: Contact): Json {
    JObj(ContactFields(ContactInput(c))["id" := JNum(c.id)]["createdAt" := JStr(c.createdAt)])
  }

  /** A stored booking, sent as JSON, parses back to its input fields: `id` and `createdAt` are dropped. */
  lemma BookingJsonParses(b: Booking)
    ensures ParseInsertBooking(BookingJson(b)) == Ok(BookingInput(b))
  {
    var f := BookingFields(BookingInput(b));
    BookingJsonRoundTrip(BookingInput(b));
    UnknownKeysDropped(f, "id", JNum(b.id));
    UnknownKeysDropped(f["id" := JNum(b.id)], "createdAt", JStr(b.createdAt));
  }

  /** A stored contact, sent as JSON, parses back to its input fields. */
  lemma ContactJsonParses(c: Contact)
    ensures ParseInsertContact(ContactJson(c)) == Ok(ContactInput(c))
  {
    var f := ContactFields(ContactInput(c));
    ContactJsonRoundTrip(ContactInput(c));
    UnknownKeysDropped(f, "id", JNum(c.id));
    UnknownKeysDropped(f["id" := JNum(c.id)], "createdAt", JStr(c.createdAt));
  }

  // ---------------------------------------------------------------------------
  // Listing a map whose keys are 1 .. n

  /** The values under keys 1 .. n, in key order. */
  function ValuesUpTo<V>(m: map<nat, V>, n: nat): (r: seq<V>)
    requires forall k :: 1 <= k <= n ==> k in m
    ensures |r| == n
  {
    if n == 0 then [] else ValuesUpTo(m, n - 1) + [m[n]]
  }

  /** Position `i` of the listing holds the value under key `i + 1`. */
  lemma {:induction false} ValuesUpToAt<V>(m: map<nat, V>, n: nat, i: nat)
    requires forall k :: 1 <= k <= n ==> k in m
    requires i < n
    ensures ValuesUpTo(m, n)[i] == m[i + 1]
  {
    if i < n - 1 {
      ValuesUpToAt(m, n - 1, i);
    }
  }

  /** Adding the key after the last one appends its value and leaves the earlier ones in place. */
  lemma {:induction false} ValuesUpToExtend<V>(m: map<nat, V>, n: nat, v: V)
    requires forall k :: 1 <= k <= n ==> k in m
    ensures ValuesUpTo(m[n + 1 := v], n + 1) == ValuesUpTo(m, n) + [v]
  {
    ValuesUpToUnchanged(m, n, n + 1, v);
  }

  /** Changing a key above `n` does not change the listing up to `n`. */
  lemma {:induction false} ValuesUpToUnchanged<V>(m: map<nat, V>, n: nat, key: nat, v: V)
    requires forall k :: 1 <= k <= n ==> k in m
    requires key > n
    ensures ValuesUpTo(m[key := v], n) == ValuesUpTo(m, n)
  {
    if n > 0 {
      ValuesUpToUnchanged(m, n - 1, key, v);
    }
  }

  /** Records listed by a store whose record ids equal their keys have strictly increasing ids. */
  lemma BookingIdsIncrease(m: map<nat, Booking>, n: nat)
    requires forall k :: 1 <= k <= n ==> k in m && m[k].id == k
    ensures forall i, j :: 0 <= i < j < n ==> ValuesUpTo(m, n)[i].id < ValuesUpTo(m, n)[j].id
    ensures forall i :: 0 <= i < n ==> ValuesUpTo(m, n)[i].id == i + 1
  {
    forall i | 0 <= i < n ensures ValuesUpTo(m, n)[i].id == i + 1 {
      ValuesUpToAt(m, n, i);
    }
  }

  /** `MemStorage`. */
  class MemStorage {
    var bookings: map<nat, Booking>
    var contacts: map<nat, Contact>
    var bookingId: nat
    var contactId: nat

    /** The keys are exactly the ids handed out so far, and every record carries its own key as id. */
    ghost predicate Valid()
      reads this
    {
      bookingId >= 1 && contactId >= 1 &&
      (forall k :: k in bookings <==> 1 <= k < bookingId) &&
      (forall k :: k in bookings ==> bookings[k].id == k) &&
      (forall k :: k in contacts <==> 1 <= k < contactId) &&
      (forall k :: k in contacts ==> contacts[k].id == k)
    }

    /** The stored bookings in creation order. */
    ghost function Bookings(): seq<Booking>
      reads this
      requires Valid()
    {
      ValuesUpTo(bookings, bookingId - 1)
    }

    /** The stored contacts in creation order. */
    ghost function Contacts(): seq<Contact>
      reads this
      requires Valid()
    {
      ValuesUpTo(contacts, contactId - 1)
    }

    /** Both maps empty, both counters at 1. */
    constructor ()
      ensures Valid()
      ensures bookings == map[] && contacts == map[] && bookingId == 1 && contactId == 1
      ensures Bookings() == [] && Contacts() == []
    {
      bookings := map[];
      contacts := map[];
      bookingId := 1;
      contactId := 1;
    }

    /**
     * `createBooking`: takes the current counter as id, advances it by one and
     * stores the input with that id and the current time. Nothing stored
     * before changes, and the contact side is untouched.
     */
    method CreateBooking(input: InsertBooking, now: string) returns (b: Booking)
      requires Valid()
      modifies this
      ensures Valid()
      ensures b.id == old(bookingId) && bookingId == old(bookingId) + 1
      ensures BookingInput(b) == input && b.createdAt == now
      ensures b.id !in old(bookings) && bookings == old(bookings)[b.id := b]
      ensures Bookings() == old(Bookings()) + [b]
      ensures contacts == old(contacts) && contactId == old(contactId)
    {
      var id := bookingId;
      bookingId := bookingId + 1;
      b := NewBooking(input, id, now);
      ValuesUpToExtend(bookings, id - 1, b);
      bookings := bookings[id := b];
    }

    /** `getBookings`: the stored bookings, in creation order. */
    method GetBookings() returns (list: seq<Booking>)
      requires Valid()
      ensures list == Bookings()
    {
      list := [];
      for id := 1 to bookingId
        invariant list == ValuesUpTo(bookings, id - 1)
      {
        list := list + [bookings[id]];
      }
    }

    /** `getBookingById`: the booking with that id, or `undefined` for an id never handed out. */
    method GetBookingById(id: int) returns (r: Option<Booking>)
      requires Valid()
      ensures r.Some? <==> 1 <= id < bookingId
      ensures r.Some? ==> r.value.id == id && r.value == bookings[id]
    {
      if id in bookings {
        r := Some(bookings[id]);
      } else {
        r := None;
      }
    }

    /**
     * `createContact`: takes the current contact counter as id, advances it by
     * one and stores the input; the booking side is untouched.
     */
    method CreateContact(input: InsertContact, now: string) returns (c: Contact)
      requires Valid()
      modifies this
      ensures Valid()
      ensures c.id == old(contactId) && contactId == old(contactId) + 1
      ensures ContactInput(c) == input && c.createdAt == now
      ensures c.id !in old(contacts) && contacts == old(contacts)[c.id := c]
      ensures Contacts() == old(Contacts()) + [c]
      ensures bookings == old(bookings) && bookingId == old(bookingId)
    {
      var id := contactId;
      contactId := contactId + 1;
      c := NewContact(input, id, now);
      ValuesUpToExtend(contacts, id - 1, c);
      contacts := contacts[id := c];
    }

    /** `getContacts`: the stored contacts, in creation order. */
    method GetContacts() returns (list: seq<Contact>)
      requires Valid()
      ensures list == Contacts()
    {
      list := [];
      for id := 1 to contactId
        invariant list == ValuesUpTo(contacts, id - 1)
      {
        list := list + [contacts[id]];
      }
    }

    /** `getContactById`: the contact with that id, or `undefined`. */
    method GetContactById(id: int) returns (r: Option<Contact>)
      requires Valid()
      ensures r.Some? <==> 1 <= id < contactId
      ensures r.Some? ==> r.value.id == id && r.value == contacts[id]
    {
      if id in contacts {
        r := Some(contacts[id]);
      } else {
        r := None;
      }
    }
  }

  /**
   * A fresh store gives id 1 to its first booking and, independently, id 1 to
   * its first contact; reading either back by id returns it.
   */
  method FirstRecords(booking: InsertBooking, contact: InsertContact, now: string)
    returns (b: Booking, c: Contact, gotB: Option<Booking>, gotC: Option<Contact>)
    ensures b.id == 1 && c.id == 1
    ensures gotB == Some(b) && gotC == Some(c)
  {
    var store := new MemStorage();
    b := store.CreateBooking(booking, now);
    c := store.CreateContact(contact, now);
    gotB := store.GetBookingById(b.id);
    gotC := store.GetContactById(c.id);
  }

  /** Every booking created gets a fresh id; the n-th booking has id n. */
  method CreateMany(inputs: seq<InsertBooking>, now: string) returns (created: seq<Booking>, listed: seq<Booking>)
    ensures |created| == |inputs|
    ensures forall i :: 0 <= i < |inputs| ==> created[i].id == i + 1 && BookingInput(created[i]) == inputs[i]
    ensures listed == created
  {
    var store := new MemStorage();
    created := [];
    for i := 0 to |inputs|
      invariant store.Valid() && store.bookingId == i + 1
      invariant |created| == i && store.Bookings() == created
      invariant forall j :: 0 <= j < i ==> created[j].id == j + 1 && BookingInput(created[j]) == inputs[j]
    {
      var b := store.CreateBooking(inputs[i], now);
      created := created + [b];
    }
    listed := store.GetBookings();
  }
}
