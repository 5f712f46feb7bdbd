/** The database context: the rows the database holds, the change tracker's
    unsaved changes, and the save that stamps and writes them. */
module Data {
  import opened Models
  import Queries

  // ---- Audit stamping on save ----

  datatype EntityState = Detached | Unchanged | Deleted | Modified | Added

  /** A change-tracker entry: the entity's state, whether the entity is an
      `ITimeStampedModel`, and its two stamps. */
  datatype Entry = Entry(state: EntityState, timeStamped: bool, createdAt: DateTime, updatedAt: DateTime)

  /** What a save does to one entry: an added time-stamped entity gets both
      stamps, a modified one a new `UpdatedAt`; nothing else is touched. */
  function Stamp(e: Entry, now: DateTime): Entry
  {
    if e.timeStamped && e.state == Added then e.(createdAt := now, updatedAt := now)
    else if e.timeStamped && e.state == Modified then e.(updatedAt := now)
    else e
  }

  /** The loop SaveChanges and SaveChangesAsync run before handing over to
      the base save: one timestamp, read once, for every entry. */
  method StampEntries(entries: array<Entry>, now: DateTime)
    modifies entries
    ensures forall i | 0 <= i < entries.Length :: entries[i] == Stamp(old(entries[i]), now)
    ensures forall i | 0 <= i < entries.Length :: entries[i] == old(entries[i]) || entries[i].updatedAt == now
  {
    var i := 0;
    while i < entries.Length
      invariant 0 <= i <= entries.Length
      invariant forall k | 0 <= k < i :: entries[k] == Stamp(old(entries[k]), now)
      invariant forall k | i <= k < entries.Length :: entries[k] == old(entries[k])
    {
      var e := entries[i];
      if e.timeStamped {
        if e.state == Added {
          entries[i] := e.(createdAt := now, updatedAt := now);
        } else if e.state == Modified {
          entries[i] := e.(updatedAt := now);
        }
      }
      i := i + 1;
    }
  }

  /** Stamping keeps an entry's state and kind; an added time-stamped entry
      ends with both stamps at the clock, a modified one with its update
      stamp at the clock and its creation stamp kept; any other entry is left
      as it was; and stamping again with the same clock changes nothing. */
  lemma StampEffect(e: Entry, now: DateTime)
    ensures var s := Stamp(e, now);
      && s.state == e.state && s.timeStamped == e.timeStamped
      && (e.timeStamped && e.state == Added ==> s.createdAt == now && s.updatedAt == now)
      && (e.timeStamped && e.state == Modified ==> s.updatedAt == now && s.createdAt == e.createdAt)
      && (!e.timeStamped || (e.state != Added && e.state != Modified) ==> s == e)
      && Stamp(s, now) == s
  {
  }

  /** Stamping an address as an entry in the given state. */
  function StampAddress(a: Address, state: EntityState, now: DateTime): (r: Address)
    ensures SameAddressFields(r, a)
  {
    var e := Stamp(Entry(state, true, a.createdAt, a.updatedAt), now);
    a.(createdAt := e.createdAt, updatedAt := e.updatedAt)
  }

  function StampAccount(b: BankAccount, state: EntityState, now: DateTime): (r: BankAccount)
    ensures SameAccountFields(r, b)
  {
    var e := Stamp(Entry(state, true, b.createdAt, b.updatedAt), now);
    b.(createdAt := e.createdAt, updatedAt := e.updatedAt)
  }

  // ---- Committed rows ----

  datatype Store = Store(
    contacts: seq<Contact>,
    payments: seq<Payment>,
    nextContactId: int,
    nextPaymentId: int)

  function ContactIds(contacts: seq<Contact>): set<int>
  {
    set c | c in contacts :: c.id
  }

  /** Keys are unique and below the next generated key, and every payment
      references two stored contacts. */
  ghost predicate StoreValid(s: Store)
  {
    && 0 < s.nextContactId && 0 < s.nextPaymentId
    && (forall i, j | 0 <= i < j < |s.contacts| :: s.contacts[i].id != s.contacts[j].id)
    && (forall c | c in s.contacts :: 0 < c.id < s.nextContactId)
    && (forall i, j | 0 <= i < j < |s.payments| :: s.payments[i].id != s.payments[j].id)
    && (forall p | p in s.payments :: 0 < p.id < s.nextPaymentId)
    && (forall p | p in s.payments ::
          p.originatorId in ContactIds(s.contacts) && p.beneficiaryId in ContactIds(s.contacts))
  }

  // ---- Unsaved changes ----

  /** How a staged payment names a contact: a stored row by key, or the
      `index`-th staged insert. */
  datatype ContactRef = Existing(id: int) | New(index: nat)

  datatype PendingPayment = PendingPayment(payment: Payment, originator: ContactRef, beneficiary: ContactRef)

  /** The current values of a tracked stored contact; `forced` when Update
      marked its whole graph Modified. */
  datatype TrackedContact = TrackedContact(contact: Contact, forced: bool)

  datatype Pending = Pending(
    added: seq<Contact>,
    tracked: map<int, TrackedContact>,
    payments: seq<PendingPayment>)

  const NoChanges := Pending([], map[], [])

  predicate RefSaveable(s: Store, p: Pending, r: ContactRef)
  {
    match r
    case Existing(id) => id in ContactIds(s.contacts)
    case New(i) => i < |p.added|
  }

  /** A save succeeds only when every tracked contact still has its row and
      every staged payment's contacts exist (otherwise the database refuses
      the update or the foreign key). */
  predicate Saveable(s: Store, p: Pending)
  {
    && (forall id | id in p.tracked :: id in ContactIds(s.contacts))
    && (forall pp | pp in p.payments :: RefSaveable(s, p, pp.originator) && RefSaveable(s, p, pp.beneficiary))
  }

  // ---- The save ----

  /** A stored contact after the save: a tracked one takes its current
      values; its address and account are Modified when Update forced them
      or when their fields differ from the row's, and a Modified one is
      written with its update stamp at the clock and its creation stamp kept,
      an Unchanged one exactly as tracked. */
  function SavedRow(c: Contact, p: Pending, now: DateTime): (r: Contact)
    ensures r.id == c.id
    ensures c.id !in p.tracked ==> r == c
    ensures c.id in p.tracked ==> r.name == p.tracked[c.id].contact.name
    ensures c.id in p.tracked ==> SameAddressFields(r.address, p.tracked[c.id].contact.address)
    ensures c.id in p.tracked ==> SameAccountFields(r.account, p.tracked[c.id].contact.account)
    ensures c.id in p.tracked ==>
      var t := p.tracked[c.id];
      if t.forced || !SameAddressFields(c.address, t.contact.address)
      then r.address.updatedAt == now && r.address.createdAt == t.contact.address.createdAt
      else r.address == t.contact.address
    ensures c.id in p.tracked ==>
      var t := p.tracked[c.id];
      if t.forced || !SameAccountFields(c.account, t.contact.account)
      then r.account.updatedAt == now && r.account.createdAt == t.contact.account.createdAt
      else r.account == t.contact.account
  {
    if c.id !in p.tracked then c
    else
      var t := p.tracked[c.id];
      var addressState := if t.forced || !SameAddressFields(c.address, t.contact.address) then Modified else Unchanged;
      var accountState := if t.forced || !SameAccountFields(c.account, t.contact.account) then Modified else Unchanged;
      Contact(c.id, t.contact.name,
              StampAddress(t.contact.address, addressState, now),
              StampAccount(t.contact.account, accountState, now))
  }

  /** A staged contact after the save: a generated key, its address and
      account stamped as Added. */
  function InsertedRow(c: Contact, id: int, now: DateTime): (r: Contact)
    ensures r.id == id && r.name == c.name
    ensures SameAddressFields(r.address, c.address) && SameAccountFields(r.account, c.account)
    ensures r.address.createdAt == r.address.updatedAt == now
    ensures r.account.createdAt == r.account.updatedAt == now
  {
    Contact(id, c.name, StampAddress(c.address, Added, now), StampAccount(c.account, Added, now))
  }

  function RefId(s: Store, r: ContactRef): int
  {
    match r
    case Existing(id) => id
    case New(i) => s.nextContactId + i
  }

  /** The saved contact a reference resolves to. */
  function ResolvedRow(s: Store, p: Pending, r: ContactRef, now: DateTime): (c: Contact)
    requires RefSaveable(s, p, r)
    ensures c.id == RefId(s, r)
  {
    match r
    case Existing(id) =>
      var row := Queries.FindContactById(s.contacts, id);
      SavedRow(row.value, p, now)
    case New(i) => InsertedRow(p.added[i], s.nextContactId + i, now)
  }

  function SavedPayment(s: Store, p: Pending, k: nat, now: DateTime): (r: Payment)
    requires Saveable(s, p) && k < |p.payments|
    ensures r.id == s.nextPaymentId + k
  {
    var pp := p.payments[k];
    pp.payment.(
      id := s.nextPaymentId + k,
      originatorId := RefId(s, pp.originator),
      originator := ResolvedRow(s, p, pp.originator, now),
      beneficiaryId := RefId(s, pp.beneficiary),
      beneficiary := ResolvedRow(s, p, pp.beneficiary, now))
  }

  /** The rows after a successful save: stored contacts updated in place,
      staged contacts and payments appended with consecutive generated keys. */
  function Save(s: Store, p: Pending, now: DateTime): (r: Store)
    requires Saveable(s, p)
    ensures |r.contacts| == |s.contacts| + |p.added|
    ensures r.nextContactId == s.nextContactId + |p.added|
    ensures r.nextPaymentId == s.nextPaymentId + |p.payments|
    ensures forall i | 0 <= i < |s.contacts| :: r.contacts[i] == SavedRow(s.contacts[i], p, now)
    ensures forall k | 0 <= k < |p.added| ::
      r.contacts[|s.contacts| + k] == InsertedRow(p.added[k], s.nextContactId + k, now)
    ensures |r.payments| == |s.payments| + |p.payments|
    ensures r.payments[..|s.payments|] == s.payments
    ensures forall k | 0 <= k < |p.payments| :: r.payments[|s.payments| + k] == SavedPayment(s, p, k, now)
  {
    Store(
      seq(|s.contacts|, i requires 0 <= i < |s.contacts| => SavedRow(s.contacts[i], p, now))
        + seq(|p.added|, k requires 0 <= k < |p.added| => InsertedRow(p.added[k], s.nextContactId + k, now)),
      s.payments + seq(|p.payments|, k requires 0 <= k < |p.payments| => SavedPayment(s, p, k, now)),
      s.nextContactId + |p.added|,
      s.nextPaymentId + |p.payments|)
  }

  /** Reading a payment with its two contacts included. */
  function Load(s: Store, pay: Payment): (r: Payment)
    ensures r == pay.(originator := r.originator, beneficiary := r.beneficiary)
    ensures Queries.FindContactById(s.contacts, pay.originatorId).Some? ==>
      r.originator.id == pay.originatorId && r.originator in s.contacts
    ensures Queries.FindContactById(s.contacts, pay.beneficiaryId).Some? ==>
      r.beneficiary.id == pay.beneficiaryId && r.beneficiary in s.contacts
  {
    var o := Queries.FindContactById(s.contacts, pay.originatorId);
    var b := Queries.FindContactById(s.contacts, pay.beneficiaryId);
    pay.(originator := if o.Some? then o.value else pay.originator,
         beneficiary := if b.Some? then b.value else pay.beneficiary)
  }

  /** Reading a payment by key with its two contacts included, as the list
      query reads each of its rows. */
  function IncludeFind(s: Store, id: int): (r: Option<Payment>)
    ensures r.None? <==> forall pay | pay in s.payments :: pay.id != id
    ensures r.Some? ==> exists pay | pay in s.payments :: pay.id == id && r.value == Load(s, pay)
  {
    var row := Queries.FindPaymentById(s.payments, id);
    if row.Some? then Some(Load(s, row.value)) else None
  }

  // ---- Reading through the context ----

  /** A payment's own columns, without its two contact navigations. */
  datatype PaymentColumns = PaymentColumns(
    id: int,
    amount: real,
    paymentCurrency: string,
    originatorId: int,
    beneficiaryId: int,
    chargesBearer: ChargesBearer,
    details: string,
    referenceNumber: Option<string>,
    createdAt: DateTime)

  function ColumnsOf(pay: Payment): PaymentColumns
  {
    PaymentColumns(pay.id, pay.amount, pay.paymentCurrency, pay.originatorId, pay.beneficiaryId,
                   pay.chargesBearer, pay.details, pay.referenceNumber, pay.createdAt)
  }

  /** A payment as `Find` materialises it: its columns, and each contact
      navigation, `None` standing for null. */
  datatype FoundPayment = FoundPayment(columns: PaymentColumns, originator: Option<Contact>, beneficiary: Option<Contact>)

  /** The key of a row a query returned, as a set. */
  function KeyOf(row: Option<Contact>): set<int>
  {
    if row.Some? then {row.value.id} else {}
  }

  /** The keys a save assigns to the staged inserts. */
  function InsertedKeys(s: Store, p: Pending): set<int>
  {
    KeyRange(s.nextContactId, |p.added|)
  }

  /** The `n` consecutive keys starting at `first`. */
  function KeyRange(first: int, n: nat): (r: set<int>)
    ensures forall key :: key in r <==> first <= key < first + n
  {
    if n == 0 then {} else KeyRange(first, n - 1) + {first + n - 1}
  }

  /** The instance the context holds for a contact key, if any: a contact
      with unsaved edits as edited; an attached one, read by a tracking
      query or written by a save, with the values of its row. */
  function TrackedInstance(s: Store, p: Pending, attached: set<int>, key: int): Option<Contact>
  {
    if key in p.tracked then Some(p.tracked[key].contact)
    else if key in attached then Queries.FindContactById(s.contacts, key)
    else None
  }

  /** `Payments.Find(id)` with no include: the stored payment's columns, and a
      contact navigation set only by fix-up to an instance the context
      already tracks; it stays null otherwise. */
  function FindRead(s: Store, p: Pending, attached: set<int>, id: int): (r: Option<FoundPayment>)
    ensures r.None? <==> forall pay | pay in s.payments :: pay.id != id
    ensures r.Some? ==> exists pay | pay in s.payments :: pay.id == id && r.value.columns == ColumnsOf(pay)
    ensures r.Some? ==> var key := r.value.columns.originatorId;
      (r.value.originator.Some? <==> key in p.tracked || (key in attached && key in ContactIds(s.contacts)))
    ensures r.Some? ==> var key := r.value.columns.beneficiaryId;
      (r.value.beneficiary.Some? <==> key in p.tracked || (key in attached && key in ContactIds(s.contacts)))
  {
    var row := Queries.FindPaymentById(s.payments, id);
    if row.Some? then
      Some(FoundPayment(ColumnsOf(row.value),
                        TrackedInstance(s, p, attached, row.value.originatorId),
                        TrackedInstance(s, p, attached, row.value.beneficiaryId)))
    else None
  }

  /** What a query returns for a matching row: the tracked instance, with its
      unsaved edits, when the context already tracks that key (identity
      resolution); the row otherwise. Staged inserts are never matched. */
  function TrackedView(p: Pending, row: Option<Contact>): Option<Contact>
  {
    match row
    case None => None
    case Some(c) => if c.id in p.tracked then Some(p.tracked[c.id].contact) else row
  }

  /** `Contacts.Include(..).FirstOrDefault(c => c.Name == name)`. */
  function LookupByName(s: Store, p: Pending, name: string): Option<Contact>
  {
    TrackedView(p, Queries.FindContactByName(s.contacts, name))
  }

  // ---- The upsert-by-name staging of CreatePayment ----

  /** The contact CreatePayment builds for an unknown name: the request's
      name, six address fields and account; key and stamps at their defaults. */
  function NewContact(req: Contact): (c: Contact)
    ensures c.name == req.name
    ensures SameAddressFields(c.address, req.address) && SameAccountFields(c.account, req.account)
  {
    Contact(0, req.name,
            Address(req.address.addressLine1, req.address.addressLine2, req.address.addressLine3,
                    req.address.city, req.address.postalCode, req.address.countryCode, 0, 0),
            BankAccount(req.account.accountNumber, req.account.bic, 0, 0))
  }

  /** The six assignments into a found contact's address. */
  function CopyAddressFields(into: Address, from: Address): (r: Address)
    ensures SameAddressFields(r, from)
    ensures r.createdAt == into.createdAt && r.updatedAt == into.updatedAt
  {
    into.(addressLine1 := from.addressLine1, addressLine2 := from.addressLine2,
          addressLine3 := from.addressLine3, city := from.city,
          postalCode := from.postalCode, countryCode := from.countryCode)
  }

  /** The tracked state after assigning the address fields of `c`, the
      contact the context holds under `key`. */
  function EditAddress(p: Pending, key: int, c: Contact, from: Address): Pending
  {
    var forced := key in p.tracked && p.tracked[key].forced;
    p.(tracked := p.tracked[key := TrackedContact(c.(address := CopyAddressFields(c.address, from)), forced)])
  }

  /** Resolving one party of a payment request by name. An unknown name
      stages one new contact copied from the request; a known name gets its
      six address fields overwritten in place and nothing added. */
  function Resolve(s: Store, p: Pending, req: Contact): (r: (Pending, ContactRef))
    ensures r.0.payments == p.payments
    ensures Queries.FindContactByName(s.contacts, req.name).None? ==>
      && r.1 == New(|p.added|)
      && r.0.tracked == p.tracked
      && |r.0.added| == |p.added| + 1 && r.0.added[..|p.added|] == p.added
      && r.0.added[|p.added|].name == req.name
      && SameAddressFields(r.0.added[|p.added|].address, req.address)
      && SameAccountFields(r.0.added[|p.added|].account, req.account)
    ensures Queries.FindContactByName(s.contacts, req.name).Some? ==>
      var row := Queries.FindContactByName(s.contacts, req.name).value;
      var seen := LookupByName(s, p, req.name).value;
      && r.1 == Existing(row.id)
      && r.0.added == p.added
      && r.0.tracked.Keys == p.tracked.Keys + {row.id}
      && (forall id | id in p.tracked && id != row.id :: r.0.tracked[id] == p.tracked[id])
      && r.0.tracked[row.id].contact == seen.(address := r.0.tracked[row.id].contact.address)
      && SameAddressFields(r.0.tracked[row.id].contact.address, req.address)
  {
    var found := LookupByName(s, p, req.name);
    if found.None? then
      (p.(added := p.added + [NewContact(req)]), New(|p.added|))
    else
      var row := Queries.FindContactByName(s.contacts, req.name).value;
      (EditAddress(p, row.id, found.value, req.address), Existing(row.id))
  }

  /** Everything CreatePayment stages for a valid request: the beneficiary,
      then the originator, then the payment linked to both. */
  function Stage(s: Store, p: Pending, value: Payment): Pending
  {
    var (p1, b) := Resolve(s, p, value.beneficiary);
    var (p2, o) := Resolve(s, p1, value.originator);
    p2.(payments := p2.payments + [PendingPayment(value, o, b)])
  }

  // ---- The context ----

  /** The context of one request: what the database holds, what the change
      tracker has staged since, and the keys of the stored contacts it tracks
      with no unsaved change. */
  class ApiDbContext {
    var store: Store
    var pending: Pending
    var attached: set<int>

    constructor (rows: Store)
      ensures store == rows && pending == NoChanges && attached == {}
    {
      store := rows;
      pending := NoChanges;
      attached := {};
    }

    /** The name query (ContactRepository.GetContactByNameAsync, and the one
        CreatePayment runs): it matches committed rows only, the first match
        wins, and a tracked row comes back with its unsaved edits. The row
        found is tracked from then on. */
    method GetContactByName(name: string) returns (r: Option<Contact>)
      modifies this
      ensures store == old(store) && pending == old(pending)
      ensures attached == old(attached) + KeyOf(Queries.FindContactByName(store.contacts, name))
      ensures r == LookupByName(store, pending, name)
      ensures r.None? <==> forall c | c in store.contacts :: c.name != name
      ensures r.Some? ==> exists c | c in store.contacts ::
        (c.name == name && r.value == (if c.id in pending.tracked then pending.tracked[c.id].contact else c))
    {
      var row := Queries.FindContactByName(store.contacts, name);
      r := TrackedView(pending, row);
      attached := attached + KeyOf(row);
    }

    /** ContactRepository.GetContactByIdAsync; the row found is tracked from
        then on. */
    method GetContactById(id: int) returns (r: Option<Contact>)
      modifies this
      ensures store == old(store) && pending == old(pending)
      ensures attached == old(attached) + KeyOf(Queries.FindContactById(store.contacts, id))
      ensures r.None? <==> forall c | c in store.contacts :: c.id != id
      ensures r.Some? && id in pending.tracked ==> r.value == pending.tracked[id].contact
      ensures r.Some? && id !in pending.tracked ==> r.value in store.contacts && r.value.id == id
    {
      var row := Queries.FindContactById(store.contacts, id);
      r := TrackedView(pending, row);
      attached := attached + KeyOf(row);
    }

    /** `Contacts.Add` (ContactRepository.AddContactAsync): the contact is
        staged for insertion; nothing is written and queries do not see it. */
    method AddContact(c: Contact) returns (ref: ContactRef)
      modifies this
      ensures store == old(store) && attached == old(attached)
      ensures pending == old(pending).(added := old(pending).added + [c])
      ensures ref == New(|old(pending).added|)
    {
      ref := New(|pending.added|);
      pending := pending.(added := pending.added + [c]);
    }

    /** `Contacts.Update` (ContactRepository.UpdateContactAsync): a contact
        whose key is unset is staged as an insert; otherwise its current
        values are tracked and its address and account marked Modified.
        Nothing is written. */
    method UpdateContact(c: Contact)
      modifies this
      ensures store == old(store) && attached == old(attached)
      ensures c.id == 0 ==> pending == old(pending).(added := old(pending).added + [c])
      ensures c.id != 0 ==> pending == old(pending).(tracked := old(pending).tracked[c.id := TrackedContact(c, true)])
    {
      if c.id == 0 {
        pending := pending.(added := pending.added + [c]);
      } else {
        pending := pending.(tracked := pending.tracked[c.id := TrackedContact(c, true)]);
      }
    }

    /** The six assignments CreatePayment makes into the address of `c`, the
        contact the context tracks under `key`. */
    method AssignAddressFields(key: int, c: Contact, from: Address)
      modifies this
      ensures store == old(store) && attached == old(attached)
      ensures pending == EditAddress(old(pending), key, c, from)
    {
      pending := EditAddress(pending, key, c, from);
    }

    /** `Add` on a payment (PaymentRepository.AddPaymentAsync): staged only. */
    method AddPayment(pp: PendingPayment)
      modifies this
      ensures store == old(store) && attached == old(attached)
      ensures pending == old(pending).(payments := old(pending).payments + [pp])
    {
      pending := pending.(payments := pending.payments + [pp]);
    }

    /** `Payments.Find` (PaymentRepository.GetPaymentByIdAsync): the payment
        with that key, or null. Nothing is included: a contact comes with it
        only when this context already tracks that contact. */
    method FindPayment(id: int) returns (r: Option<FoundPayment>)
      ensures r == FindRead(store, pending, attached, id)
    {
      var row := Queries.FindPaymentById(store.payments, id);
      if row.None? {
        return None;
      }
      var pay := row.value;
      var originator := TrackedInstance(store, pending, attached, pay.originatorId);
      var beneficiary := TrackedInstance(store, pending, attached, pay.beneficiaryId);
      r := Some(FoundPayment(ColumnsOf(pay), originator, beneficiary));
    }

    /** The by-key read with both contacts included, as the list query
        reads them. */
    method FindPaymentIncluded(id: int) returns (r: Option<Payment>)
      ensures r == IncludeFind(store, id)
    {
      var row := Queries.FindPaymentById(store.payments, id);
      r := if row.Some? then Some(Load(store, row.value)) else None;
    }

    /** PaymentRepository.GetPaymentsAsync: the stored payments that satisfy
        every supplied filter, each with its contacts. */
    method GetPayments(q: Queries.PaymentQuery) returns (r: seq<Payment>)
      ensures |r| == |Queries.GetPayments(store.payments, q)| <= |store.payments|
      ensures forall i | 0 <= i < |r| :: r[i] == Load(store, Queries.GetPayments(store.payments, q)[i])
      ensures forall p | p in r :: Queries.Matches(q, p) && exists row | row in store.payments :: p == Load(store, row)
      ensures forall row | row in store.payments && Queries.Matches(q, row) :: Load(store, row) in r
    {
      var st := store;
      var rows := Queries.GetPayments(st.payments, q);
      r := seq(|rows|, i requires 0 <= i < |rows| => Load(st, rows[i]));
      forall row | row in st.payments && Queries.Matches(q, row)
        ensures Load(st, row) in r
      {
        var i :| 0 <= i < |rows| && rows[i] == row;
        assert r[i] == Load(st, row);
      }
      forall p | p in r
        ensures Queries.Matches(q, p) && exists row | row in st.payments :: p == Load(st, row)
      {
        var i :| 0 <= i < |r| && r[i] == p;
        assert rows[i] in rows;
      }
    }

    /** SaveChanges: the entries are stamped and every staged change is
        written, with generated keys; `storeFails` stands for any error the
        database raises. The contacts it wrote stay tracked, with no unsaved
        change. A refused save leaves the rows and the change tracker as they
        were. */
    method SaveChanges(now: DateTime, storeFails: bool) returns (ok: bool)
      modifies this
      ensures ok <==> !storeFails && Saveable(old(store), old(pending))
      ensures ok ==> store == Save(old(store), old(pending), now) && pending == NoChanges
      ensures ok ==> attached == old(attached) + old(pending).tracked.Keys + InsertedKeys(old(store), old(pending))
      ensures !ok ==> store == old(store) && pending == old(pending) && attached == old(attached)
    {
      ok := !storeFails && Saveable(store, pending);
      if ok {
        attached := attached + pending.tracked.Keys + InsertedKeys(store, pending);
        store := Save(store, pending, now);
        pending := NoChanges;
      }
    }
  }
}
