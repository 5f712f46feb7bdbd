/** What the upsert-by-name workflow guarantees across saves and requests:
    the rows stay consistent, names are reused, the address is last-write-wins
    while the account keeps its first values, and a payment reads back as it
    was created. */
module UpsertProperties {
  import opened Models
  import Queries
  import opened Data

  /** Keys of stored contacts survive a save. */
  lemma SaveKeepsContactIds(s: Store, p: Pending, now: DateTime)
    requires Saveable(s, p)
    ensures ContactIds(s.contacts) <= ContactIds(Save(s, p, now).contacts)
  {
    var r := Save(s, p, now);
    forall id | id in ContactIds(s.contacts)
      ensures id in ContactIds(r.contacts)
    {
      var i :| 0 <= i < |s.contacts| && s.contacts[i].id == id;
      assert r.contacts[i].id == id;
    }
  }

  /** A save keeps keys unique and below the next generated key, and every
      payment, old or new, references two stored contacts. */
  lemma SavePreservesValid(s: Store, p: Pending, now: DateTime)
    requires StoreValid(s) && Saveable(s, p)
    ensures StoreValid(Save(s, p, now))
  {
    SaveContactKeys(s, p, now);
    SavePaymentKeys(s, p, now);
    SavePaymentRefs(s, p, now);
  }

  /** The key of the `i`-th saved contact: the stored key for a stored
      row, a generated one for an insert. */
  lemma SavedContactId(s: Store, p: Pending, now: DateTime, i: int)
    requires Saveable(s, p) && 0 <= i < |s.contacts| + |p.added|
    ensures Save(s, p, now).contacts[i].id ==
      if i < |s.contacts| then s.contacts[i].id else s.nextContactId + (i - |s.contacts|)
  {
  }

  lemma SaveContactKeys(s: Store, p: Pending, now: DateTime)
    requires StoreValid(s) && Saveable(s, p)
    ensures var r := Save(s, p, now);
      && (forall i, j | 0 <= i < j < |r.contacts| :: r.contacts[i].id != r.contacts[j].id)
      && (forall c | c in r.contacts :: 0 < c.id < r.nextContactId)
  {
    var r := Save(s, p, now);
    var n := |s.contacts|;
    forall c | c in r.contacts
      ensures 0 < c.id < r.nextContactId
    {
      var i :| 0 <= i < |r.contacts| && r.contacts[i] == c;
      SavedContactId(s, p, now, i);
      if i < n { assert s.contacts[i] in s.contacts; }
    }
    forall i, j | 0 <= i < j < |r.contacts|
      ensures r.contacts[i].id != r.contacts[j].id
    {
      SavedContactId(s, p, now, i);
      SavedContactId(s, p, now, j);
      if i < n { assert s.contacts[i] in s.contacts; }
    }
  }

  /** The key of the `i`-th saved payment: the stored key for a stored
      payment, a generated one for a staged one. */
  lemma SavedPaymentId(s: Store, p: Pending, now: DateTime, i: int)
    requires Saveable(s, p) && 0 <= i < |s.payments| + |p.payments|
    ensures i < |s.payments| ==> Save(s, p, now).payments[i] == s.payments[i]
    ensures Save(s, p, now).payments[i].id ==
      if i < |s.payments| then s.payments[i].id else s.nextPaymentId + (i - |s.payments|)
  {
    var r := Save(s, p, now);
    if i < |s.payments| {
      assert r.payments[..|s.payments|][i] == s.payments[i];
    }
  }

  lemma SavePaymentKeys(s: Store, p: Pending, now: DateTime)
    requires StoreValid(s) && Saveable(s, p)
    ensures var r := Save(s, p, now);
      && (forall i, j | 0 <= i < j < |r.payments| :: r.payments[i].id != r.payments[j].id)
      && (forall pay | pay in r.payments :: 0 < pay.id < r.nextPaymentId)
  {
    var r := Save(s, p, now);
    var m := |s.payments|;
    forall i, j | 0 <= i < j < |r.payments|
      ensures r.payments[i].id != r.payments[j].id
    {
      SavedPaymentId(s, p, now, i);
      SavedPaymentId(s, p, now, j);
      if i < m { assert s.payments[i] in s.payments; }
    }
    forall pay | pay in r.payments
      ensures 0 < pay.id < r.nextPaymentId
    {
      var i :| 0 <= i < |r.payments| && r.payments[i] == pay;
      SavedPaymentId(s, p, now, i);
      if i < m { assert s.payments[i] in s.payments; }
    }
  }

  lemma SavePaymentRefs(s: Store, p: Pending, now: DateTime)
    requires StoreValid(s) && Saveable(s, p)
    ensures var r := Save(s, p, now);
      forall pay | pay in r.payments ::
        pay.originatorId in ContactIds(r.contacts) && pay.beneficiaryId in ContactIds(r.contacts)
  {
    var r := Save(s, p, now);
    forall pay | pay in r.payments
      ensures pay.originatorId in ContactIds(r.contacts) && pay.beneficiaryId in ContactIds(r.contacts)
    {
      var i :| 0 <= i < |r.payments| && r.payments[i] == pay;
      SavedPaymentRefsStored(s, p, now, i);
    }
  }

  /** The `i`-th saved payment references two saved contacts. */
  lemma SavedPaymentRefsStored(s: Store, p: Pending, now: DateTime, i: int)
    requires StoreValid(s) && Saveable(s, p) && 0 <= i < |s.payments| + |p.payments|
    ensures var r := Save(s, p, now);
      r.payments[i].originatorId in ContactIds(r.contacts) && r.payments[i].beneficiaryId in ContactIds(r.contacts)
  {
    var r := Save(s, p, now);
    var m := |s.payments|;
    SaveKeepsContactIds(s, p, now);
    if i < m {
      assert r.payments[..m][i] == s.payments[i];
      assert s.payments[i] in s.payments;
    } else {
      var pp := p.payments[i - m];
      assert pp in p.payments;
      RefIdStored(s, p, now, pp.originator);
      RefIdStored(s, p, now, pp.beneficiary);
    }
  }

  /** A reference a save can honour names a key the saved rows hold. */
  lemma RefIdStored(s: Store, p: Pending, now: DateTime, ref: ContactRef)
    requires Saveable(s, p) && RefSaveable(s, p, ref)
    ensures RefId(s, ref) in ContactIds(Save(s, p, now).contacts)
  {
    if ref.Existing? {
      SaveKeepsContactIds(s, p, now);
    } else {
      InsertedIdStored(s, p, now, ref.index);
    }
  }

  /** The key generated for the `i`-th staged contact is a saved key. */
  lemma InsertedIdStored(s: Store, p: Pending, now: DateTime, i: nat)
    requires Saveable(s, p) && i < |p.added|
    ensures s.nextContactId + i in ContactIds(Save(s, p, now).contacts)
  {
    var r := Save(s, p, now);
    SavedContactId(s, p, now, |s.contacts| + i);
    assert r.contacts[|s.contacts| + i] in r.contacts;
  }

  /** The tracked contacts are rows as read, with at most their address
      edited: what CreatePayment's in-place assignments leave behind. */
  ghost predicate TracksRows(s: Store, p: Pending)
  {
    forall id | id in p.tracked ::
      && !p.tracked[id].forced
      && exists row | row in s.contacts ::
           && row.id == id
           && p.tracked[id].contact == row.(address := p.tracked[id].contact.address)
  }

  /** Resolving a party keeps the tracked contacts rows as read and keeps a
      save possible. */
  lemma ResolveKeepsInvariants(s: Store, p: Pending, req: Contact)
    requires StoreValid(s)
    requires TracksRows(s, p) && Saveable(s, p)
    ensures TracksRows(s, Resolve(s, p, req).0) && Saveable(s, Resolve(s, p, req).0)
  {
    var (p1, ref) := Resolve(s, p, req);
    var row := Queries.FindContactByName(s.contacts, req.name);
    if row.Some? {
      var id := row.value.id;
      var seen := LookupByName(s, p, req.name).value;
      if id in p.tracked {
        var other :| other in s.contacts && other.id == id
          && p.tracked[id].contact == other.(address := p.tracked[id].contact.address);
        UniqueIds(s, other, row.value);
      }
      assert seen == row.value.(address := seen.address);
      assert p1.tracked[id].contact == row.value.(address := p1.tracked[id].contact.address);
      assert !p1.tracked[id].forced;
    }
    forall pp | pp in p1.payments
      ensures RefSaveable(s, p1, pp.originator) && RefSaveable(s, p1, pp.beneficiary)
    {
      assert RefSaveable(s, p, pp.originator) && RefSaveable(s, p, pp.beneficiary);
    }
  }

  /** Two stored contacts with the same key are the same row. */
  lemma UniqueIds(s: Store, a: Contact, b: Contact)
    requires StoreValid(s) && a in s.contacts && b in s.contacts && a.id == b.id
    ensures a == b
  {
    var i :| 0 <= i < |s.contacts| && s.contacts[i] == a;
    var j :| 0 <= j < |s.contacts| && s.contacts[j] == b;
    if i < j || j < i { assert false; }
  }

  /** Staging a whole request from a fresh context leaves a save possible and
      the tracked contacts rows as read. */
  lemma StageSaveable(s: Store, value: Payment)
    requires StoreValid(s)
    ensures Saveable(s, Stage(s, NoChanges, value)) && TracksRows(s, Stage(s, NoChanges, value))
  {
    var (p1, b) := Resolve(s, NoChanges, value.beneficiary);
    ResolveKeepsInvariants(s, NoChanges, value.beneficiary);
    var (p2, o) := Resolve(s, p1, value.originator);
    ResolveKeepsInvariants(s, p1, value.originator);
    assert RefSaveable(s, p2, b) by {
      if b.Existing? {
        assert Queries.FindContactByName(s.contacts, value.beneficiary.name).value in s.contacts;
      }
    }
    assert RefSaveable(s, p2, o) by {
      if o.Existing? {
        assert Queries.FindContactByName(s.contacts, value.originator.name).value in s.contacts;
      }
    }
  }

  /** A tracked contact is its row with at most the address changed. */
  lemma TrackedIsRow(s: Store, p: Pending, row: Contact)
    requires StoreValid(s) && TracksRows(s, p) && row in s.contacts && row.id in p.tracked
    ensures p.tracked[row.id].contact == row.(address := p.tracked[row.id].contact.address)
  {
    var other :| other in s.contacts && other.id == row.id
      && p.tracked[row.id].contact == other.(address := p.tracked[row.id].contact.address);
    UniqueIds(s, other, row);
  }

  /** Saving what CreatePayment tracks keeps every stored contact's key,
      name and bank account. */
  lemma SaveKeepsRows(s: Store, p: Pending, now: DateTime, i: int)
    requires StoreValid(s) && Saveable(s, p) && TracksRows(s, p) && 0 <= i < |s.contacts|
    ensures var c := Save(s, p, now).contacts[i];
      c.id == s.contacts[i].id && c.name == s.contacts[i].name
      && SameAccountFields(c.account, s.contacts[i].account)
  {
    var row := s.contacts[i];
    if row.id in p.tracked {
      TrackedIsRow(s, p, row);
    }
  }

  /** The first contact carrying a name is the one the name query returns. */
  lemma FirstByNameAt(contacts: seq<Contact>, name: string, j: int)
    requires 0 <= j < |contacts| && contacts[j].name == name
    requires forall k | 0 <= k < j :: contacts[k].name != name
    ensures Queries.FindContactByName(contacts, name) == Some(contacts[j])
  {
    var r := Queries.FindContactByName(contacts, name);
    assert contacts[j] in contacts;
    var i :| 0 <= i < |contacts| && contacts[i] == r.value && forall k | 0 <= k < i :: contacts[k].name != name;
  }

  /** With unique keys, the key query returns the one contact with that key. */
  lemma FindByIdUnique(s: Store, c: Contact)
    requires StoreValid(s) && c in s.contacts
    ensures Queries.FindContactById(s.contacts, c.id) == Some(c)
  {
    var r := Queries.FindContactById(s.contacts, c.id);
    UniqueIds(s, r.value, c);
  }

  /** The contact a reference resolves to is one of the saved rows. */
  lemma ResolvedRowSaved(s: Store, p: Pending, ref: ContactRef, now: DateTime)
    requires Saveable(s, p) && RefSaveable(s, p, ref)
    ensures ResolvedRow(s, p, ref, now) in Save(s, p, now).contacts
  {
    var r := Save(s, p, now);
    match ref
    case Existing(id) =>
      var row := Queries.FindContactById(s.contacts, id).value;
      var j :| 0 <= j < |s.contacts| && s.contacts[j] == row;
      assert r.contacts[j] == SavedRow(row, p, now);
    case New(i) =>
      assert r.contacts[|s.contacts| + i] == ResolvedRow(s, p, ref, now);
  }

  /** A saved payment reads back, contacts included, exactly as saved. */
  lemma SavedPaymentReadsBack(s: Store, p: Pending, now: DateTime, k: nat)
    requires StoreValid(s) && Saveable(s, p) && k < |p.payments|
    ensures Load(Save(s, p, now), SavedPayment(s, p, k, now)) == SavedPayment(s, p, k, now)
  {
    var r := Save(s, p, now);
    var pp := p.payments[k];
    assert pp in p.payments;
    SavePreservesValid(s, p, now);
    ResolvedRowSaved(s, p, pp.originator, now);
    ResolvedRowSaved(s, p, pp.beneficiary, now);
    FindByIdUnique(r, ResolvedRow(s, p, pp.originator, now));
    FindByIdUnique(r, ResolvedRow(s, p, pp.beneficiary, now));
  }

  /** How one party of a request was staged: an unknown name as a staged
      contact copied from the request, a known name as its tracked row. */
  ghost predicate Resolved(s: Store, p: Pending, req: Contact, ref: ContactRef)
  {
    && RefSaveable(s, p, ref)
    && match Queries.FindContactByName(s.contacts, req.name)
       case Some(row) => ref == Existing(row.id) && row.id in p.tracked
       case None =>
         && ref.New?
         && p.added[ref.index].name == req.name
         && SameAccountFields(p.added[ref.index].account, req.account)
  }

  /** The party's contact carries the request's address fields. */
  ghost predicate AddressWritten(p: Pending, req: Contact, ref: ContactRef)
  {
    match ref
    case Existing(id) => id in p.tracked && SameAddressFields(p.tracked[id].contact.address, req.address)
    case New(i) => i < |p.added| && SameAddressFields(p.added[i].address, req.address)
  }

  /** No earlier staged contact carries the name. */
  ghost predicate FirstOfItsName(p: Pending, name: string, ref: ContactRef)
  {
    ref.New? ==> forall k | 0 <= k < ref.index && k < |p.added| :: p.added[k].name != name
  }

  /** The saved contact of a party: the request's name; the request's
      account when the name was new, the row's key and account otherwise;
      the request's address when it was the last written; and, when no
      earlier insert carries the name, the contact the name query finds. */
  lemma SavedParty(s: Store, p: Pending, now: DateTime, req: Contact, ref: ContactRef)
    requires StoreValid(s) && Saveable(s, p) && TracksRows(s, p) && Resolved(s, p, req, ref)
    ensures var c := ResolvedRow(s, p, ref, now);
      && c in Save(s, p, now).contacts
      && c.name == req.name
      && (Queries.FindContactByName(s.contacts, req.name).Some? ==>
            var row := Queries.FindContactByName(s.contacts, req.name).value;
            c.id == row.id && SameAccountFields(c.account, row.account))
      && (Queries.FindContactByName(s.contacts, req.name).None? ==>
            SameAccountFields(c.account, req.account))
      && (AddressWritten(p, req, ref) ==> SameAddressFields(c.address, req.address))
      && (FirstOfItsName(p, req.name, ref) ==>
            Queries.FindContactByName(Save(s, p, now).contacts, req.name) == Some(c))
  {
    ResolvedRowSaved(s, p, ref, now);
    if Queries.FindContactByName(s.contacts, req.name).Some? {
      SavedKnownParty(s, p, now, req, ref);
    } else {
      SavedNewParty(s, p, now, req, ref);
    }
  }

  /** A known name: the saved contact is the row, renamed never, with its
      key and account, and it is what the name query finds afterwards. */
  lemma SavedKnownParty(s: Store, p: Pending, now: DateTime, req: Contact, ref: ContactRef)
    requires StoreValid(s) && Saveable(s, p) && TracksRows(s, p) && Resolved(s, p, req, ref)
    requires Queries.FindContactByName(s.contacts, req.name).Some?
    ensures var c := ResolvedRow(s, p, ref, now);
      var row := Queries.FindContactByName(s.contacts, req.name).value;
      && c.name == req.name && c.id == row.id && SameAccountFields(c.account, row.account)
      && (AddressWritten(p, req, ref) ==> SameAddressFields(c.address, req.address))
      && Queries.FindContactByName(Save(s, p, now).contacts, req.name) == Some(c)
  {
    var r := Save(s, p, now);
    var row := Queries.FindContactByName(s.contacts, req.name).value;
    FindByIdUnique(s, row);
    TrackedIsRow(s, p, row);
    var j :| 0 <= j < |s.contacts| && s.contacts[j] == row
      && forall k | 0 <= k < j :: s.contacts[k].name != req.name;
    forall k | 0 <= k < j
      ensures r.contacts[k].name != req.name
    {
      SaveKeepsRows(s, p, now, k);
    }
    assert r.contacts[j] == SavedRow(row, p, now);
    FirstByNameAt(r.contacts, req.name, j);
  }

  /** An unknown name: the saved contact is the staged insert with the
      request's name and account, found by name when no earlier insert
      carries the name. */
  lemma SavedNewParty(s: Store, p: Pending, now: DateTime, req: Contact, ref: ContactRef)
    requires StoreValid(s) && Saveable(s, p) && TracksRows(s, p) && Resolved(s, p, req, ref)
    requires Queries.FindContactByName(s.contacts, req.name).None?
    ensures var c := ResolvedRow(s, p, ref, now);
      && c.name == req.name && SameAccountFields(c.account, req.account)
      && (AddressWritten(p, req, ref) ==> SameAddressFields(c.address, req.address))
      && (FirstOfItsName(p, req.name, ref) ==>
            Queries.FindContactByName(Save(s, p, now).contacts, req.name) == Some(c))
  {
    var n := |s.contacts|;
    assert Save(s, p, now).contacts[n + ref.index] == ResolvedRow(s, p, ref, now);
    if FirstOfItsName(p, req.name, ref) {
      NoEarlierName(s, p, now, req.name, ref.index);
      FirstByNameAt(Save(s, p, now).contacts, req.name, n + ref.index);
    }
  }

  /** When no stored contact and none of the first `i` staged ones carries
      the name, neither does any of the saved rows before the `i`-th insert. */
  lemma NoEarlierName(s: Store, p: Pending, now: DateTime, name: string, i: nat)
    requires StoreValid(s) && Saveable(s, p) && TracksRows(s, p) && i < |p.added|
    requires Queries.FindContactByName(s.contacts, name).None?
    requires forall k | 0 <= k < i :: p.added[k].name != name
    ensures forall k | 0 <= k < |s.contacts| + i :: Save(s, p, now).contacts[k].name != name
  {
    var r := Save(s, p, now);
    var n := |s.contacts|;
    forall k | 0 <= k < n + i
      ensures r.contacts[k].name != name
    {
      if k < n {
        SaveKeepsRows(s, p, now, k);
        assert s.contacts[k] in s.contacts;
      } else {
        assert r.contacts[k] == InsertedRow(p.added[k - n], s.nextContactId + (k - n), now);
      }
    }
  }

  /** Stage, step by step. */
  lemma StageSteps(s: Store, p: Pending, v: Payment) returns (p1: Pending, b: ContactRef, p2: Pending, o: ContactRef)
    ensures (p1, b) == Resolve(s, p, v.beneficiary) && (p2, o) == Resolve(s, p1, v.originator)
    ensures Stage(s, p, v) == p2.(payments := p.payments + [PendingPayment(v, o, b)])
  {
    p1, b := Resolve(s, p, v.beneficiary).0, Resolve(s, p, v.beneficiary).1;
    p2, o := Resolve(s, p1, v.originator).0, Resolve(s, p1, v.originator).1;
  }

  /** Resolving the originator keeps what resolving the beneficiary
      established, and its address too when the names differ. */
  lemma SecondResolveKeepsFirst(s: Store, p1: Pending, req: Contact, other: Contact, ref: ContactRef)
    requires StoreValid(s) && Resolved(s, p1, req, ref)
    ensures Resolved(s, Resolve(s, p1, other).0, req, ref)
    ensures FirstOfItsName(p1, req.name, ref) ==> FirstOfItsName(Resolve(s, p1, other).0, req.name, ref)
    ensures AddressWritten(p1, req, ref) && other.name != req.name ==>
      AddressWritten(Resolve(s, p1, other).0, req, ref)
  {
    var p2 := Resolve(s, p1, other).0;
    var row := Queries.FindContactByName(s.contacts, req.name);
    var oRow := Queries.FindContactByName(s.contacts, other.name);
    if row.None? {
      assert p2.added[ref.index] == p1.added[ref.index];
      assert forall k | 0 <= k < ref.index && k < |p2.added| :: p2.added[k] == p1.added[k];
    } else if other.name != req.name && oRow.Some? && row.value.id == oRow.value.id {
      UniqueIds(s, row.value, oRow.value);
    }
  }

  /** The two parties CreatePayment stages for one request in a fresh
      context: the beneficiary resolved first, then the originator, and the
      payment linked to both. The originator's address is always the last
      written; the beneficiary's is too unless the originator has the same
      name and overwrote it. */
  lemma StagedParties(s: Store, v: Payment) returns (b: ContactRef, o: ContactRef)
    requires StoreValid(s)
    ensures var staged := Stage(s, NoChanges, v);
      && Saveable(s, staged) && TracksRows(s, staged)
      && staged.payments == [PendingPayment(v, o, b)]
      && Resolved(s, staged, v.beneficiary, b) && Resolved(s, staged, v.originator, o)
      && AddressWritten(staged, v.originator, o) && FirstOfItsName(staged, v.beneficiary.name, b)
      && (v.originator.name != v.beneficiary.name ==>
            AddressWritten(staged, v.beneficiary, b) && FirstOfItsName(staged, v.originator.name, o))
  {
    StageSaveable(s, v);
    var p1, p2;
    p1, b, p2, o := StageSteps(s, NoChanges, v);
    assert Resolved(s, p1, v.beneficiary, b) && AddressWritten(p1, v.beneficiary, b);
    SecondResolveKeepsFirst(s, p1, v.beneficiary, v.originator, b);
    assert Resolved(s, p2, v.originator, o) && AddressWritten(p2, v.originator, o);
    if v.originator.name != v.beneficiary.name && o.New? {
      assert p1.added == p2.added[..o.index];
      assert b.New? ==> p1.added[b.index].name == v.beneficiary.name;
    }
  }

  /** With unique keys, the key query returns the one payment with that key. */
  lemma FindPaymentUnique(s: Store, pay: Payment)
    requires StoreValid(s) && pay in s.payments
    ensures Queries.FindPaymentById(s.payments, pay.id) == Some(pay)
  {
    var r := Queries.FindPaymentById(s.payments, pay.id).value;
    var i :| 0 <= i < |s.payments| && s.payments[i] == r;
    var j :| 0 <= j < |s.payments| && s.payments[j] == pay;
    if i != j { assert false; }
  }

  /** A payment CreatePayment saves in a fresh context gets the next key,
      keeps the request's amount, currency, bearer, details and reference,
      points at the two saved contacts bearing the request's names, and
      reads back by key with its contacts included exactly as it was
      returned. */
  lemma CreatedPaymentReadsBack(s: Store, v: Payment, now: DateTime)
    requires StoreValid(s)
    ensures Saveable(s, Stage(s, NoChanges, v))
    ensures var s1 := Save(s, Stage(s, NoChanges, v), now);
      && StoreValid(s1)
      && |s1.payments| == |s.payments| + 1
      && var pay := s1.payments[|s.payments|];
      && pay.id == s.nextPaymentId
      && pay == v.(id := pay.id, originatorId := pay.originator.id, originator := pay.originator,
                   beneficiaryId := pay.beneficiary.id, beneficiary := pay.beneficiary)
      && pay.originator in s1.contacts && pay.beneficiary in s1.contacts
      && pay.originator.name == v.originator.name && pay.beneficiary.name == v.beneficiary.name
      && Queries.FindPaymentById(s1.payments, s.nextPaymentId) == Some(pay)
      && IncludeFind(s1, s.nextPaymentId) == Some(pay)
  {
    var b, o := StagedParties(s, v);
    var staged := Stage(s, NoChanges, v);
    var s1 := Save(s, staged, now);
    SavePreservesValid(s, staged, now);
    SavedParty(s, staged, now, v.beneficiary, b);
    SavedParty(s, staged, now, v.originator, o);
    var pay := s1.payments[|s.payments|];
    assert pay == SavedPayment(s, staged, 0, now);
    assert pay in s1.payments;
    FindPaymentUnique(s1, pay);
    SavedPaymentReadsBack(s, staged, now, 0);
  }

  /** A party's contact is tracked by the context that staged it: as an
      edited row when its name was known, as an insert otherwise. */
  lemma PartyTracked(s: Store, p: Pending, req: Contact, ref: ContactRef)
    requires Resolved(s, p, req, ref)
    ensures RefId(s, ref) in p.tracked.Keys + InsertedKeys(s, p)
  {
  }

  /** In the context that created it, the payment read back by key without
      an include comes with both contacts, because the save left them
      tracked: its columns and contacts are those returned at creation. */
  lemma CreatingContextReadsBack(s: Store, v: Payment, now: DateTime, attached: set<int>)
    requires StoreValid(s)
    requires Stage(s, NoChanges, v).tracked.Keys + InsertedKeys(s, Stage(s, NoChanges, v)) <= attached
    ensures Saveable(s, Stage(s, NoChanges, v))
    ensures var s1 := Save(s, Stage(s, NoChanges, v), now);
      && |s1.payments| == |s.payments| + 1
      && var pay := s1.payments[|s.payments|];
      && FindRead(s1, NoChanges, attached, pay.id)
         == Some(FoundPayment(ColumnsOf(pay), Some(pay.originator), Some(pay.beneficiary)))
  {
    var b, o := StagedParties(s, v);
    var staged := Stage(s, NoChanges, v);
    var s1 := Save(s, staged, now);
    CreatedPaymentReadsBack(s, v, now);
    var pay := s1.payments[|s.payments|];
    assert pay == SavedPayment(s, staged, 0, now);
    PartyTracked(s, staged, v.originator, o);
    PartyTracked(s, staged, v.beneficiary, b);
    FindByIdUnique(s1, pay.originator);
    FindByIdUnique(s1, pay.beneficiary);
  }

  /** The upsert of both contacts by one successful CreatePayment in a fresh
      context. The originator carries the request's address fields, and so
      does the beneficiary unless the originator has the same name. A known
      name keeps its row's key and bank account, an unknown one takes the
      request's account. Afterwards the name query finds these contacts. */
  lemma CreatedContactsUpserted(s: Store, v: Payment, now: DateTime)
    requires StoreValid(s)
    ensures Saveable(s, Stage(s, NoChanges, v))
    ensures var s1 := Save(s, Stage(s, NoChanges, v), now);
      && |s1.payments| == |s.payments| + 1
      && var pay := s1.payments[|s.payments|];
      && SameAddressFields(pay.originator.address, v.originator.address)
      && (v.originator.name != v.beneficiary.name ==>
            SameAddressFields(pay.beneficiary.address, v.beneficiary.address))
      && (var row := Queries.FindContactByName(s.contacts, v.beneficiary.name);
          if row.Some? then pay.beneficiary.id == row.value.id && SameAccountFields(pay.beneficiary.account, row.value.account)
          else SameAccountFields(pay.beneficiary.account, v.beneficiary.account))
      && (var row := Queries.FindContactByName(s.contacts, v.originator.name);
          if row.Some? then pay.originator.id == row.value.id && SameAccountFields(pay.originator.account, row.value.account)
          else SameAccountFields(pay.originator.account, v.originator.account))
      && Queries.FindContactByName(s1.contacts, v.beneficiary.name) == Some(pay.beneficiary)
      && (v.originator.name != v.beneficiary.name ==>
            Queries.FindContactByName(s1.contacts, v.originator.name) == Some(pay.originator))
  {
    var b, o := StagedParties(s, v);
    var staged := Stage(s, NoChanges, v);
    var s1 := Save(s, staged, now);
    SavedParty(s, staged, now, v.beneficiary, b);
    SavedParty(s, staged, now, v.originator, o);
    assert s1.payments[|s.payments|] == SavedPayment(s, staged, 0, now);
  }

  /** CreatePayment stages one new contact per party whose name no stored
      contact has, and none for a known name, whatever it staged before. */
  lemma StagedContactCount(s: Store, p: Pending, v: Payment)
    ensures var staged := Stage(s, p, v);
      && |staged.added| == |p.added|
           + (if Queries.FindContactByName(s.contacts, v.beneficiary.name).None? then 1 else 0)
           + (if Queries.FindContactByName(s.contacts, v.originator.name).None? then 1 else 0)
      && staged.added[..|p.added|] == p.added
  {
    var p1, b, p2, o := StageSteps(s, p, v);
  }

  /** A brand-new name used for both roles is looked up against the stored
      rows only, so it is staged twice: two contacts with that name, one per
      role, each copied from its own party of the request. */
  lemma SameNewNameStagedTwice(s: Store, p: Pending, v: Payment)
    requires v.originator.name == v.beneficiary.name
    requires Queries.FindContactByName(s.contacts, v.beneficiary.name).None?
    ensures var staged := Stage(s, p, v);
      && staged.added == p.added + [NewContact(v.beneficiary), NewContact(v.originator)]
      && staged.payments == p.payments + [PendingPayment(v, New(|p.added| + 1), New(|p.added|))]
  {
    var p1, b, p2, o := StageSteps(s, p, v);
    assert p1.added == p.added + [NewContact(v.beneficiary)];
  }

  /** Repeating a creation with the same two names after a successful save
      reuses the contacts the first one created or updated: nothing is
      staged for insertion. */
  lemma RepeatedCreationAddsNoContacts(s: Store, v1: Payment, v2: Payment, now: DateTime)
    requires StoreValid(s)
    requires v2.beneficiary.name == v1.beneficiary.name && v2.originator.name == v1.originator.name
    ensures Saveable(s, Stage(s, NoChanges, v1))
    ensures Stage(Save(s, Stage(s, NoChanges, v1), now), NoChanges, v2).added == []
  {
    CreatedContactsUpserted(s, v1, now);
    var s1 := Save(s, Stage(s, NoChanges, v1), now);
    StagedContactCount(s1, NoChanges, v2);
  }

  /** Two successful creations with the same beneficiary name (and other
      originators): the contact the name then finds keeps the key and bank
      account it had after the first, and its address is the second
      request's: last write wins. */
  lemma AddressLastWriteWins(s: Store, v1: Payment, v2: Payment, t1: DateTime, t2: DateTime)
    requires StoreValid(s)
    requires v2.beneficiary.name == v1.beneficiary.name
    requires v1.originator.name != v1.beneficiary.name && v2.originator.name != v2.beneficiary.name
    ensures Saveable(s, Stage(s, NoChanges, v1))
    ensures var s1 := Save(s, Stage(s, NoChanges, v1), t1);
      && StoreValid(s1)
      && Saveable(s1, Stage(s1, NoChanges, v2))
      && var s2 := Save(s1, Stage(s1, NoChanges, v2), t2);
      && var first := Queries.FindContactByName(s1.contacts, v1.beneficiary.name);
      && var last := Queries.FindContactByName(s2.contacts, v1.beneficiary.name);
      && first.Some? && last.Some?
      && last.value.id == first.value.id
      && SameAccountFields(last.value.account, first.value.account)
      && SameAddressFields(last.value.address, v2.beneficiary.address)
      && (Queries.FindContactByName(s.contacts, v1.beneficiary.name).None? ==>
            SameAccountFields(last.value.account, v1.beneficiary.account))
  {
    CreatedPaymentReadsBack(s, v1, t1);
    CreatedContactsUpserted(s, v1, t1);
    var s1 := Save(s, Stage(s, NoChanges, v1), t1);
    CreatedContactsUpserted(s1, v2, t2);
  }
}
