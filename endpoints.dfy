/** The payment routes: create a payment by upserting its two contacts by
    name, and read payments back. */
module PaymentEndpoints {
  import opened Models
  import opened Validation
  import Queries
  import opened Data
  import UpsertProperties

  datatype CreateResult =
    | ValidationProblem(errors: seq<ValidationFailure>)
    | Created(location: string, payment: Payment)
    | StorageProblem(message: string)

  datatype GetResult = Ok(payment: FoundPayment) | NotFound

  datatype ListResult = Listed(payments: seq<Payment>) | ListProblem(message: string)

  const StorageFailureMessage := "Something went wrong with storing payment"
  const ListFailureMessage := "Something went wrong with getting payments"

  function DigitChar(d: nat): char
    requires d < 10
  {
    ('0' as int + d) as char
  }

  /** The decimal text of a key, as string interpolation writes it. */
  function IntToString(n: int): (r: string)
    ensures |r| > 0
    ensures n >= 0 ==> forall i | 0 <= i < |r| :: '0' <= r[i] <= '9'
    decreases if n < 0 then -n + 1 else n
  {
    if n < 0 then "-" + IntToString(-n)
    else if n < 10 then [DigitChar(n)]
    else IntToString(n / 10) + [DigitChar(n % 10)]
  }

  /** Reading decimal digits back into a number. */
  function ParseDecimal(s: string): int
  {
    if s == [] then 0
    else ParseDecimal(s[..|s| - 1]) * 10 + (s[|s| - 1] as int - '0' as int)
  }

  /** The decimal text of a non-negative key reads back as that key. */
  lemma {:induction false} DecimalRoundTrip(n: nat)
    ensures ParseDecimal(IntToString(n)) == n
  {
    if n >= 10 {
      DecimalRoundTrip(n / 10);
      var s := IntToString(n);
      assert s[..|s| - 1] == IntToString(n / 10);
    }
  }

  function Location(id: int): string
  {
    "/payment/" + IntToString(id)
  }

  /** Distinct keys get distinct locations. */
  lemma LocationsDistinct(a: nat, b: nat)
    ensures Location(a) == Location(b) <==> a == b
  {
    if Location(a) == Location(b) {
      var prefix := |"/payment/"|;
      assert IntToString(a) == Location(a)[prefix..];
      assert IntToString(b) == Location(b)[prefix..];
      DecimalRoundTrip(a);
      DecimalRoundTrip(b);
    }
  }

  /** One party of the request resolved by name (the beneficiary block and
      the originator block are the same code): an unknown name stages a new
      contact, a known one has the six address fields of the contact the
      query returned overwritten in place. */
  method ResolveParty(db: ApiDbContext, req: Contact) returns (ref: ContactRef)
    modifies db
    ensures db.store == old(db.store)
    ensures (db.pending, ref) == Resolve(old(db.store), old(db.pending), req)
    ensures db.attached == old(db.attached) + KeyOf(Queries.FindContactByName(db.store.contacts, req.name))
  {
    var found := db.GetContactByName(req.name);
    if found.None? {
      ref := db.AddContact(NewContact(req));
    } else {
      var row := Queries.FindContactByName(db.store.contacts, req.name).value;
      db.AssignAddressFields(row.id, found.value, req.address);
      ref := Existing(row.id);
    }
  }

  /** POST /payment. A request that fails validation is answered with its
      failures before anything is touched. Otherwise the beneficiary and then
      the originator are resolved by name against the stored contacts (an
      unknown name stages a new contact, a known one has its address fields
      overwritten), the payment is staged linked to both, and everything is
      saved and committed in one transaction. If the save fails, the rows
      stay as they were and a generic message is returned. */
  method CreatePayment(db: ApiDbContext, value: Payment, now: DateTime, storeFails: bool)
    returns (r: CreateResult)
    modifies db
    ensures !PaymentValid(value) ==>
      && r == ValidationProblem(PaymentFailures(value))
      && db.store == old(db.store) && db.pending == old(db.pending) && db.attached == old(db.attached)
    ensures PaymentValid(value) ==>
      var staged := Stage(old(db.store), old(db.pending), value);
      var found := old(db.attached) + FoundKeys(old(db.store), value);
      if !storeFails && Saveable(old(db.store), staged) then
        && db.store == Save(old(db.store), staged, now)
        && db.pending == NoChanges
        && db.attached == found + staged.tracked.Keys + InsertedKeys(old(db.store), staged)
        && r.Created?
        && r.payment == db.store.payments[|db.store.payments| - 1]
        && r.payment.id == old(db.store).nextPaymentId + |old(db.pending).payments|
        && r.location == Location(r.payment.id)
      else
        && r == StorageProblem(StorageFailureMessage)
        && db.store == old(db.store)
        && db.pending == staged
        && db.attached == found
  {
    var errors := PaymentFailures(value);
    if errors != [] {
      return ValidationProblem(errors);
    }

    StageRequest(db, value);
    var saved := db.SaveChanges(now, storeFails);
    if saved {
      var payment := db.store.payments[|db.store.payments| - 1];
      r := Created(Location(payment.id), payment);
    } else {
      r := StorageProblem(StorageFailureMessage);
    }
  }

  /** One POST /payment request with the context scoped to the request, as
      the service registers it: a fresh context over the stored rows. A
      valid request is created exactly when the database does not refuse
      the save; the rows keep their keys unique and their references. */
  method CreatePaymentRequest(rows: Store, value: Payment, now: DateTime, storeFails: bool)
    returns (r: CreateResult, after: Store)
    requires StoreValid(rows)
    ensures StoreValid(after)
    ensures Saveable(rows, Stage(rows, NoChanges, value))
    ensures !PaymentValid(value) ==> r == ValidationProblem(PaymentFailures(value)) && after == rows
    ensures PaymentValid(value) && storeFails ==> r == StorageProblem(StorageFailureMessage) && after == rows
    ensures PaymentValid(value) && !storeFails ==>
      && after == Save(rows, Stage(rows, NoChanges, value), now)
      && |after.payments| == |rows.payments| + 1
      && r == Created(Location(after.payments[|rows.payments|].id), after.payments[|rows.payments|])
      && after.payments[|rows.payments|].id == rows.nextPaymentId
  {
    var b, o := UpsertProperties.StagedParties(rows, value);
    ghost var staged := Stage(rows, NoChanges, value);
    assert |staged.payments| == 1;
    var db := new ApiDbContext(rows);
    r := CreatePayment(db, value, now, storeFails);
    after := db.store;
    if PaymentValid(value) && !storeFails {
      assert after == Save(rows, staged, now);
      UpsertProperties.SavePreservesValid(rows, staged, now);
    }
  }

  /** The staging part of CreatePayment: the beneficiary, then the
      originator, then the payment linked to both. */
  method StageRequest(db: ApiDbContext, value: Payment)
    modifies db
    ensures db.store == old(db.store)
    ensures db.pending == Stage(old(db.store), old(db.pending), value)
    ensures |db.pending.payments| == |old(db.pending).payments| + 1
    ensures db.attached == old(db.attached) + FoundKeys(db.store, value)
  {
    var beneficiaryRef := ResolveParty(db, value.beneficiary);
    var originatorRef := ResolveParty(db, value.originator);
    db.AddPayment(PendingPayment(value, originatorRef, beneficiaryRef));
  }

  /** The keys of the stored contacts the two name queries of a request
      find. */
  function FoundKeys(s: Store, value: Payment): set<int>
  {
    KeyOf(Queries.FindContactByName(s.contacts, value.beneficiary.name))
      + KeyOf(Queries.FindContactByName(s.contacts, value.originator.name))
  }

  /** GET /payment/{id}: the payment as `Find` reads it, or not found. */
  method GetPaymentById(db: ApiDbContext, id: int) returns (r: GetResult)
    ensures r.NotFound? <==> forall p | p in db.store.payments :: p.id != id
    ensures r.Ok? ==> r.payment.columns.id == id && FindRead(db.store, db.pending, db.attached, id) == Some(r.payment)
  {
    var found := db.FindPayment(id);
    r := if found.Some? then Ok(found.value) else NotFound;
  }

  /** GET /payment: every stored payment, in store order, with both contacts
      included; `readFails` stands for an error the database raises. */
  method GetPayments(db: ApiDbContext, readFails: bool) returns (r: ListResult)
    ensures readFails ==> r == ListProblem(ListFailureMessage)
    ensures !readFails ==> r.Listed? && |r.payments| == |db.store.payments|
    ensures r.Listed? ==> forall i | 0 <= i < |r.payments| :: r.payments[i] == Load(db.store, db.store.payments[i])
  {
    if readFails {
      return ListProblem(ListFailureMessage);
    }
    var all := db.GetPayments(Queries.NoFilter);
    Queries.UnfilteredReturnsAll(db.store.payments, None);
    return Listed(all);
  }
}
