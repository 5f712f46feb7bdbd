/** The service's own test scenarios, restated as verified lemmas and
    methods over the model: an empty database, the three test contacts, and
    the payments the tests post. */
module PaymentScenarios {
  import opened Models
  import opened Validation
  import Queries
  import opened Data
  import opened PaymentEndpoints
  import opened UpsertProperties

  const TestOne := Contact(0, "Test One",
    Address("Test One Str", Some("3"), Some("line 3"), None, Some("532032"), "CY", 0, 0),
    BankAccount("ASD123123", "BCYO12312", 0, 0))

  const TestTwo := Contact(0, "Test Two",
    Address("Test Two Str", Some("14"), None, None, Some("532032"), "CY", 0, 0),
    BankAccount("ASD333", "BCYO12312", 0, 0))

  /** The tests' payment request from "Test One" to "Test Two". */
  function TestPayment(amount: real, currency: string): Payment
  {
    Payment(0, amount, currency, 0, TestOne, 0, TestTwo, Beneficiary, "This is a necessary payment", None, 0)
  }

  /** The in-memory database the tests start from. */
  const EmptyRows := Store([], [], 1, 1)

  lemma EmptyRowsValid()
    ensures StoreValid(EmptyRows)
  {
  }

  lemma TestContactsValid()
    ensures ContactValid(TestOne) && ContactValid(TestTwo)
  {
    StartsVisibleNotEmpty(TestOne.name);
    StartsVisibleNotEmpty(TestOne.address.addressLine1);
    StartsVisibleNotEmpty(TestOne.address.countryCode);
    StartsVisibleNotEmpty(TestOne.account.accountNumber);
    StartsVisibleNotEmpty(TestOne.account.bic);
    StartsVisibleNotEmpty(TestTwo.name);
    StartsVisibleNotEmpty(TestTwo.address.addressLine1);
    StartsVisibleNotEmpty(TestTwo.address.countryCode);
    StartsVisibleNotEmpty(TestTwo.account.accountNumber);
    StartsVisibleNotEmpty(TestTwo.account.bic);
  }

  /** The tests' requests pass validation, and so does a negative amount,
      since only zero is refused. */
  lemma TestPaymentsValid(amount: real)
    requires amount != 0.0
    ensures PaymentValid(TestPayment(amount, "EUR"))
  {
    TestContactsValid();
    StartsVisibleNotEmpty("EUR");
    StartsVisibleNotEmpty("This is a necessary payment");
  }

  /** An empty currency is the one failure reported. */
  lemma EmptyCurrencyRejected()
    ensures PaymentFailures(TestPayment(390.00, "")) == [CurrencyRequired]
  {
    var v := TestPayment(390.00, "");
    TestContactsValid();
    StartsVisibleNotEmpty(v.details);
    assert PaymentRule(v.amount != 0.0, AmountRequired) == [];
    assert ContactFailures("Originator.", v.originator) == [];
    assert ContactFailures("Beneficiary.", v.beneficiary) == [];
  }

  /** A request that leaves the charges bearer at the enum's default is
      refused with the bearer's message alone. */
  lemma DefaultChargesBearerRejected()
    ensures PaymentFailures(TestPayment(388.50, "EUR").(chargesBearer := Originator)) == [ChargesBearerRequired]
  {
    var v := TestPayment(388.50, "EUR").(chargesBearer := Originator);
    TestContactsValid();
    StartsVisibleNotEmpty(v.details);
    StartsVisibleNotEmpty(v.paymentCurrency);
    assert ContactFailures("Originator.", v.originator) == [];
    assert ContactFailures("Beneficiary.", v.beneficiary) == [];
  }

  /** Reading a key from an empty database finds nothing. */
  method GetPaymentReturnsNotFoundIfNotExists() returns (r: GetResult)
    ensures r == NotFound
  {
    var db := new ApiDbContext(EmptyRows);
    r := GetPaymentById(db, 1);
  }

  /** The first payment is created under key 1 with both contacts inserted,
      with the request's amount, currency and contact names; reading its key
      back through the same context, as the test does, finds it with both
      contacts, which that context still tracks. */
  method CreateStoresValidPayment() returns (created: CreateResult, fetched: GetResult)
    ensures created.Created? && created.location == "/payment/1"
    ensures created.payment.amount == 388.50 && created.payment.paymentCurrency == "EUR"
    ensures created.payment.beneficiary.name == "Test Two" && created.payment.originator.name == "Test One"
    ensures fetched.Ok? && fetched.payment.columns == ColumnsOf(created.payment)
    ensures fetched.payment.originator == Some(created.payment.originator)
    ensures fetched.payment.beneficiary == Some(created.payment.beneficiary)
  {
    var v := TestPayment(388.50, "EUR");
    TestPaymentsValid(388.50);
    EmptyRowsValid();
    StageSaveable(EmptyRows, v);
    var db := new ApiDbContext(EmptyRows);
    created := CreatePayment(db, v, 0, false);
    CreatedPaymentReadsBack(EmptyRows, v, 0);
    CreatingContextReadsBack(EmptyRows, v, 0, db.attached);
    fetched := GetPaymentById(db, created.payment.id);
    FirstLocation();
  }

  /** The same creation, then the read by key in a context of its own, as
      every request of the running service gets: nothing is tracked there,
      so the payment comes back with both contacts null although it was
      created with them. */
  method CreatedPaymentReadInNewContext() returns (created: CreateResult, fetched: GetResult)
    ensures created.Created?
    ensures created.payment.originator.name == "Test One" && created.payment.beneficiary.name == "Test Two"
    ensures fetched.Ok? && fetched.payment.columns == ColumnsOf(created.payment)
    ensures fetched.payment.originator == None && fetched.payment.beneficiary == None
  {
    var v := TestPayment(388.50, "EUR");
    TestPaymentsValid(388.50);
    EmptyRowsValid();
    var after;
    created, after := CreatePaymentRequest(EmptyRows, v, 0, false);
    CreatedPaymentReadsBack(EmptyRows, v, 0);
    var db := new ApiDbContext(after);
    fetched := GetPaymentById(db, created.payment.id);
  }

  /** Read with its contacts included, the payment comes back in a new
      context exactly as it was created. */
  method CreatedPaymentIncludedInNewContext() returns (created: CreateResult, fetched: Option<Payment>)
    ensures created.Created?
    ensures fetched == Some(created.payment)
    ensures fetched.value.originator.name == "Test One" && fetched.value.beneficiary.name == "Test Two"
  {
    var v := TestPayment(388.50, "EUR");
    TestPaymentsValid(388.50);
    EmptyRowsValid();
    var after;
    created, after := CreatePaymentRequest(EmptyRows, v, 0, false);
    CreatedPaymentReadsBack(EmptyRows, v, 0);
    var db := new ApiDbContext(after);
    fetched := db.FindPaymentIncluded(created.payment.id);
  }

  lemma FirstLocation()
    ensures Location(1) == "/payment/1"
  {
    assert IntToString(1) == [DigitChar(1)] == "1";
  }

  /** A request with an empty currency is refused and stores nothing. */
  method CreatePaymentDoesNotStoreInvalidPayment() returns (created: CreateResult, after: Store)
    ensures created == ValidationProblem([CurrencyRequired])
    ensures after == EmptyRows
  {
    EmptyCurrencyRejected();
    created, after := CreatePaymentRequest(EmptyRows, TestPayment(390.00, ""), 0, false);
  }

  /** One successful creation of a valid request: its payment is appended
      with the request's amount, the earlier payments are kept. */
  method CreateOne(rows: Store, amount: real, now: DateTime) returns (after: Store)
    requires StoreValid(rows) && PaymentValid(TestPayment(amount, "EUR"))
    ensures StoreValid(after)
    ensures |after.payments| == |rows.payments| + 1
    ensures after.payments[..|rows.payments|] == rows.payments
    ensures after.payments[|rows.payments|].amount == amount
  {
    var v := TestPayment(amount, "EUR");
    var r;
    r, after := CreatePaymentRequest(rows, v, now, false);
    CreatedPaymentReadsBack(rows, v, now);
  }

  /** The three payments of the listing tests, posted in turn. Each post runs
      in its own context over the committed rows, one context per request;
      the tests post all three through one shared context, which commits
      the same rows. */
  method CreateThree() returns (rows: Store)
    ensures StoreValid(rows)
    ensures |rows.payments| == 3
    ensures rows.payments[0].amount == 388.50
    ensures rows.payments[1].amount == 400.00
    ensures rows.payments[2].amount == 260.33
  {
    EmptyRowsValid();
    TestPaymentsValid(388.50);
    TestPaymentsValid(400.00);
    TestPaymentsValid(260.33);
    var r1 := CreateOne(EmptyRows, 388.50, 0);
    var r2 := CreateOne(r1, 400.00, 0);
    assert r2.payments[0] == r2.payments[..1][0];
    rows := CreateOne(r2, 260.33, 0);
    assert rows.payments[0] == rows.payments[..2][0];
    assert rows.payments[1] == rows.payments[..2][1];
  }

  /** Listing after three creations returns all three. */
  method GetAllCreatedPayments() returns (r: ListResult)
    ensures r.Listed? && |r.payments| == 3
  {
    var rows := CreateThree();
    var db := new ApiDbContext(rows);
    r := GetPayments(db, false);
  }

  /** With a maximum amount of 390.00 the filter keeps 388.50 and 260.33
      and drops 400.00. */
  method GetAllCreatedPaymentsFiltered() returns (r: seq<Payment>)
    ensures |r| == 2
    ensures r[0].amount == 388.50 && r[1].amount == 260.33
  {
    var rows := CreateThree();
    var db := new ApiDbContext(rows);
    var q := Queries.NoFilter.(maxAmount := Some(390.00));
    var ps := rows.payments;
    var keep := Queries.AmountAtMost(390.00);
    assert ps == [ps[0], ps[1], ps[2]];
    assert ps[1..] == [ps[1], ps[2]] && ps[2..] == [ps[2]];
    assert Queries.Where(ps[2..], keep) == [ps[2]];
    assert Queries.Where(ps[1..], keep) == [ps[2]];
    assert Queries.GetPayments(ps, q) == [ps[0], ps[2]];
    r := db.GetPayments(q);
  }
}
