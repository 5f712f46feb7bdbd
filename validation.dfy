/** The request validators: a payment, its two contacts, their addresses and
    their bank accounts. Every rule is FluentValidation's `NotEmpty`. */
module Validation {
  import opened Models

  /** One entry of the validation result: the property path and its message. */
  datatype ValidationFailure = ValidationFailure(propertyName: string, errorMessage: string)

  /** The characters .NET's `char.IsWhiteSpace` accepts. */
  const WhiteSpace: set<char> := {
    ' ', '\t', '\n', '\U{B}', '\U{C}', '\r', '\U{85}', '\U{A0}', '\U{1680}',
    '\U{2000}', '\U{2001}', '\U{2002}', '\U{2003}', '\U{2004}', '\U{2005}',
    '\U{2006}', '\U{2007}', '\U{2008}', '\U{2009}', '\U{200A}',
    '\U{2028}', '\U{2029}', '\U{202F}', '\U{205F}', '\U{3000}'}

  /** `NotEmpty` on a string: not null (folded into ""), not empty and not
      white space only. */
  predicate NotEmpty(s: string)
  {
    |s| > 0 && (s[0] !in WhiteSpace || NotEmpty(s[1..]))
  }

  /** The message `NotEmpty` gives when no custom message is set. */
  function NotEmptyMessage(displayName: string): string
  {
    "'" + displayName + "' must not be empty."
  }

  /** A single rule: no failure when it passes, one failure otherwise. */
  function Rule(passes: bool, propertyName: string, errorMessage: string): (r: seq<ValidationFailure>)
    ensures passes <==> r == []
    ensures !passes ==> r == [ValidationFailure(propertyName, errorMessage)]
  {
    if passes then [] else [ValidationFailure(propertyName, errorMessage)]
  }

  // ---- AddressValidator ----

  /** The two required address fields; lines 2 and 3, the city and the
      postal code are not constrained. */
  predicate AddressValid(a: Address)
  {
    NotEmpty(a.addressLine1) && NotEmpty(a.countryCode)
  }

  function AddressFailures(path: string, a: Address): (r: seq<ValidationFailure>)
    ensures r == [] <==> AddressValid(a)
    ensures !NotEmpty(a.addressLine1) ==>
      ValidationFailure(path + "AddressLine1", NotEmptyMessage("Address Line1")) in r
    ensures !NotEmpty(a.countryCode) ==>
      ValidationFailure(path + "CountryCode", NotEmptyMessage("Country Code")) in r
    ensures forall f | f in r :: path <= f.propertyName
  {
    Rule(NotEmpty(a.addressLine1), path + "AddressLine1", NotEmptyMessage("Address Line1"))
    + Rule(NotEmpty(a.countryCode), path + "CountryCode", NotEmptyMessage("Country Code"))
  }

  // ---- BankAccountValidator ----

  /** Account number and BIC are required; the stamps are not looked at. */
  predicate AccountValid(b: BankAccount)
  {
    NotEmpty(b.accountNumber) && NotEmpty(b.bic)
  }

  function AccountFailures(path: string, b: BankAccount): (r: seq<ValidationFailure>)
    ensures r == [] <==> AccountValid(b)
    ensures !NotEmpty(b.accountNumber) ==>
      ValidationFailure(path + "AccountNumber", NotEmptyMessage("Account Number")) in r
    ensures !NotEmpty(b.bic) ==>
      ValidationFailure(path + "Bic", NotEmptyMessage("Bic")) in r
    ensures forall f | f in r :: path <= f.propertyName
  {
    Rule(NotEmpty(b.accountNumber), path + "AccountNumber", NotEmptyMessage("Account Number"))
    + Rule(NotEmpty(b.bic), path + "Bic", NotEmptyMessage("Bic"))
  }

  // ---- ContactValidator ----

  /** A contact needs a name and a valid address and account; its id is not
      looked at. */
  predicate ContactValid(c: Contact)
  {
    NotEmpty(c.name) && AddressValid(c.address) && AccountValid(c.account)
  }

  function ContactFailures(path: string, c: Contact): (r: seq<ValidationFailure>)
    ensures r == [] <==> ContactValid(c)
    ensures !NotEmpty(c.name) ==> ValidationFailure(path + "Name", NotEmptyMessage("Name")) in r
    ensures !AddressValid(c.address) ==> exists f :: f in r && f in AddressFailures(path + "Address.", c.address)
    ensures !AccountValid(c.account) ==> exists f :: f in r && f in AccountFailures(path + "Account.", c.account)
    ensures forall f | f in r :: path <= f.propertyName
  {
    Rule(NotEmpty(c.name), path + "Name", NotEmptyMessage("Name"))
    + AddressFailures(path + "Address.", c.address)
    + AccountFailures(path + "Account.", c.account)
  }

  // ---- PaymentValidator ----

  /** The six payment rules: a non-zero amount, two valid contacts, a charges
      bearer other than the enum's default, a currency and details. */
  predicate PaymentValid(p: Payment)
  {
    && p.amount != 0.0
    && ContactValid(p.originator)
    && ContactValid(p.beneficiary)
    && p.chargesBearer != Originator
    && NotEmpty(p.paymentCurrency)
    && NotEmpty(p.details)
  }

  const AmountRequired := ValidationFailure("Amount", "Amount is required")
  const ChargesBearerRequired := ValidationFailure("ChargesBearer", "Charges Bearer is required")
  const CurrencyRequired := ValidationFailure("PaymentCurrency", "Payment Currency is required")
  const DetailsRequired := ValidationFailure("Details", "Details is required")

  /** A payment-level rule with its custom message. */
  function PaymentRule(passes: bool, failure: ValidationFailure): (r: seq<ValidationFailure>)
    ensures failure in r <==> !passes
    ensures forall f | f in r :: f == failure
  {
    Rule(passes, failure.propertyName, failure.errorMessage)
  }

  /** The validation result of a payment request, rules in declaration order. */
  function PaymentFailures(p: Payment): (r: seq<ValidationFailure>)
    ensures r == [] <==> PaymentValid(p)
  {
    PaymentRule(p.amount != 0.0, AmountRequired)
    + ContactFailures("Originator.", p.originator)
    + ContactFailures("Beneficiary.", p.beneficiary)
    + PaymentRule(p.chargesBearer != Originator, ChargesBearerRequired)
    + PaymentRule(NotEmpty(p.paymentCurrency), CurrencyRequired)
    + PaymentRule(NotEmpty(p.details), DetailsRequired)
  }

  /** The four payment-level failures are distinct, and none of them lives
      under a contact's property path. */
  lemma PaymentLevelFailuresApart()
    ensures AmountRequired != ChargesBearerRequired && AmountRequired != CurrencyRequired
    ensures AmountRequired != DetailsRequired && ChargesBearerRequired != CurrencyRequired
    ensures ChargesBearerRequired != DetailsRequired && CurrencyRequired != DetailsRequired
    ensures forall f | f in [AmountRequired, ChargesBearerRequired, CurrencyRequired, DetailsRequired] ::
      !("Originator." <= f.propertyName) && !("Beneficiary." <= f.propertyName)
  {
    assert "Originator."[0] == 'O' && "Beneficiary."[0] == 'B';
    assert AmountRequired.propertyName[0] == 'A' && ChargesBearerRequired.propertyName[0] == 'C';
    assert CurrencyRequired.propertyName[0] == 'P' && DetailsRequired.propertyName[0] == 'D';
  }

  /** Each payment-level message appears exactly when its rule fails. */
  lemma PaymentRulesReported(p: Payment)
    ensures AmountRequired in PaymentFailures(p) <==> p.amount == 0.0
    ensures ChargesBearerRequired in PaymentFailures(p) <==> p.chargesBearer == Originator
    ensures CurrencyRequired in PaymentFailures(p) <==> !NotEmpty(p.paymentCurrency)
    ensures DetailsRequired in PaymentFailures(p) <==> !NotEmpty(p.details)
  {
    PaymentLevelFailuresApart();
    var contacts := ContactFailures("Originator.", p.originator) + ContactFailures("Beneficiary.", p.beneficiary);
    assert AmountRequired !in contacts && ChargesBearerRequired !in contacts;
    assert CurrencyRequired !in contacts && DetailsRequired !in contacts;
  }

  /** A failing contact contributes failures under its own property path. */
  lemma ContactFailuresReported(p: Payment)
    ensures !ContactValid(p.originator) ==>
      exists f :: f in PaymentFailures(p) && f in ContactFailures("Originator.", p.originator)
    ensures !ContactValid(p.beneficiary) ==>
      exists f :: f in PaymentFailures(p) && f in ContactFailures("Beneficiary.", p.beneficiary)
  {
    if !ContactValid(p.originator) {
      var f := ContactFailures("Originator.", p.originator)[0];
      assert f in PaymentFailures(p);
    }
    if !ContactValid(p.beneficiary) {
      var f := ContactFailures("Beneficiary.", p.beneficiary)[0];
      assert f in PaymentFailures(p);
    }
  }

  /** `NotEmpty` holds exactly when some character is not white space. */
  lemma {:induction false} NotEmptyHasVisibleChar(s: string)
    ensures NotEmpty(s) <==> exists i | 0 <= i < |s| :: s[i] !in WhiteSpace
  {
    if |s| > 0 {
      NotEmptyHasVisibleChar(s[1..]);
      if s[0] in WhiteSpace && (exists i | 0 <= i < |s| :: s[i] !in WhiteSpace) {
        var i :| 0 <= i < |s| && s[i] !in WhiteSpace;
        assert s[1..][i - 1] == s[i];
      }
      if NotEmpty(s[1..]) {
        var i :| 0 <= i < |s[1..]| && s[1..][i] !in WhiteSpace;
        assert s[i + 1] !in WhiteSpace;
      }
    }
  }

  /** A string starting with an ASCII letter or digit is not empty. */
  lemma StartsVisibleNotEmpty(s: string)
    requires |s| > 0 && ('A' <= s[0] <= 'Z' || 'a' <= s[0] <= 'z' || '0' <= s[0] <= '9')
    ensures NotEmpty(s)
  {
    assert s[0] !in WhiteSpace;
  }

  /** Only the two required fields decide whether an address is valid. */
  lemma AddressOptionalFieldsUnconstrained(a: Address, line2: Option<string>, line3: Option<string>,
                                           city: Option<string>, postalCode: Option<string>)
    ensures AddressValid(a.(addressLine2 := line2, addressLine3 := line3, city := city, postalCode := postalCode))
        == AddressValid(a)
  {
  }

  /** A contact's id and the account's stamps are not looked at. */
  lemma ContactIdAndStampsUnchecked(c: Contact, id: int, created: DateTime, updated: DateTime)
    ensures ContactValid(c.(id := id, account := c.account.(createdAt := created, updatedAt := updated)))
        == ContactValid(c)
  {
  }
}
