/** The entities of the payment service: contacts with their owned address and
    bank account, and payments between two contacts. */
module Models {

  /** A UTC instant, in ticks. */
  type DateTime = int

  datatype Option<T> = None | Some(value: T)

  /** A contact's postal address. Lines 2 and 3, the city and the postal code
      are nullable; `createdAt` and `updatedAt` are the audit stamps the
      database context writes on save. */
  datatype Address = Address(
    addressLine1: string,
    addressLine2: Option<string>,
    addressLine3: Option<string>,
    city: Option<string>,
    postalCode: Option<string>,
    countryCode: string,
    createdAt: DateTime,
    updatedAt: DateTime)

  datatype BankAccount = BankAccount(
    accountNumber: string,
    bic: string,
    createdAt: DateTime,
    updatedAt: DateTime)

  /** A party to a payment; it owns exactly one address and one account. */
  datatype Contact = Contact(
    id: int,
    name: string,
    address: Address,
    account: BankAccount)

  /** The first member is the enum's default value. */
  datatype ChargesBearer = Originator | Beneficiary | Shared

  datatype Payment = Payment(
    id: int,
    amount: real,
    paymentCurrency: string,
    originatorId: int,
    originator: Contact,
    beneficiaryId: int,
    beneficiary: Contact,
    chargesBearer: ChargesBearer,
    details: string,
    referenceNumber: Option<string>,
    createdAt: DateTime)

  /** The six fields of an address that the upsert copies, without its stamps. */
  predicate SameAddressFields(a: Address, b: Address)
  {
    && a.addressLine1 == b.addressLine1
    && a.addressLine2 == b.addressLine2
    && a.addressLine3 == b.addressLine3
    && a.city == b.city
    && a.postalCode == b.postalCode
    && a.countryCode == b.countryCode
  }

  predicate SameAccountFields(a: BankAccount, b: BankAccount)
  {
    a.accountNumber == b.accountNumber && a.bic == b.bic
  }
}
