# Payment service: create-by-upsert, queries, validation and audit stamps

This project models the core of a small payment service. The service
records payments between two contacts. Each contact has a name, one postal
address and one bank account. The model covers the following parts.

- **Validation.** The four FluentValidation validators become pure
  predicates and failure lists: payment, contact, address and bank account
  (`validation.dfy`). `NotEmpty` means three things:
  - a string is not null, not empty and not white space only;
  - the amount is not 0;
  - the charges bearer is not `Originator`, the enum's first and default
    member.
- **Repository reads.** The contact lookups by name and by key, the payment
  lookup by key, and the conjunctive `GetPaymentsAsync` filter are modelled
  as functions (`queries.dfy`).
- **The database context.** `ApiDbContext` is a class (`data.dfy`). It holds
  the committed rows (`store`) and the change tracker's unsaved work
  (`pending`). `pending` has three parts:
  - contacts staged for insertion;
  - stored contacts tracked with their current, edited values;
  - staged payments, each linked to its contacts by key or by staged-insert
    index.

  Its methods are the repository operations:
  - `Add` and `Update` of contacts;
  - `Add` of payments;
  - `Find`;
  - the filtered list;
  - `SaveChanges`.

  Queries see committed rows only. A row the context already tracks comes
  back with its unsaved edits, which is EF Core's identity resolution. A
  staged insert is never found by a query. The context also records the
  keys of the contacts it tracks with no unsaved change (`attached`): those
  its contact queries returned and those its saves wrote.

  `Find` by key includes nothing. A contact comes with the payment only when
  the context already tracks it, through EF Core's relationship fix-up; it
  is null otherwise (`FindRead`).

  The save stamps every time-stamped entry with one clock value, read once
  and passed in. It uses the `foreach` over the change tracker, modelled as
  a loop over an array of entries (`StampEntries`). It then writes every
  staged change with generated keys. The save fails when a tracked row or a
  referenced contact is missing. It also fails when the database raises an
  error, which is the `storeFails` parameter.
- **The payment routes** (`endpoints.dfy`).
  - `CreatePayment` validates the request, then resolves the beneficiary
    and then the originator by exact name against the stored contacts:
    - an unknown name stages a new contact copied from the request;
    - a known name has the six address fields of the found contact
      overwritten in place, and its bank account is not touched.

    It then stages the payment linked to both contacts, saves, and answers
    `Created` with `/payment/{id}`. When the save fails, the committed rows
    stay as they were and a generic message is returned.
  - The by-key read answers with the payment as `Find` reads it, or not
    found. The list answers with every payment, contacts included.
- **Properties across requests** (`upsert_properties.dfy`).
  - A save keeps keys unique and references intact.
  - A created payment, read by key with its contacts included, is exactly
    what was returned. Read by key without an include, it has both contacts
    only in a context that already tracks both, such as the one that
    created it (see "## Findings").
  - A brand-new name used for both roles is staged twice. The originator's
    lookup queries committed rows and does not see the beneficiary staged a
    moment before, so two contacts with that name are created.
  - A repeated creation with the same names adds no contact.
  - A contact's address is last-write-wins, while its key and bank account
    keep the values of its first creation.
- **Test scenarios** (`scenarios.dfy`). The repository's test scenarios are
  restated as verified lemmas and methods over the model, from an empty
  in-memory database.

Points of the code the model keeps as written:
- The catch block of `CreatePayment` neither rolls back nor commits. A
  failed request only promises that the committed rows are unchanged.
- Only `Address` and `BankAccount` implement `ITimeStampedModel`, so only
  they are stamped on save; a contact itself carries no stamps.
- The validator refuses only a zero `Amount`, so a negative amount is
  accepted.
- `Payment.cs` has no `CreatedAt` field, but the repository filters on one.
  The field is added and is not stamped: `Payment` is not an
  `ITimeStampedModel`.
- The tests call a `CreatePayment` overload that takes the two repositories.
  That overload is not part of this model. The route in
  `Routes/PaymentEndpoints.cs` is modelled, and the scenarios post through
  it.

## Model

| member | source | states |
|---|---|---|
| `Validation.NotEmptyHasVisibleChar` | PaymentService/Validation/AddressValidator.cs:9-10 | `NotEmpty` on a string holds exactly when some character is not .NET white space |
| `Validation.AddressFailures` | PaymentService/Validation/AddressValidator.cs:7-11 | no failure exactly when `AddressLine1` and `CountryCode` are both non-empty; each empty one is reported under its property path |
| `Validation.AddressOptionalFieldsUnconstrained` | PaymentService/Validation/AddressValidator.cs:7-11 | lines 2 and 3, city and postal code (null included) never change an address's validity |
| `Validation.AccountFailures` | PaymentService/Validation/BankAccountValidator.cs:8-12 | no failure exactly when `AccountNumber` and `Bic` are both non-empty; each empty one is reported |
| `Validation.ContactFailures` | PaymentService/Validation/ContactValidator.cs:8-13 | no failure exactly when the name, the address and the account all pass; an empty name and a failing address or account are each reported, all under the contact's path |
| `Validation.ContactIdAndStampsUnchecked` | PaymentService/Validation/ContactValidator.cs:8-13 | a contact's key and its account's stamps never change its validity |
| `Validation.PaymentFailures` | PaymentService/PaymentValidator.cs:8-16 | no failure exactly when all six payment rules pass |
| `Validation.PaymentLevelFailuresApart` | PaymentService/PaymentValidator.cs:10-15 | the four custom failures are distinct and none lies under a contact's property path |
| `Validation.PaymentRulesReported` | PaymentService/PaymentValidator.cs:10-15 | "Amount is required" appears exactly when the amount is 0, the charges bearer message exactly when it is `Originator`, the currency and details messages exactly when those are empty |
| `Validation.ContactFailuresReported` | PaymentService/PaymentValidator.cs:11-12 | an invalid originator or beneficiary contributes its own failures to the payment's |
| `Validation.StartsVisibleNotEmpty` | PaymentService/PaymentValidator.cs:14 | a string that starts with an ASCII letter or digit passes `NotEmpty` |
| `Queries.FirstIndex` | PaymentService/Repositories/ContactRepository.cs:19-20 | the position `FirstOrDefault` stops at: the first element satisfying the predicate, or the length when none does |
| `Queries.FindContactByName` | PaymentService/Repositories/ContactRepository.cs:17-21 | none exactly when no stored contact has the name; otherwise a stored contact with exactly that name, the first one in store order |
| `Queries.FindContactByNameUnique` | PaymentService/Repositories/ContactRepository.cs:19-20 | when only one stored contact carries the name, the name query returns it whatever the row order |
| `Queries.FindContactById` | PaymentService/Repositories/ContactRepository.cs:23-27 | none exactly when no stored contact has the key; otherwise a stored contact with that key |
| `Queries.FindPaymentById` | PaymentService/Repositories/PaymentRepository.cs:21-24 | the row-level lookup under both by-key reads: none exactly when no stored payment has the key; otherwise a stored payment row with that key |
| `Queries.WhereCount` | PaymentService/Repositories/PaymentRepository.cs:32 | a filter keeps every kept element exactly as often as it occurs and drops every other one |
| `Queries.Where` | PaymentService/Repositories/PaymentRepository.cs:32 | keeps exactly the elements satisfying the predicate, never more than the input |
| `Queries.GetPayments` | PaymentService/Repositories/PaymentRepository.cs:26-61 | a payment is returned exactly when it is stored and satisfies every supplied filter: id in a non-empty id list, inclusive date bounds on `CreatedAt`, inclusive amount bounds; order and multiplicity are stated by `GetPaymentsInOrder` |
| `Queries.GetPaymentsInOrder` | PaymentService/Repositories/PaymentRepository.cs:28-60 | the five filter steps together are one filter by `Matches`: the result is the matching stored payments in store order, each exactly as often as it is stored, and no other |
| `Queries.UnfilteredReturnsAll` | PaymentService/Repositories/PaymentRepository.cs:28-33 | with no filter, and with an empty id list as the only filter, every stored payment is returned in store order |
| `Data.StampEntries` | PaymentService/Data/ApiDbContext.cs:36-53 | every entry becomes its stamped self with one clock value, and every changed entry carries that value as `UpdatedAt` (the async overload at 55-73 is the same loop) |
| `Data.StampEffect` | PaymentService/Data/ApiDbContext.cs:39-50 | an added time-stamped entry gets both stamps set to the clock; a modified one gets `UpdatedAt` set and keeps `CreatedAt`; every other entry is untouched; stamping twice with one clock equals stamping once |
| `Data.SavedRow` | PaymentService/Data/ApiDbContext.cs:46-52 | a stored contact keeps its key; an untracked one is unchanged; a tracked one is written with its current name, address fields and account fields; an address or account that `Update` forced or whose fields changed is written with `UpdatedAt` at the clock and its `CreatedAt` kept, an unchanged one exactly as tracked |
| `Data.InsertedRow` | PaymentService/Data/ApiDbContext.cs:41-45 | a staged contact is written under its generated key with its fields, and both stamps of its address and account set to the clock |
| `Data.ResolvedRow` | PaymentService/Routes/PaymentEndpoints.cs:116-119 | the saved contact a staged link resolves to carries the key the link names |
| `Data.SavedPayment` | PaymentService/Routes/PaymentEndpoints.cs:116-119 | a staged payment is written under the next payment key |
| `Data.Save` | PaymentService/Data/ApiDbContext.cs:52 | stored contacts are updated in place, staged contacts and payments are appended with consecutive generated keys, earlier payments are kept |
| `Data.Load` | PaymentService/Routes/PaymentEndpoints.cs:136-141 | only the two navigation properties change, and each becomes the stored contact with the payment's foreign key |
| `Data.IncludeFind` | PaymentService/Repositories/PaymentRepository.cs:55-60 | the by-key read with both contacts included: none exactly when no stored payment has the key, otherwise that payment loaded with its contacts |
| `Data.FindRead` | PaymentService/Repositories/PaymentRepository.cs:21-24 | none exactly when no stored payment has the key; otherwise that payment's columns, and each contact present exactly when the context tracks it (with unsaved edits, or attached and stored) |
| `Data.NewContact` | PaymentService/Routes/PaymentEndpoints.cs:43-60 | the new contact copies the request's name, six address fields, `Bic` and `AccountNumber` |
| `Data.CopyAddressFields` | PaymentService/Routes/PaymentEndpoints.cs:66-72 | the six address fields become the request's and the address's stamps are kept |
| `Data.Resolve` | PaymentService/Routes/PaymentEndpoints.cs:38-76 | an unknown name stages one contact copied from the request and links to it; a known name adds nothing, keeps the row's key, name and account, and gives it the request's six address fields; staged payments are untouched |
| `Data.ApiDbContext.constructor` | PaymentService/Data/ApiDbContext.cs:9-12 | a new context sees the committed rows and has no unsaved changes |
| `Data.ApiDbContext.GetContactByName` | PaymentService/Repositories/ContactRepository.cs:17-21 | null exactly when no committed contact has the name; otherwise a committed contact with that name, as the context tracks it; the row found is tracked afterwards |
| `Data.ApiDbContext.GetContactById` | PaymentService/Repositories/ContactRepository.cs:23-27 | null exactly when no committed contact has the key; otherwise the tracked values, or the stored row with that key; the row found is tracked afterwards |
| `Data.ApiDbContext.AddContact` | PaymentService/Repositories/ContactRepository.cs:29-32 | the contact is only staged for insertion; the committed rows are unchanged |
| `Data.ApiDbContext.UpdateContact` | PaymentService/Repositories/ContactRepository.cs:34-37 | a contact without a key is staged as an insert, otherwise tracked with its whole graph marked modified; nothing is written |
| `Data.ApiDbContext.AssignAddressFields` | PaymentService/Routes/PaymentEndpoints.cs:66-72 | the tracked contact's address fields are replaced in place; nothing is written |
| `Data.ApiDbContext.AddPayment` | PaymentService/Repositories/PaymentRepository.cs:16-19 | the payment is only staged; the committed rows are unchanged |
| `Data.ApiDbContext.FindPayment` | PaymentService/Repositories/PaymentRepository.cs:21-24 | the read `FindRead` describes: null exactly when no stored payment has the key, otherwise its columns with only the tracked contacts |
| `Data.ApiDbContext.FindPaymentIncluded` | PaymentService/Repositories/PaymentRepository.cs:55-60 | the corrected by-key read of "## Findings": the payment with its contacts included, as `IncludeFind` describes |
| `Data.ApiDbContext.GetPayments` | PaymentService/Repositories/PaymentRepository.cs:26-61 | the filtered payments in store order, each with its contacts: every returned one matches all supplied filters and every matching stored one is returned |
| `Data.ApiDbContext.SaveChanges` | PaymentService/Data/ApiDbContext.cs:55-73 | succeeds exactly when the database does not refuse and every referenced row exists; then the rows are the saved ones, nothing is pending, and every contact it wrote stays tracked; otherwise nothing changes |
| `PaymentEndpoints.IntToString` | PaymentService/Routes/PaymentEndpoints.cs:122 | the text of a key is non-empty and, for a non-negative key, all decimal digits |
| `PaymentEndpoints.DecimalRoundTrip` | PaymentService/Routes/PaymentEndpoints.cs:122 | the decimal text of a non-negative key reads back as that key |
| `PaymentEndpoints.LocationsDistinct` | PaymentService/Routes/PaymentEndpoints.cs:122 | two non-negative keys get the same location exactly when they are equal |
| `PaymentEndpoints.ResolveParty` | PaymentService/Routes/PaymentEndpoints.cs:78-116 | one party's lookup and either staged insert or in-place address assignment leave the context in the state `Resolve` describes, without writing |
| `PaymentEndpoints.StageRequest` | PaymentService/Routes/PaymentEndpoints.cs:38-118 | beneficiary, then originator, then the payment linked to both are staged; nothing is written |
| `PaymentEndpoints.CreatePayment` | PaymentService/Routes/PaymentEndpoints.cs:26-129 | an invalid request answers with its failures and touches nothing; a valid one is saved with its contacts upserted and answers `Created` at `/payment/{id}` with the saved payment, or, when the save fails, answers the generic storage message with the committed rows unchanged |
| `PaymentEndpoints.CreatePaymentRequest` | PaymentService/Routes/PaymentEndpoints.cs:30-127 | with a fresh context per request, a valid request is created exactly when the database does not refuse; the rows keep unique keys and intact references |
| `PaymentEndpoints.GetPaymentById` | PaymentService/Routes/PaymentEndpoints.cs:18-24 | not found exactly when no stored payment has the key; otherwise the payment as `FindRead` reads it in this context: its columns, with only the contacts the context tracks |
| `PaymentEndpoints.GetPayments` | PaymentService/Routes/PaymentEndpoints.cs:131-149 | every stored payment in store order with its contacts, or the generic message when the database raises an error |
| `UpsertProperties.SaveKeepsContactIds` | PaymentService/Routes/PaymentEndpoints.cs:119 | no stored contact's key disappears in a save |
| `UpsertProperties.SavePreservesValid` | PaymentService/Routes/PaymentEndpoints.cs:118-121 | a save keeps contact and payment keys unique and below the next generated key, and every payment's two contact keys stored |
| `UpsertProperties.ResolveKeepsInvariants` | PaymentService/Routes/PaymentEndpoints.cs:38-74 | after resolving a party, the tracked contacts are still their rows with only the address changed, and a save is still possible |
| `UpsertProperties.StageSaveable` | PaymentService/Routes/PaymentEndpoints.cs:38-119 | what a request stages in a fresh context can always be saved |
| `UpsertProperties.SaveKeepsRows` | PaymentService/Routes/PaymentEndpoints.cs:64-74 | saving what the workflow tracks keeps every stored contact's key, name and bank account |
| `UpsertProperties.ResolvedRowSaved` | PaymentService/Routes/PaymentEndpoints.cs:76 | the contact a payment is linked to is one of the saved rows |
| `UpsertProperties.SavedPaymentReadsBack` | PaymentService/Repositories/PaymentRepository.cs:55-60 | a saved payment loaded with its contacts included is exactly the payment as saved |
| `UpsertProperties.SavedParty` | PaymentService/Routes/PaymentEndpoints.cs:38-76 | a party's saved contact has the request's name; a known name keeps the row's key and account, an unknown one takes the request's account; the address is the request's when it was last written; the name query then finds this contact |
| `UpsertProperties.SecondResolveKeepsFirst` | PaymentService/Routes/PaymentEndpoints.cs:78-114 | resolving the originator keeps the beneficiary's link, and its address when the names differ |
| `UpsertProperties.StagedParties` | PaymentService/Routes/PaymentEndpoints.cs:38-118 | a request in a fresh context stages exactly one payment linked to its two resolved parties, savable, with the originator's address last written |
| `UpsertProperties.CreatedPaymentReadsBack` | PaymentService/Routes/PaymentEndpoints.cs:116-122 | the created payment has the next key and the request's amount, currency, bearer, details and reference; it points at saved contacts bearing the request's names; read by its key with its contacts included, it is exactly the payment returned |
| `UpsertProperties.PartyTracked` | PaymentService/Routes/PaymentEndpoints.cs:38-102 | each party's contact is tracked by the context that staged the request, as an edited row or as an insert |
| `UpsertProperties.CreatingContextReadsBack` | PaymentService/Routes/PaymentEndpoints.cs:18-24 | in the context that created it, the by-key read without an include returns the created payment's columns with both of its contacts |
| `UpsertProperties.CreatedContactsUpserted` | PaymentService/Routes/PaymentEndpoints.cs:38-116 | after a creation the originator carries the request's address, and so does the beneficiary unless the originator has the same name; a known name keeps its key and account, an unknown one takes the request's account; the name query finds these contacts |
| `UpsertProperties.StagedContactCount` | PaymentService/Routes/PaymentEndpoints.cs:41-102 | a request stages one new contact per party whose name is not stored, and none for a stored one |
| `UpsertProperties.SameNewNameStagedTwice` | PaymentService/Routes/PaymentEndpoints.cs:78-102 | one brand-new name for both roles stages two contacts, one per role, and links the payment to both |
| `UpsertProperties.RepeatedCreationAddsNoContacts` | PaymentService.Tests/PaymentInMemoryTests.cs:208-225 | repeating a creation with the same two names stages no new contact |
| `UpsertProperties.AddressLastWriteWins` | PaymentService/Routes/PaymentEndpoints.cs:64-74 | after two creations with one beneficiary name, the contact keeps its first key and bank account and has the second request's address |
| `PaymentScenarios.TestContactsValid` | PaymentService.Tests/PaymentInMemoryTests.cs:13-72 | the tests' contacts pass the contact validator, with a null city |
| `PaymentScenarios.TestPaymentsValid` | PaymentService.Tests/PaymentInMemoryTests.cs:106-121 | the tests' payment is valid for every non-zero amount, negative ones included |
| `PaymentScenarios.EmptyCurrencyRejected` | PaymentService.Tests/PaymentInMemoryTests.cs:148-164 | an empty currency is the one failure reported |
| `PaymentScenarios.DefaultChargesBearerRejected` | PaymentService/PaymentValidator.cs:13 | a charges bearer left at `Originator` is the one failure reported |
| `PaymentScenarios.FirstLocation` | PaymentService/Routes/PaymentEndpoints.cs:122 | the first payment's location is `/payment/1` |
| `PaymentScenarios.GetPaymentReturnsNotFoundIfNotExists` | PaymentService.Tests/PaymentInMemoryTests.cs:84-93 | reading key 1 from an empty database is not found |
| `PaymentScenarios.CreateStoresValidPayment` | PaymentService.Tests/PaymentInMemoryTests.cs:95-136 | the test payment is created at `/payment/1` with the request's amount, currency and contact names; read back by key through the same context, as the test does, it is found with its columns and both contacts |
| `PaymentScenarios.CreatedPaymentReadInNewContext` | PaymentService/Routes/PaymentEndpoints.cs:18-24 | read back by key in a new context, the payment just created is found with its columns but with both contacts null |
| `PaymentScenarios.CreatedPaymentIncludedInNewContext` | PaymentService/Repositories/PaymentRepository.cs:55-60 | read back with its contacts included in a new context, the payment is exactly the one created, with both names |
| `PaymentScenarios.CreatePaymentDoesNotStoreInvalidPayment` | PaymentService.Tests/PaymentInMemoryTests.cs:138-165 | the empty-currency request is refused with that failure and nothing is stored |
| `PaymentScenarios.CreateThree` | PaymentService.Tests/PaymentInMemoryTests.cs:208-225 | three creations with the same contacts all succeed and store the amounts 388.50, 400.00 and 260.33 in order |
| `PaymentScenarios.GetAllCreatedPayments` | PaymentService.Tests/PaymentInMemoryTests.cs:227-237 | listing after the three creations returns three payments |
| `PaymentScenarios.GetAllCreatedPaymentsFiltered` | PaymentService.Tests/PaymentInMemoryTests.cs:300-312 | a maximum amount of 390.00 returns exactly the 388.50 and 260.33 payments |

## Left out

- Transactions are not modelled: their isolation, the missing rollback in
  the catch block, and the race between two requests that read and then
  insert the same name. A failed request only promises that the committed
  rows are unchanged.
- The catch block also catches exceptions raised by the two name lookups.
  These are folded into the single `storeFails` parameter of the save.
- `PaymentEndpoints.CreatePayment`: a database error from
  `BeginTransaction` is not modelled. The call runs before the `try`
  starts, so such an error (a connection that fails to open, say) escapes
  the route and gets ASP.NET's unhandled-error response, not the generic
  storage message. The model reaches `StorageProblem` only through the save.
- `PaymentEndpoints.GetPaymentById`: a database error from the by-key
  `Find` is not modelled. The route has no `try`, so the error escapes it
  as above. The model's read has no failure outcome.
- `Log.Fatal` and JSON serialisation are left out. The HTTP results are a
  plain result datatype.
- `DateTime.UtcNow` is a parameter of the save.
- `Amount` is a `double`, modelled as a `real`. The service only compares
  it and never computes with it.
- The `Include` chains of the list query are modelled by `Load`, which
  fills both contacts from the stored rows. A contact always has its address
  and account.
  `SetValidator` skips a null child, so a contact without an address or
  account cannot be expressed.
- A null required string is modelled as the empty string. `NotEmpty`
  rejects both.
- FluentValidation's messages are modelled only for the four custom
  messages and the default `'<Display Name>' must not be empty.`.
  Display-name splitting beyond the fields used here is left out.
- `Id` and `ContactId` of `Address` and `BankAccount` are left out. Both
  are owned one-to-one by their contact.
- Keys are always generated, consecutively from a counter. An explicit key
  passed to `Add` is not honoured.
- Query-string parsing of the list filters is not part of this model. The
  `GetPayments` overload that parses them is not among the modelled files.
- Also not part of this model:
  - the contact routes;
  - the host set-up in `Program.cs`;
  - the migrations;
  - the superseded drafts at the root of `PaymentService/`.
- `Data.ApiDbContext.GetPayments` returns the filtered payments in store
  order. The repository promises no order, so this is a choice of the
  model.
- `Data.ApiDbContext.GetPayments` does not model that the list query also
  tracks the contacts it loads, and returns an already tracked contact with
  its unsaved edits. It returns the stored rows and records no new tracked
  key. Every request has a context of its own, in which nothing is tracked
  before the list query runs.
- `Data.ApiDbContext.FindPayment` does not record that `Find` starts
  tracking the payment it returns. No navigation of the model depends on a
  tracked payment, because payments are never edited after their save.
- A payment request without an `Originator` or a `Beneficiary` is not
  modelled: the request always carries both contacts. In the code
  `SetValidator` skips a null child, so such a request passes validation;
  `CreatePayment` then dereferences the missing contact inside the `try` and
  answers with the catch block's generic storage message.
- `Data.ApiDbContext.UpdateContact` overwrites the tracked entry when the
  context already tracks another instance with the same key. `Contacts.Update`
  throws `InvalidOperationException` in that case, which the model does not
  represent.
- `Queries.FindContactByName` returns the first matching row in store
  order. `FirstOrDefaultAsync` without `OrderBy` lets the database return
  any row with the name. Duplicate names do arise (`SameNewNameStagedTwice`).
  So which duplicate the name query finds, and hence the claims of
  `SavedParty` and `CreatedContactsUpserted` about it, is the model's
  choice. `FindContactByNameUnique` states the case the source does decide:
  a name carried by one row.

## Findings

| source | as written | input that shows it | evidently intended | confidence | as-written member | corrected member |
|---|---|---|---|---|---|---|
| PaymentService/Routes/PaymentEndpoints.cs:18-24 | `FindAsync(id)` includes neither contact. In the request's own context no contact is tracked, so `Originator` and `Beneficiary` come back null. | POST the test payment to an empty database, then GET `/payment/1` in a new request. | The payment with both contacts, as the list route includes them and as a round trip of a created payment expects. | high; not executed | `PaymentScenarios.CreatedPaymentReadInNewContext` | `Data.ApiDbContext.FindPaymentIncluded` |

The as-written read is `Data.FindRead`. The corrected read is specified by
`Data.IncludeFind`. `UpsertProperties.CreatedPaymentReadsBack` proves that
it returns a created payment exactly as returned, and
`PaymentScenarios.CreatedPaymentIncludedInNewContext` shows the same input
as above read back in full. `PaymentEndpoints.GetPaymentById` keeps the read
as written, since that is what the route does. The corrected read is
modelled beside it on the context.
