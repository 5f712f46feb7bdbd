/** The read side of the two repositories: first-match lookups of contacts
    and payments, and the conjunctive payment filter. */
module Queries {
  import opened Models

  /** The index of the first element satisfying `p`, or `|s|` when none does:
      the position `FirstOrDefault` stops at. */
  function FirstIndex<T>(s: seq<T>, p: T -> bool): (i: nat)
    ensures i <= |s|
    ensures i < |s| ==> p(s[i])
    ensures forall j | 0 <= j < i :: !p(s[j])
  {
    if s == [] then 0
    else if p(s[0]) then 0
    else 1 + FirstIndex(s[1..], p)
  }

  /** `FirstOrDefault`: the first element satisfying `p`, or null. */
  function FirstOrNone<T>(s: seq<T>, p: T -> bool): (r: Option<T>)
    ensures r.None? <==> forall x | x in s :: !p(x)
    ensures r.Some? ==> r.value == s[FirstIndex(s, p)] && p(r.value)
  {
    var i := FirstIndex(s, p);
    if i < |s| then Some(s[i]) else None
  }

  /** ContactRepository.GetContactByNameAsync: exact name match, first row wins. */
  function FindContactByName(contacts: seq<Contact>, name: string): (r: Option<Contact>)
    ensures r.None? <==> forall c | c in contacts :: c.name != name
    ensures r.Some? ==> r.value in contacts && r.value.name == name
    ensures r.Some? ==> exists i | 0 <= i < |contacts| ::
      contacts[i] == r.value && forall j | 0 <= j < i :: contacts[j].name != name
  {
    var r := FirstOrNone(contacts, (c: Contact) => c.name == name);
    assert r.Some? ==> contacts[FirstIndex(contacts, (c: Contact) => c.name == name)] == r.value;
    r
  }

  /** When at most one contact carries a name, the name query returns that
      contact, whatever order the rows come in. */
  lemma FindContactByNameUnique(contacts: seq<Contact>, c: Contact)
    requires c in contacts
    requires forall other | other in contacts && other.name == c.name :: other == c
    ensures FindContactByName(contacts, c.name) == Some(c)
  {
  }

  /** ContactRepository.GetContactByIdAsync: the contact with that key, or null. */
  function FindContactById(contacts: seq<Contact>, id: int): (r: Option<Contact>)
    ensures r.None? <==> forall c | c in contacts :: c.id != id
    ensures r.Some? ==> r.value in contacts && r.value.id == id
  {
    FirstOrNone(contacts, (c: Contact) => c.id == id)
  }

  /** The row-level lookup of a payment by key, or none. `Data.FindRead` (the
      `Find` of PaymentRepository.GetPaymentByIdAsync) and `Data.IncludeFind`
      build their results from it; the contacts of the row it returns are
      not part of either answer as such. */
  function FindPaymentById(payments: seq<Payment>, id: int): (r: Option<Payment>)
    ensures r.None? <==> forall p | p in payments :: p.id != id
    ensures r.Some? ==> r.value in payments && r.value.id == id
  {
    FirstOrNone(payments, (p: Payment) => p.id == id)
  }

  /** The optional filters of GetPaymentsAsync; `ids` is null when absent. */
  datatype PaymentQuery = PaymentQuery(
    ids: Option<seq<int>>,
    fromDate: Option<DateTime>,
    toDate: Option<DateTime>,
    minAmount: Option<real>,
    maxAmount: Option<real>)

  const NoFilter := PaymentQuery(None, None, None, None, None)

  /** An id list restricts the result only when it is present and non-empty. */
  predicate IdFilterActive(ids: Option<seq<int>>)
  {
    ids.Some? && |ids.value| > 0
  }

  /** The reference meaning of a query: every supplied filter holds, with
      inclusive bounds on `CreatedAt` and `Amount`. */
  predicate Matches(q: PaymentQuery, p: Payment)
  {
    && (IdFilterActive(q.ids) ==> p.id in q.ids.value)
    && (q.fromDate.Some? ==> p.createdAt >= q.fromDate.value)
    && (q.toDate.Some? ==> p.createdAt <= q.toDate.value)
    && (q.minAmount.Some? ==> p.amount >= q.minAmount.value)
    && (q.maxAmount.Some? ==> p.amount <= q.maxAmount.value)
  }

  /** LINQ `Where`: the elements satisfying `keep`, in their order. */
  function Where<T>(s: seq<T>, keep: T -> bool): (r: seq<T>)
    ensures |r| <= |s|
    ensures forall x | x in r :: x in s && keep(x)
    ensures forall i | 0 <= i < |s| :: keep(s[i]) ==> s[i] in r
    ensures forall x | x in s && keep(x) :: x in r
  {
    if s == [] then []
    else (if keep(s[0]) then [s[0]] else []) + Where(s[1..], keep)
  }

  /** `Where` keeps each kept element as often as it occurs, and drops every
      other one. */
  lemma {:induction false} WhereCount<T>(s: seq<T>, keep: T -> bool)
    ensures forall x | x in s :: multiset(Where(s, keep))[x] == if keep(x) then multiset(s)[x] else 0
  {
    if s != [] {
      WhereCount(s[1..], keep);
      assert s == [s[0]] + s[1..];
    }
  }

  /** GetPaymentsAsync: the stored payments narrowed by each supplied filter
      in turn. */
  function GetPayments(payments: seq<Payment>, q: PaymentQuery): (r: seq<Payment>)
    ensures |r| <= |payments|
    ensures forall p :: p in r <==> p in payments && Matches(q, p)
  {
    var byId := if IdFilterActive(q.ids) then Where(payments, IdIn(q.ids.value)) else payments;
    var from := if q.fromDate.Some? then Where(byId, CreatedFrom(q.fromDate.value)) else byId;
    var to := if q.toDate.Some? then Where(from, CreatedTo(q.toDate.value)) else from;
    var min := if q.minAmount.Some? then Where(to, AmountAtLeast(q.minAmount.value)) else to;
    if q.maxAmount.Some? then Where(min, AmountAtMost(q.maxAmount.value)) else min
  }

  // The five filter steps of GetPaymentsAsync, one `Where` each.

  function IdIn(ids: seq<int>): Payment -> bool
  {
    (p: Payment) => p.id in ids
  }

  function CreatedFrom(d: DateTime): Payment -> bool
  {
    (p: Payment) => p.createdAt >= d
  }

  function CreatedTo(d: DateTime): Payment -> bool
  {
    (p: Payment) => p.createdAt <= d
  }

  function AmountAtLeast(a: real): Payment -> bool
  {
    (p: Payment) => p.amount >= a
  }

  function AmountAtMost(a: real): Payment -> bool
  {
    (p: Payment) => p.amount <= a
  }

  /** Filtering by a predicate every element satisfies keeps the sequence. */
  lemma {:induction false} WhereAll<T>(s: seq<T>, keep: T -> bool)
    requires forall x | x in s :: keep(x)
    ensures Where(s, keep) == s
  {
    if s != [] {
      WhereAll(s[1..], keep);
    }
  }

  /** Filtering by `keep` and then by `step` is one filter by `both`, when
      `both` holds exactly where both do. */
  lemma {:induction false} WhereWhere<T>(s: seq<T>, keep: T -> bool, step: T -> bool, both: T -> bool)
    requires forall x | x in s :: both(x) == (keep(x) && step(x))
    ensures Where(Where(s, keep), step) == Where(s, both)
  {
    if s != [] {
      var t := s[1..];
      WhereWhere(t, keep, step, both);
      var w := Where(s, keep);
      if keep(s[0]) {
        assert w == [s[0]] + Where(t, keep);
        assert w[0] == s[0] && w[1..] == Where(t, keep);
      } else {
        assert w == Where(t, keep);
      }
    }
  }

  /** Filters that agree on every element give the same result. */
  lemma {:induction false} WhereSame<T>(s: seq<T>, keep: T -> bool, other: T -> bool)
    requires forall x | x in s :: keep(x) == other(x)
    ensures Where(s, keep) == Where(s, other)
  {
    if s != [] {
      WhereSame(s[1..], keep, other);
    }
  }

  /** One filter step of the list query, applied or skipped, on top of the
      steps before it (together `acc`) is one filter by `both`. */
  lemma FilterStep<T>(s: seq<T>, acc: T -> bool, applied: bool, step: T -> bool, both: T -> bool)
    requires forall x | x in s :: both(x) == (acc(x) && (applied ==> step(x)))
    ensures (if applied then Where(Where(s, acc), step) else Where(s, acc)) == Where(s, both)
  {
    if applied {
      WhereWhere(s, acc, step, both);
    } else {
      WhereSame(s, acc, both);
    }
  }

  // The filter steps taken so far, as one predicate each.

  function PassesIds(q: PaymentQuery): Payment -> bool
  {
    (p: Payment) => IdFilterActive(q.ids) ==> p.id in q.ids.value
  }

  function PassesFrom(q: PaymentQuery): Payment -> bool
  {
    (p: Payment) => PassesIds(q)(p) && (q.fromDate.Some? ==> p.createdAt >= q.fromDate.value)
  }

  function PassesTo(q: PaymentQuery): Payment -> bool
  {
    (p: Payment) => PassesFrom(q)(p) && (q.toDate.Some? ==> p.createdAt <= q.toDate.value)
  }

  function PassesMin(q: PaymentQuery): Payment -> bool
  {
    (p: Payment) => PassesTo(q)(p) && (q.minAmount.Some? ==> p.amount >= q.minAmount.value)
  }

  lemma IdStep(payments: seq<Payment>, q: PaymentQuery)
    ensures (if IdFilterActive(q.ids) then Where(payments, IdIn(q.ids.value)) else payments)
      == Where(payments, PassesIds(q))
  {
    if IdFilterActive(q.ids) {
      WhereSame(payments, IdIn(q.ids.value), PassesIds(q));
    } else {
      WhereAll(payments, PassesIds(q));
    }
  }

  lemma FromStep(payments: seq<Payment>, q: PaymentQuery)
    ensures var before := Where(payments, PassesIds(q));
      (if q.fromDate.Some? then Where(before, CreatedFrom(q.fromDate.value)) else before)
      == Where(payments, PassesFrom(q))
  {
    var step := if q.fromDate.Some? then CreatedFrom(q.fromDate.value) else PassesIds(q);
    FilterStep(payments, PassesIds(q), q.fromDate.Some?, step, PassesFrom(q));
  }

  lemma ToStep(payments: seq<Payment>, q: PaymentQuery)
    ensures var before := Where(payments, PassesFrom(q));
      (if q.toDate.Some? then Where(before, CreatedTo(q.toDate.value)) else before)
      == Where(payments, PassesTo(q))
  {
    var step := if q.toDate.Some? then CreatedTo(q.toDate.value) else PassesFrom(q);
    FilterStep(payments, PassesFrom(q), q.toDate.Some?, step, PassesTo(q));
  }

  lemma MinStep(payments: seq<Payment>, q: PaymentQuery)
    ensures var before := Where(payments, PassesTo(q));
      (if q.minAmount.Some? then Where(before, AmountAtLeast(q.minAmount.value)) else before)
      == Where(payments, PassesMin(q))
  {
    var step := if q.minAmount.Some? then AmountAtLeast(q.minAmount.value) else PassesTo(q);
    FilterStep(payments, PassesTo(q), q.minAmount.Some?, step, PassesMin(q));
  }

  lemma MaxStep(payments: seq<Payment>, q: PaymentQuery)
    ensures var before := Where(payments, PassesMin(q));
      (if q.maxAmount.Some? then Where(before, AmountAtMost(q.maxAmount.value)) else before)
      == Where(payments, (p: Payment) => Matches(q, p))
  {
    var step := if q.maxAmount.Some? then AmountAtMost(q.maxAmount.value) else PassesMin(q);
    forall x | x in payments
      ensures Matches(q, x) == (PassesMin(q)(x) && (q.maxAmount.Some? ==> step(x)))
    {
      assert PassesFrom(q)(x) == (PassesIds(q)(x) && (q.fromDate.Some? ==> x.createdAt >= q.fromDate.value));
      assert PassesTo(q)(x) == (PassesFrom(q)(x) && (q.toDate.Some? ==> x.createdAt <= q.toDate.value));
      assert PassesMin(q)(x) == (PassesTo(q)(x) && (q.minAmount.Some? ==> x.amount >= q.minAmount.value));
    }
    FilterStep(payments, PassesMin(q), q.maxAmount.Some?, step, (p: Payment) => Matches(q, p));
  }

  /** The list query is the stored payments that match the query, in store
      order, each as often as it is stored: the chain of filter steps equals
      one filter by `Matches`. */
  lemma GetPaymentsInOrder(payments: seq<Payment>, q: PaymentQuery)
    ensures GetPayments(payments, q) == Where(payments, (p: Payment) => Matches(q, p))
    ensures forall p | p in payments ::
      multiset(GetPayments(payments, q))[p] == if Matches(q, p) then multiset(payments)[p] else 0
  {
    IdStep(payments, q);
    FromStep(payments, q);
    ToStep(payments, q);
    MinStep(payments, q);
    MaxStep(payments, q);
    WhereCount(payments, (p: Payment) => Matches(q, p));
  }

  /** With no filter supplied, and with an empty id list as the only
      filter, every stored payment is returned, in store order. */
  lemma UnfilteredReturnsAll(payments: seq<Payment>, ids: Option<seq<int>>)
    requires ids == None || ids == Some([])
    ensures GetPayments(payments, NoFilter.(ids := ids)) == payments
  {
  }
}
