// The participant store (src/stores/user.ts): the signed-in user's children,
// bookings and payments, each persisted under a key scoped to the user id.

module Participant {
  import opened Util
  import opened Types
  import opened Storage
  import opened Auth

  /** The fixed price list (PLN). */
  const StudioPricing: Pricing := Pricing(70, 250, 380, 120)

  function ChildrenKey(userId: string): string { "children_" + userId }
  function BookingsKey(userId: string): string { "bookings_" + userId }
  function PaymentsKey(userId: string): string { "payments_" + userId }

  // ---- filters and sums over the cached lists ----

  /** `children.filter(c => c.id !== childId)` */
  function ChildrenExcept(cs: seq<Child>, childId: string): seq<Child>
  {
    Filter(cs, (c: Child) => c.id != childId)
  }

  /** `bookings.filter(b => b.status === status)` */
  function BookingsWithStatus(bs: seq<ClassBooking>, status: ClassStatus): seq<ClassBooking>
  {
    Filter(bs, (b: ClassBooking) => b.status == status)
  }

  function SumAmounts(ps: seq<Payment>): int
  {
    if ps == [] then 0 else ps[0].amount + SumAmounts(ps[1..])
  }

  function HasStatus(status: PaymentStatus): Payment -> bool
  {
    (p: Payment) => p.status == status
  }

  /** The sum of the amounts of the payments with the given status (filter, then reduce). */
  function StatusTotal(ps: seq<Payment>, status: PaymentStatus): int
  {
    SumAmounts(Filter(ps, HasStatus(status)))
  }

  /** `calculateTotalAmount` over a list of payments. */
  function PendingTotal(ps: seq<Payment>): int
  {
    StatusTotal(ps, Pending)
  }

  lemma {:induction false} SumAmountsConcat(a: seq<Payment>, b: seq<Payment>)
    ensures SumAmounts(a + b) == SumAmounts(a) + SumAmounts(b)
  {
    if a == [] {
      assert a + b == b;
    } else {
      assert (a + b)[1..] == a[1..] + b;
      SumAmountsConcat(a[1..], b);
    }
  }

  /** A status total splits over concatenation. */
  lemma StatusTotalConcat(a: seq<Payment>, b: seq<Payment>, status: PaymentStatus)
    ensures StatusTotal(a + b, status) == StatusTotal(a, status) + StatusTotal(b, status)
  {
    var p := HasStatus(status);
    FilterConcat(a, b, p);
    SumAmountsConcat(Filter(a, p), Filter(b, p));
  }

  /** One more payment adds its amount exactly when its status is the one summed. */
  lemma StatusTotalSnoc(ps: seq<Payment>, x: Payment, status: PaymentStatus)
    ensures StatusTotal(ps + [x], status) == StatusTotal(ps, status) + (if x.status == status then x.amount else 0)
  {
    StatusTotalConcat(ps, [x], status);
    assert Filter([x], HasStatus(status)) == if x.status == status then [x] else [];
    assert SumAmounts([x]) == x.amount;
  }

  /** The pending total sums the amounts of the pending payments and ignores every other payment. */
  lemma {:induction false} PendingTotalCountsOnlyPending(ps: seq<Payment>)
    ensures PendingTotal(ps) == if ps == [] then 0
      else (if ps[0].status == Pending then ps[0].amount else 0) + PendingTotal(ps[1..])
  {
    if ps != [] {
      assert ps == [ps[0]] + ps[1..];
      StatusTotalConcat([ps[0]], ps[1..], Pending);
      assert Filter([ps[0]], HasStatus(Pending)) == if ps[0].status == Pending then [ps[0]] else [];
      assert SumAmounts([ps[0]]) == ps[0].amount;
    }
  }

  /** Paid, failed and refunded payments do not change the amount due. */
  lemma PendingTotalIgnoresSettled(ps: seq<Payment>, x: Payment)
    requires x.status != Pending
    ensures PendingTotal(ps + [x]) == PendingTotal(ps)
    ensures PendingTotal([x] + ps) == PendingTotal(ps)
  {
    StatusTotalSnoc(ps, x, Pending);
    StatusTotalConcat([x], ps, Pending);
    assert Filter([x], HasStatus(Pending)) == [];
  }

  /** With non-negative amounts the amount due lies between 0 and the sum of all amounts. */
  lemma {:induction false} PendingTotalBounds(ps: seq<Payment>)
    requires forall p :: p in ps ==> p.amount >= 0
    ensures 0 <= PendingTotal(ps) <= SumAmounts(ps)
  {
    PendingTotalCountsOnlyPending(ps);
    if ps != [] {
      PendingTotalBounds(ps[1..]);
    }
  }

  lemma PendingTotalFacts(ps: seq<Payment>)
    ensures (forall p :: p in ps ==> p.status != Pending) ==> PendingTotal(ps) == 0
    ensures (forall p :: p in ps ==> p.amount >= 0) ==> 0 <= PendingTotal(ps) <= SumAmounts(ps)
  {
    if forall p :: p in ps ==> p.status != Pending {
      FilterNonePass(ps, HasStatus(Pending));
    }
    if forall p :: p in ps ==> p.amount >= 0 {
      PendingTotalBounds(ps);
    }
  }

  /** The example: 100 PLN pending and 50 PLN paid give 100 PLN due. */
  lemma PendingTotalExample(a: Payment, b: Payment)
    requires a.amount == 100 && a.status == Pending
    requires b.amount == 50 && b.status == Paid
    ensures PendingTotal([a, b]) == 100
  {
    PendingTotalCountsOnlyPending([a, b]);
    PendingTotalCountsOnlyPending([b]);
    assert [a, b][1..] == [b];
    assert [b][1..] == [];
  }

  /** `removeChild` keeps exactly the children with another id, in order, and is idempotent. */
  lemma ChildrenExceptFacts(cs: seq<Child>, childId: string)
    ensures forall c :: c in ChildrenExcept(cs, childId) <==> c in cs && c.id != childId
    ensures ChildrenExcept(ChildrenExcept(cs, childId), childId) == ChildrenExcept(cs, childId)
  {
    var p := (c: Child) => c.id != childId;
    forall c | c in cs && c.id != childId ensures c in Filter(cs, p) {
      FilterKeeps(cs, p, c);
    }
    FilterIdempotent(cs, p);
  }

  /** Adding a child and removing it by its fresh id restores the list. */
  lemma AddThenRemove(cs: seq<Child>, c: Child)
    requires forall d :: d in cs ==> d.id != c.id
    ensures ChildrenExcept(cs + [c], c.id) == cs
  {
    var p := (d: Child) => d.id != c.id;
    FilterConcat(cs, [c], p);
    FilterAllPass(cs, p);
    assert Filter([c], p) == [];
  }

  /** `plannedBookings` and `attendedBookings` keep only their status and share no booking. */
  lemma BookingFiltersDisjoint(bs: seq<ClassBooking>)
    ensures forall b :: b in BookingsWithStatus(bs, Planned) ==> b in bs && b.status == Planned
    ensures forall b :: b in BookingsWithStatus(bs, Attended) ==> b in bs && b.status == Attended
    ensures forall b :: b in BookingsWithStatus(bs, Planned) ==> b !in BookingsWithStatus(bs, Attended)
    ensures forall b :: b in bs && b.status == Planned ==> b in BookingsWithStatus(bs, Planned)
  {
    forall b | b in bs && b.status == Planned ensures b in BookingsWithStatus(bs, Planned) {
      FilterKeeps(bs, (x: ClassBooking) => x.status == Planned, b);
    }
  }

  // ---- the store ----

  class UserStore {
    var children: seq<Child>
    var bookings: seq<ClassBooking>
    var payments: seq<Payment>
    var error: Option<string>
    const pricing: Pricing
    const auth: AuthStore
    const storage: LocalStorage

    /** The stores are Pinia singletons: this one and the auth store see one `localStorage`. */
    predicate Shared()
    {
      auth.storage == storage
    }

    constructor(auth: AuthStore, storage: LocalStorage)
      requires auth.storage == storage
      ensures this.auth == auth && this.storage == storage
      ensures Shared()
      ensures children == [] && bookings == [] && payments == [] && error.None?
      ensures pricing == StudioPricing
    {
      this.auth := auth;
      this.storage := storage;
      children, bookings, payments, error := [], [], [], None;
      pricing := StudioPricing;
    }

    /** `hasChildren` */
    predicate HasChildren()
      reads this
      ensures HasChildren() <==> exists c :: c in children
    {
      assert |children| > 0 ==> children[0] in children;
      |children| > 0
    }

    /** `plannedBookings` */
    function PlannedBookings(): (r: seq<ClassBooking>)
      reads this
      ensures forall b :: b in r <==> b in bookings && b.status == Planned
    {
      BookingFiltersDisjoint(bookings);
      BookingsWithStatus(bookings, Planned)
    }

    /** `attendedBookings` */
    function AttendedBookings(): (r: seq<ClassBooking>)
      reads this
      ensures forall b :: b in r <==> b in bookings && b.status == Attended
      ensures forall b :: b in r ==> b !in PlannedBookings()
    {
      forall b | b in bookings && b.status == Attended ensures b in BookingsWithStatus(bookings, Attended) {
        FilterKeeps(bookings, (x: ClassBooking) => x.status == Attended, b);
      }
      BookingsWithStatus(bookings, Attended)
    }

    /** `calculateTotalAmount` */
    function CalculateTotalAmount(): (total: int)
      reads this
      ensures (forall p :: p in payments ==> p.status != Pending) ==> total == 0
      ensures (forall p :: p in payments ==> p.amount >= 0) ==> 0 <= total <= SumAmounts(payments)
    {
      PendingTotalFacts(payments);
      PendingTotal(payments)
    }

    method LoadChildren()
      modifies this
      ensures auth.user.None? ==> children == old(children) && error == old(error)
      ensures auth.user.Some? ==>
        match ReadChildren(storage.GetItem(ChildrenKey(auth.user.value.id)))
        case Parsed(l) => children == l && error.None?
        case Unparseable => children == old(children) && error.Some?
      ensures bookings == old(bookings) && payments == old(payments)
    {
      if auth.user.None? { return; }
      error := None;
      match ReadChildren(storage.GetItem(ChildrenKey(auth.user.value.id)))
      case Parsed(l) => children := l;
      case Unparseable => error := Some("failed to load children");
    }

    /** `addChild`: rejected without a user; otherwise appended and persisted. */
    method AddChild(data: AddChildData, now: nat, iso: string) returns (r: Outcome<Child>)
      requires storage.Valid()
      modifies this, storage
      ensures storage.Valid()
      ensures old(auth.user).None? ==>
        r == Rejected(NotAuthenticated) && children == old(children) && error == old(error)
        && storage.entries == old(storage.entries)
      ensures old(auth.user).Some? ==>
        var uid := old(auth.user).value.id;
        && r.Done? && r.value.userId == uid
        && r.value.id == "child_" + Decimal(now) && r.value.createdAt == iso && r.value.updatedAt == iso
        && r.value.firstName == data.firstName && r.value.lastName == data.lastName
        && r.value.birthDate == data.birthDate && r.value.phone == data.phone
        && children == old(children) + [r.value]
        && storage.entries == Put(old(storage.entries), ChildrenKey(uid), ChildrenDoc(children))
        && error.None? && HasChildren()
      ensures bookings == old(bookings) && payments == old(payments)
    {
      if auth.user.None? {
        return Rejected(NotAuthenticated);
      }
      error := None;
      var uid := auth.user.value.id;
      var c := Child("child_" + Decimal(now), uid, data.firstName, data.lastName,
                     data.birthDate, data.phone, iso, iso);
      children := children + [c];
      storage.SetItem(ChildrenKey(uid), ChildrenDoc(children));
      r := Done(c);
    }

    /** `removeChild`: silently does nothing without a user. */
    method RemoveChild(childId: string)
      requires storage.Valid()
      modifies this, storage
      ensures storage.Valid()
      ensures old(auth.user).None? ==>
        children == old(children) && error == old(error) && storage.entries == old(storage.entries)
      ensures old(auth.user).Some? ==>
        && children == ChildrenExcept(old(children), childId)
        && storage.entries == Put(old(storage.entries), ChildrenKey(old(auth.user).value.id), ChildrenDoc(children))
        && error.None?
      ensures bookings == old(bookings) && payments == old(payments)
    {
      if auth.user.None? { return; }
      error := None;
      children := ChildrenExcept(children, childId);
      storage.SetItem(ChildrenKey(auth.user.value.id), ChildrenDoc(children));
    }

    method LoadBookings()
      modifies this
      ensures auth.user.None? ==> bookings == old(bookings) && error == old(error)
      ensures auth.user.Some? ==>
        match ReadBookings(storage.GetItem(BookingsKey(auth.user.value.id)))
        case Parsed(l) => bookings == l && error.None?
        case Unparseable => bookings == old(bookings) && error.Some?
      ensures children == old(children) && payments == old(payments)
    {
      if auth.user.None? { return; }
      error := None;
      match ReadBookings(storage.GetItem(BookingsKey(auth.user.value.id)))
      case Parsed(l) => bookings := l;
      case Unparseable => error := Some("failed to load bookings");
    }

    method LoadPayments()
      modifies this
      ensures auth.user.None? ==> payments == old(payments) && error == old(error)
      ensures auth.user.Some? ==>
        match ReadPayments(storage.GetItem(PaymentsKey(auth.user.value.id)))
        case Parsed(l) => payments == l && error.None?
        case Unparseable => payments == old(payments) && error.Some?
      ensures children == old(children) && bookings == old(bookings)
    {
      if auth.user.None? { return; }
      error := None;
      match ReadPayments(storage.GetItem(PaymentsKey(auth.user.value.id)))
      case Parsed(l) => payments := l;
      case Unparseable => error := Some("failed to load payments");
    }

    /** `clearData`: empties the three lists and the error; the price list is a constant. */
    method ClearData()
      modifies this
      ensures children == [] && bookings == [] && payments == [] && error.None?
      ensures !HasChildren() && CalculateTotalAmount() == 0
    {
      children, bookings, payments, error := [], [], [], None;
    }
  }
}
