// The administration store (src/stores/admin.ts): scans of the whole
// key-value storage for users, children and payments, the attendance
// journal, and the statistics computed from them. Every action first checks
// that the signed-in user is an administrator.

module Administration {
  import opened Util
  import opened Types
  import opened Storage
  import opened Auth
  import opened Participant

  const AttendancesKey: string := "attendances"
  const UserPrefix: string := "auth_user"
  const ChildrenPrefix: string := "children_"
  const PaymentsPrefix: string := "payments_"

  // ---- scans over the storage, in key order ----

  /** Everything a scan takes from the entries, in their order (a flat map). */
  function Collect<T>(es: seq<Entry>, f: Entry -> seq<T>): seq<T>
  {
    if es == [] then [] else Collect(es[..|es| - 1], f) + f(es[|es| - 1])
  }

  lemma {:induction false} CollectConcat<T>(a: seq<Entry>, b: seq<Entry>, f: Entry -> seq<T>)
    ensures Collect(a + b, f) == Collect(a, f) + Collect(b, f)
  {
    if b == [] {
      assert a + b == a;
    } else {
      var init := b[..|b| - 1];
      assert (a + b)[..|a + b| - 1] == a + init;
      assert (a + b)[|a + b| - 1] == b[|b| - 1];
      CollectConcat(a, init, f);
    }
  }

  /** A scan finds exactly what the single entries hold. */
  lemma {:induction false} CollectMembers<T>(es: seq<Entry>, f: Entry -> seq<T>, x: T)
    ensures x in Collect(es, f) <==> exists e :: e in es && x in f(e)
  {
    if es != [] {
      var init, last := es[..|es| - 1], es[|es| - 1];
      assert es == init + [last];
      CollectMembers(init, f, x);
      if x in f(last) {
        assert last in es;
      }
      if exists e :: e in es && x in f(e) {
        var e :| e in es && x in f(e);
        if e != last { assert e in init; }
      }
    }
  }

  /**
   * What `loadUsers` keeps from one entry: under a key starting with
   * `auth_user`, a user record with a non-empty id and a non-empty e-mail.
   * An empty value parses as `{}`, which has neither; a value that does not
   * parse is skipped.
   */
  function UsersIn(e: Entry): seq<User>
  {
    if StartsWith(e.key, UserPrefix) && e.value.UserDoc? && e.value.user.id != "" && e.value.user.email != ""
    then [e.value.user]
    else []
  }

  /** What `loadAllChildren` keeps from one entry: the list stored under a `children_` key. */
  function ChildrenIn(e: Entry): seq<Child>
  {
    if StartsWith(e.key, ChildrenPrefix) && e.value.ChildrenDoc? then e.value.children else []
  }

  /** The payments `loadFinancialStats` goes through for one entry. */
  function PaymentsIn(e: Entry): seq<Payment>
  {
    if StartsWith(e.key, PaymentsPrefix) && e.value.PaymentsDoc? then e.value.payments else []
  }

  function StoredUsers(es: seq<Entry>): seq<User> { Collect(es, UsersIn) }
  function StoredChildren(es: seq<Entry>): seq<Child> { Collect(es, ChildrenIn) }
  function StoredPayments(es: seq<Entry>): seq<Payment> { Collect(es, PaymentsIn) }

  /** The users listed are exactly the well-formed user records under `auth_user…` keys. */
  lemma StoredUsersExactly(es: seq<Entry>, u: User)
    ensures u in StoredUsers(es) <==>
      u.id != "" && u.email != "" && exists k :: StartsWith(k, UserPrefix) && Entry(k, UserDoc(u)) in es
  {
    CollectMembers(es, UsersIn, u);
    if exists e :: e in es && u in UsersIn(e) {
      var e :| e in es && u in UsersIn(e);
      assert e == Entry(e.key, UserDoc(u));
    }
    if u.id != "" && u.email != "" && exists k :: StartsWith(k, UserPrefix) && Entry(k, UserDoc(u)) in es {
      var k :| StartsWith(k, UserPrefix) && Entry(k, UserDoc(u)) in es;
      assert u in UsersIn(Entry(k, UserDoc(u)));
    }
  }

  /** After a login with a non-empty e-mail, the administrator's scan lists the signed-in user. */
  lemma LoggedInUserListed(s: Session, data: LoginData, now: nat, iso: string)
    requires data.email != ""
    ensures LoginUser(data, now, iso) in StoredUsers(AfterLogin(s, data, now, iso).entries)
  {
    var u := LoginUser(data, now, iso);
    var es := AfterLogin(s, data, now, iso).entries;
    LookupPut(Put(s.entries, TokenKey, Text(MintedToken(now))), UserKey, UserDoc(u), UserKey);
    assert Entry(UserKey, UserDoc(u)) in es;
    assert StartsWith(UserKey, UserPrefix);
    assert u.id != "" by {
      if data.email != AdminEmail { assert u.id[0] == 'u'; }
    }
    StoredUsersExactly(es, u);
  }

  /** A newly registered user with an empty e-mail is not listed: `user.email` is falsy. */
  lemma EmptyEmailNotListed(es: seq<Entry>, u: User)
    requires u.email == ""
    ensures u !in StoredUsers(es)
  {
    StoredUsersExactly(es, u);
  }

  /** Children written under a new `children_` key join the end of the administrator's list. */
  lemma NewChildrenKeyAppends(es: seq<Entry>, userId: string, cs: seq<Child>)
    requires ChildrenKey(userId) !in Keys(es)
    ensures StoredChildren(Put(es, ChildrenKey(userId), ChildrenDoc(cs))) == StoredChildren(es) + cs
  {
    var e := Entry(ChildrenKey(userId), ChildrenDoc(cs));
    CollectConcat(es, [e], ChildrenIn);
    StartsWithConcat(ChildrenPrefix, userId);
    assert [e][..0] == [];
  }

  // ---- the statistics ----

  /** `startDate || <30 days ago>`, `endDate || <now>`: an empty string counts as absent. */
  function StatsPeriod(startDate: Option<string>, endDate: Option<string>, monthAgoIso: string, nowIso: string): Period
  {
    Period(if startDate.Some? && startDate.value != "" then startDate.value else monthAgoIso,
           if endDate.Some? && endDate.value != "" then endDate.value else nowIso)
  }

  /** The statistics `loadFinancialStats` reports for the given storage. */
  function FinancialStatsOf(es: seq<Entry>, period: Period): FinancialStats
  {
    var ps := StoredPayments(es);
    FinancialStats(StatusTotal(ps, Paid), StatusTotal(ps, Pending), map[], map[], map[], period)
  }

  /**
   * The period is only recorded in the result: no payment is filtered by
   * date, so the two sums are the same whatever period is asked for.
   */
  lemma PeriodDoesNotFilter(es: seq<Entry>, p: Period, q: Period)
    ensures FinancialStatsOf(es, p).period == p
    ensures FinancialStatsOf(es, p).totalRevenue == FinancialStatsOf(es, q).totalRevenue
    ensures FinancialStatsOf(es, p).pendingPayments == FinancialStatsOf(es, q).pendingPayments
  {
  }

  /** Paid and pending sums together never exceed the sum of all amounts, when amounts are non-negative. */
  lemma {:induction false} PaidPlusPendingBounded(ps: seq<Payment>)
    requires forall p :: p in ps ==> p.amount >= 0
    ensures 0 <= StatusTotal(ps, Paid) && 0 <= StatusTotal(ps, Pending)
    ensures StatusTotal(ps, Paid) + StatusTotal(ps, Pending) <= SumAmounts(ps)
  {
    if ps != [] {
      assert ps == [ps[0]] + ps[1..];
      PaidPlusPendingBounded(ps[1..]);
      StatusTotalConcat([ps[0]], ps[1..], Paid);
      StatusTotalConcat([ps[0]], ps[1..], Pending);
      assert Filter([ps[0]], HasStatus(Paid)) == if ps[0].status == Paid then [ps[0]] else [];
      assert Filter([ps[0]], HasStatus(Pending)) == if ps[0].status == Pending then [ps[0]] else [];
      assert SumAmounts([ps[0]]) == ps[0].amount;
    }
  }

  /** The totals add up over the storage: each `payments_` key contributes independently. */
  lemma FinancialStatsSplit(a: seq<Entry>, b: seq<Entry>, period: Period)
    ensures FinancialStatsOf(a + b, period).totalRevenue
         == FinancialStatsOf(a, period).totalRevenue + FinancialStatsOf(b, period).totalRevenue
    ensures FinancialStatsOf(a + b, period).pendingPayments
         == FinancialStatsOf(a, period).pendingPayments + FinancialStatsOf(b, period).pendingPayments
  {
    CollectConcat(a, b, PaymentsIn);
    StatusTotalConcat(StoredPayments(a), StoredPayments(b), Paid);
    StatusTotalConcat(StoredPayments(a), StoredPayments(b), Pending);
  }

  /**
   * With a single participant's payments in storage, the administrator's
   * pending sum is that participant's amount due (`calculateTotalAmount`).
   */
  lemma PendingAgreesWithParticipant(userId: string, ps: seq<Payment>, period: Period)
    ensures FinancialStatsOf([Entry(PaymentsKey(userId), PaymentsDoc(ps))], period).pendingPayments == PendingTotal(ps)
    ensures FinancialStatsOf([Entry(PaymentsKey(userId), PaymentsDoc(ps))], period).totalRevenue == StatusTotal(ps, Paid)
  {
    StartsWithConcat(PaymentsPrefix, userId);
    var es := [Entry(PaymentsKey(userId), PaymentsDoc(ps))];
    assert es[..0] == [];
    assert PaymentsIn(es[0]) == ps;
    assert Collect(es, PaymentsIn) == Collect(es[..0], PaymentsIn) + PaymentsIn(es[0]);
    assert StoredPayments(es) == ps;
    assert FinancialStatsOf(es, period).pendingPayments == StatusTotal(ps, Pending);
  }

  /** The financial figures are non-negative and bounded by the stored amounts, when those are non-negative. */
  lemma FinancialStatsBounds(es: seq<Entry>, period: Period)
    requires forall p :: p in StoredPayments(es) ==> p.amount >= 0
    ensures 0 <= FinancialStatsOf(es, period).totalRevenue
    ensures 0 <= FinancialStatsOf(es, period).pendingPayments
    ensures FinancialStatsOf(es, period).totalRevenue + FinancialStatsOf(es, period).pendingPayments
         <= SumAmounts(StoredPayments(es))
  {
    PaidPlusPendingBounded(StoredPayments(es));
  }

  predicate WasPresent(a: Attendance) { a.attended }
  predicate WasAbsent(a: Attendance) { !a.attended }

  /** `total > 0 ? (attended / total) * 100 : 0` */
  function Rate(attended: nat, total: nat): real
  {
    if total > 0 then (attended as real / total as real) * 100.0 else 0.0
  }

  /** The statistics `loadAttendanceStats` computes from the journal. */
  function AttendanceStatsOf(records: seq<Attendance>): AttendanceStats
  {
    var total := |records|;
    var attended := |Filter(records, WasPresent)|;
    AttendanceStats(total, attended, total - attended, Rate(attended, total), map[], map[])
  }

  lemma {:induction false} PresentAbsentSplit(records: seq<Attendance>)
    ensures |Filter(records, WasPresent)| + |Filter(records, WasAbsent)| == |records|
  {
    if records != [] { PresentAbsentSplit(records[1..]); }
  }

  /** The rate is a percentage, 0 for no records, and equals attended / total * 100. */
  lemma RateIsPercentage(attended: nat, total: nat)
    requires attended <= total
    ensures 0.0 <= Rate(attended, total) <= 100.0
    ensures total == 0 || attended == 0 ==> Rate(attended, total) == 0.0
    ensures 0 < total == attended ==> Rate(attended, total) == 100.0
    ensures total > 0 ==> Rate(attended, total) * (total as real) == (attended as real) * 100.0
  {
    if total > 0 {
      var q := attended as real / total as real;
      assert q * (total as real) == attended as real;
      assert 0.0 <= q <= 1.0;
    }
  }

  /** `missed` counts the records marked absent, and attended and missed add up to the total. */
  lemma AttendanceCounts(records: seq<Attendance>)
    ensures AttendanceStatsOf(records).totalBookings == |records|
    ensures AttendanceStatsOf(records).attended <= |records|
    ensures AttendanceStatsOf(records).missed == |Filter(records, WasAbsent)|
    ensures AttendanceStatsOf(records).attended + AttendanceStatsOf(records).missed == |records|
  {
    PresentAbsentSplit(records);
  }

  /**
   * The rate is a percentage: 0 for an empty journal or when nobody came,
   * 100 when every record is marked present.
   */
  lemma AttendanceRateFacts(records: seq<Attendance>)
    ensures 0.0 <= AttendanceStatsOf(records).attendanceRate <= 100.0
    ensures (forall a :: a in records ==> !a.attended) ==> AttendanceStatsOf(records).attendanceRate == 0.0
    ensures records != [] && (forall a :: a in records ==> a.attended) ==>
      AttendanceStatsOf(records).attendanceRate == 100.0
  {
    AttendanceCounts(records);
    if forall a :: a in records ==> !a.attended {
      FilterNonePass(records, WasPresent);
    }
    if forall a :: a in records ==> a.attended {
      FilterAllPass(records, WasPresent);
    }
    RateIsPercentage(|Filter(records, WasPresent)|, |records|);
  }

  /** Seven of ten classes attended is a rate of 70%. */
  lemma AttendanceRateExample(records: seq<Attendance>)
    requires |records| == 10 && |Filter(records, WasPresent)| == 7
    ensures AttendanceStatsOf(records).attendanceRate == 70.0
    ensures AttendanceStatsOf(records).missed == 3
  {
  }

  /** `getChildrenByUserId` */
  function ChildrenOfUser(cs: seq<Child>, userId: string): (r: seq<Child>)
    ensures forall c :: c in r <==> c in cs && c.userId == userId
  {
    forall c | c in cs && c.userId == userId ensures c in Filter(cs, (x: Child) => x.userId == userId) {
      FilterKeeps(cs, (x: Child) => x.userId == userId, c);
    }
    Filter(cs, (x: Child) => x.userId == userId)
  }

  /** The scan up to entry `i + 1` is the scan up to `i` plus what entry `i` holds. */
  lemma StoredPaymentsStep(es: seq<Entry>, i: nat)
    requires i < |es|
    ensures StoredPayments(es[..i + 1]) == StoredPayments(es[..i]) + PaymentsIn(es[i])
  {
    assert es[..i + 1][..i] == es[..i];
  }

  /** `payments.forEach`: paid amounts go to the revenue, pending amounts to the outstanding sum. */
  method AddPayments(ps: seq<Payment>, revenue0: int, pending0: int) returns (revenue: int, pending: int)
    ensures revenue == revenue0 + StatusTotal(ps, Paid)
    ensures pending == pending0 + StatusTotal(ps, Pending)
  {
    revenue, pending := revenue0, pending0;
    var j := 0;
    while j < |ps|
      invariant 0 <= j <= |ps|
      invariant revenue == revenue0 + StatusTotal(ps[..j], Paid)
      invariant pending == pending0 + StatusTotal(ps[..j], Pending)
    {
      var p := ps[j];
      if p.status == Paid {
        revenue := revenue + p.amount;
      } else if p.status == Pending {
        pending := pending + p.amount;
      }
      StatusTotalSnoc(ps[..j], p, Paid);
      StatusTotalSnoc(ps[..j], p, Pending);
      assert ps[..j] + [p] == ps[..j + 1];
      j := j + 1;
    }
    assert ps[..j] == ps;
  }

  /** The scan of `loadFinancialStats` over every `payments_` key, in key order. */
  method PaymentTotals(es: seq<Entry>) returns (revenue: int, pending: int)
    ensures revenue == StatusTotal(StoredPayments(es), Paid)
    ensures pending == StatusTotal(StoredPayments(es), Pending)
  {
    revenue, pending := 0, 0;
    var i := 0;
    while i < |es|
      invariant 0 <= i <= |es|
      invariant revenue == StatusTotal(StoredPayments(es[..i]), Paid)
      invariant pending == StatusTotal(StoredPayments(es[..i]), Pending)
    {
      var e := es[i];
      StoredPaymentsStep(es, i);
      StatusTotalConcat(StoredPayments(es[..i]), PaymentsIn(e), Paid);
      StatusTotalConcat(StoredPayments(es[..i]), PaymentsIn(e), Pending);
      if StartsWith(e.key, PaymentsPrefix) {
        match e.value {
          case PaymentsDoc(ps) =>
            revenue, pending := AddPayments(ps, revenue, pending);
          case _ =>
        }
      }
      i := i + 1;
    }
    assert es[..i] == es;
  }

  // ---- the store ----

  class AdminStore {
    var users: seq<User>
    var allChildren: seq<Child>
    var attendances: seq<Attendance>
    var financialStats: Option<FinancialStats>
    var attendanceStats: Option<AttendanceStats>
    var error: Option<string>
    const auth: AuthStore
    const storage: LocalStorage

    /** The stores are Pinia singletons: this one and the auth store see one `localStorage`. */
    predicate Shared()
    {
      auth.storage == storage
    }

    constructor(auth: AuthStore, storage: LocalStorage)
      requires auth.storage == storage
      ensures this.auth == auth && this.storage == storage
      ensures Shared()
      ensures users == [] && allChildren == [] && attendances == []
      ensures financialStats.None? && attendanceStats.None? && error.None?
    {
      this.auth, this.storage := auth, storage;
      users, allChildren, attendances := [], [], [];
      financialStats, attendanceStats, error := None, None, None;
    }

    /** `loadUsers`: every user record found under an `auth_user…` key, in key order. */
    method LoadUsers() returns (r: Outcome<()>)
      modifies this
      ensures !auth.IsAdmin() ==> r == Rejected(AccessDenied) && users == old(users) && error == old(error)
      ensures auth.IsAdmin() ==> r == Done(()) && users == StoredUsers(storage.entries) && error.None?
      ensures allChildren == old(allChildren) && attendances == old(attendances)
      ensures financialStats == old(financialStats) && attendanceStats == old(attendanceStats)
    {
      if !auth.IsAdmin() {
        return Rejected(AccessDenied);
      }
      error := None;
      var es := storage.entries;
      var found: seq<User> := [];
      var i := 0;
      while i < |es|
        invariant 0 <= i <= |es|
        invariant found == StoredUsers(es[..i])
      {
        var e := es[i];
        if StartsWith(e.key, UserPrefix) {
          match e.value
          case UserDoc(u) =>
            if u.id != "" && u.email != "" {
              found := found + [u];
            }
          case _ =>
        }
        assert es[..i + 1][..i] == es[..i];
        i := i + 1;
      }
      assert es[..i] == es;
      users := found;
      r := Done(());
    }

    /** `loadAllChildren`: the lists under all `children_` keys, concatenated in key order. */
    method LoadAllChildren() returns (r: Outcome<()>)
      modifies this
      ensures !auth.IsAdmin() ==> r == Rejected(AccessDenied) && allChildren == old(allChildren) && error == old(error)
      ensures auth.IsAdmin() ==> r == Done(()) && allChildren == StoredChildren(storage.entries) && error.None?
      ensures users == old(users) && attendances == old(attendances)
      ensures financialStats == old(financialStats) && attendanceStats == old(attendanceStats)
    {
      if !auth.IsAdmin() {
        return Rejected(AccessDenied);
      }
      error := None;
      var es := storage.entries;
      var found: seq<Child> := [];
      var i := 0;
      while i < |es|
        invariant 0 <= i <= |es|
        invariant found == StoredChildren(es[..i])
      {
        var e := es[i];
        if StartsWith(e.key, ChildrenPrefix) {
          match e.value
          case ChildrenDoc(cs) => found := found + cs;
          case _ =>
        }
        assert es[..i + 1][..i] == es[..i];
        i := i + 1;
      }
      assert es[..i] == es;
      allChildren := found;
      r := Done(());
    }

    /** `loadAttendances`: the journal stored under `attendances`; a value that does not parse sets the error. */
    method LoadAttendances() returns (r: Outcome<()>)
      modifies this
      ensures !auth.IsAdmin() ==> r == Rejected(AccessDenied) && attendances == old(attendances) && error == old(error)
      ensures auth.IsAdmin() ==>
        r == Done(()) && (match ReadAttendances(storage.GetItem(AttendancesKey))
        case Parsed(l) => attendances == l && error.None?
        case Unparseable => attendances == old(attendances) && error.Some?)
      ensures users == old(users) && allChildren == old(allChildren)
      ensures financialStats == old(financialStats) && attendanceStats == old(attendanceStats)
    {
      if !auth.IsAdmin() {
        return Rejected(AccessDenied);
      }
      error := None;
      match ReadAttendances(storage.GetItem(AttendancesKey)) {
        case Parsed(l) => attendances := l;
        case Unparseable => error := Some("failed to load attendances");
      }
      r := Done(());
    }

    /**
     * `markAttendance`: always appends a new record (an earlier mark of the
     * same booking is kept) and stores the whole journal.
     */
    method MarkAttendance(bookingId: string, childId: string, scheduleClassId: string, date: string,
                          attended: bool, notes: Option<string>, now: nat, iso: string)
      returns (r: Outcome<Attendance>)
      requires storage.Valid()
      modifies this, storage
      ensures storage.Valid()
      ensures !old(auth.IsAdmin()) ==>
        r == Rejected(AccessDenied) && attendances == old(attendances)
        && storage.entries == old(storage.entries) && error == old(error)
      ensures old(auth.IsAdmin()) ==>
        && r.Done?
        && r.value.id == "attendance_" + Decimal(now) && r.value.createdAt == iso && r.value.updatedAt == iso
        && r.value.bookingId == bookingId && r.value.childId == childId
        && r.value.scheduleClassId == scheduleClassId && r.value.date == date
        && r.value.attended == attended && r.value.notes == notes
        && r.value.markedBy == Some(old(auth.user).value.id)
        && attendances == old(attendances) + [r.value]
        && storage.entries == Put(old(storage.entries), AttendancesKey, AttendancesDoc(attendances))
        && error.None?
      ensures users == old(users) && allChildren == old(allChildren)
      ensures financialStats == old(financialStats) && attendanceStats == old(attendanceStats)
    {
      if !auth.IsAdmin() {
        return Rejected(AccessDenied);
      }
      error := None;
      var markedBy := if auth.user.Some? then auth.user.value.id else "";
      var record := Attendance("attendance_" + Decimal(now), bookingId, childId, scheduleClassId, date,
                               attended, notes, Some(markedBy), iso, iso);
      attendances := attendances + [record];
      storage.SetItem(AttendancesKey, AttendancesDoc(attendances));
      r := Done(record);
    }

    /**
     * `loadFinancialStats`: paid amounts are revenue, pending amounts are
     * outstanding, failed and refunded payments count for neither;
     * `monthAgoIso` and `nowIso` are the two clock readings.
     */
    method LoadFinancialStats(startDate: Option<string>, endDate: Option<string>, monthAgoIso: string, nowIso: string)
      returns (r: Outcome<()>)
      modifies this
      ensures !auth.IsAdmin() ==>
        r == Rejected(AccessDenied) && financialStats == old(financialStats) && error == old(error)
      ensures auth.IsAdmin() ==>
        && r == Done(())
        && financialStats == Some(FinancialStatsOf(storage.entries, StatsPeriod(startDate, endDate, monthAgoIso, nowIso)))
        && error.None?
      ensures users == old(users) && allChildren == old(allChildren) && attendances == old(attendances)
      ensures attendanceStats == old(attendanceStats)
    {
      if !auth.IsAdmin() {
        return Rejected(AccessDenied);
      }
      error := None;
      var period := StatsPeriod(startDate, endDate, monthAgoIso, nowIso);
      var revenue, pending := PaymentTotals(storage.entries);
      financialStats := Some(FinancialStats(revenue, pending, map[], map[], map[], period));
      r := Done(());
    }

    /** `loadAttendanceStats`: computed from the journal currently loaded. */
    method LoadAttendanceStats() returns (r: Outcome<()>)
      modifies this
      ensures !auth.IsAdmin() ==>
        r == Rejected(AccessDenied) && attendanceStats == old(attendanceStats) && error == old(error)
      ensures auth.IsAdmin() ==>
        r == Done(()) && attendanceStats == Some(AttendanceStatsOf(attendances)) && error.None?
      ensures users == old(users) && allChildren == old(allChildren) && attendances == old(attendances)
      ensures financialStats == old(financialStats)
    {
      if !auth.IsAdmin() {
        return Rejected(AccessDenied);
      }
      error := None;
      attendanceStats := Some(AttendanceStatsOf(attendances));
      r := Done(());
    }

    /** `getChildrenByUserId`: a plain getter, not guarded. */
    function GetChildrenByUserId(userId: string): (r: seq<Child>)
      reads this
      ensures forall c :: c in r <==> c in allChildren && c.userId == userId
      ensures |r| <= |allChildren|
    {
      ChildrenOfUser(allChildren, userId)
    }
  }
}
