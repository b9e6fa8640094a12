// The domain model of the studio application: the enumerations and the
// record shapes shared by every store (src/types/index.ts).

module Types {
  import opened Util

  /** `UserRole`: 'user' (a parent) or 'admin'. */
  datatype UserRole = Member | Admin

  /** `ClassType`: how a class is paid for. */
  datatype ClassType = Single | SubscriptionWeekly | SubscriptionBiweekly | Individual

  /** `ClassStatus`: the life cycle of a booking. */
  datatype ClassStatus = Planned | Attended | Missed | Cancelled

  /** `PaymentStatus` */
  datatype PaymentStatus = Pending | Paid | Failed | Refunded

  /** `PaymentMethod` */
  datatype PaymentMethod = Blik | Przelewy24 | OtherMethod

  /** `WeekDay` */
  datatype WeekDay = Monday | Tuesday | Wednesday | Thursday | Friday | Saturday | Sunday

  /** The seven days in the order in which the schedule view lists its buckets. */
  const AllWeekDays: seq<WeekDay> := [Monday, Tuesday, Wednesday, Thursday, Friday, Saturday, Sunday]

  /** The wire value of each enumeration member, as stored in JSON. */
  function RoleName(r: UserRole): string
  {
    match r
    case Member => "user"
    case Admin => "admin"
  }

  function ClassTypeName(t: ClassType): string
  {
    match t
    case Single => "single"
    case SubscriptionWeekly => "subscription_weekly"
    case SubscriptionBiweekly => "subscription_biweekly"
    case Individual => "individual"
  }

  function ClassStatusName(s: ClassStatus): string
  {
    match s
    case Planned => "planned"
    case Attended => "attended"
    case Missed => "missed"
    case Cancelled => "cancelled"
  }

  function PaymentStatusName(s: PaymentStatus): string
  {
    match s
    case Pending => "pending"
    case Paid => "paid"
    case Failed => "failed"
    case Refunded => "refunded"
  }

  function WeekDayName(d: WeekDay): string
  {
    match d
    case Monday => "monday"
    case Tuesday => "tuesday"
    case Wednesday => "wednesday"
    case Thursday => "thursday"
    case Friday => "friday"
    case Saturday => "saturday"
    case Sunday => "sunday"
  }

  /** A parent or an administrator. */
  datatype User = User(
    id: string,
    email: string,
    phone: string,
    role: UserRole,
    createdAt: string,
    updatedAt: string)

  /**
   * A participant (child) as the participant store builds it: the declared
   * interface names a `birthYear`, but `addChild` stores `birthDate` and
   * `phone`, and this record follows what is built and stored.
   */
  datatype Child = Child(
    id: string,
    userId: string,
    firstName: string,
    lastName: string,
    birthDate: string,
    phone: string,
    createdAt: string,
    updatedAt: string)

  datatype Group = Group(
    id: string,
    name: string,
    description: Option<string>,
    maxParticipants: Option<int>,
    createdAt: string,
    updatedAt: string)

  /** A weekly slot; `startTime` and `endTime` are "HH:mm" strings. */
  datatype ScheduleClass = ScheduleClass(
    id: string,
    groupId: string,
    dayOfWeek: WeekDay,
    startTime: string,
    endTime: string,
    trainerId: Option<string>,
    trainerName: Option<string>,
    isActive: bool,
    createdAt: string,
    updatedAt: string)

  datatype ClassBooking = ClassBooking(
    id: string,
    childId: string,
    scheduleClassId: string,
    classType: ClassType,
    status: ClassStatus,
    date: string,
    createdAt: string,
    updatedAt: string)

  datatype Attendance = Attendance(
    id: string,
    bookingId: string,
    childId: string,
    scheduleClassId: string,
    date: string,
    attended: bool,
    notes: Option<string>,
    markedBy: Option<string>,
    createdAt: string,
    updatedAt: string)

  /** A payment; the amount (in PLN) is a whole number in this model. */
  datatype Payment = Payment(
    id: string,
    userId: string,
    amount: int,
    currency: string,
    status: PaymentStatus,
    paymentMethod: Option<PaymentMethod>,
    description: Option<string>,
    bookings: Option<seq<ClassBooking>>,
    transactionId: Option<string>,
    paidAt: Option<string>,
    createdAt: string,
    updatedAt: string)

  datatype Pricing = Pricing(
    single: int,
    subscriptionWeekly: int,
    subscriptionBiweekly: int,
    individualMin: int)

  datatype RegisterData = RegisterData(email: string, phone: string, password: Option<string>)

  datatype LoginData = LoginData(email: string, password: Option<string>)

  datatype AddChildData = AddChildData(firstName: string, lastName: string, birthDate: string, phone: string)

  datatype BookClassData = BookClassData(childId: string, scheduleClassId: string, classType: ClassType, date: string)

  datatype CreateScheduleData = CreateScheduleData(
    groupId: string,
    dayOfWeek: WeekDay,
    startTime: string,
    endTime: string,
    trainerId: Option<string>,
    trainerName: Option<string>)

  datatype Period = Period(start: string, end: string)

  datatype FinancialStats = FinancialStats(
    totalRevenue: int,
    pendingPayments: int,
    revenueByClass: map<string, int>,
    revenueByGroup: map<string, int>,
    revenueByUser: map<string, int>,
    period: Period)

  datatype RateEntry = RateEntry(total: nat, attended: nat, rate: real)

  datatype AttendanceStats = AttendanceStats(
    totalBookings: nat,
    attended: nat,
    missed: int,
    attendanceRate: real,
    byGroup: map<string, RateEntry>,
    byChild: map<string, RateEntry>)

  /** Why a store action rejected its caller (the thrown `Error`). */
  datatype Rejection = NotAuthenticated | AccessDenied

  /** The result of an action that either returns a value or throws. */
  datatype Outcome<+T> = Done(value: T) | Rejected(reason: Rejection)

  lemma WeekDaysAreSevenDistinct()
    ensures |AllWeekDays| == 7
    ensures forall d: WeekDay :: d in AllWeekDays
    ensures forall i, j :: 0 <= i < j < |AllWeekDays| ==> AllWeekDays[i] != AllWeekDays[j]
    ensures forall d, e: WeekDay :: d != e ==> WeekDayName(d) != WeekDayName(e)
  {
    forall d: WeekDay ensures d in AllWeekDays {
      match d
      case Monday => assert AllWeekDays[0] == d;
      case Tuesday => assert AllWeekDays[1] == d;
      case Wednesday => assert AllWeekDays[2] == d;
      case Thursday => assert AllWeekDays[3] == d;
      case Friday => assert AllWeekDays[4] == d;
      case Saturday => assert AllWeekDays[5] == d;
      case Sunday => assert AllWeekDays[6] == d;
    }
  }

  lemma EnumerationsAreDistinct()
    ensures forall r, s: UserRole :: r != s ==> RoleName(r) != RoleName(s)
    ensures forall t, u: ClassType :: t != u ==> ClassTypeName(t) != ClassTypeName(u)
    ensures forall s, t: ClassStatus :: s != t ==> ClassStatusName(s) != ClassStatusName(t)
    ensures forall s, t: PaymentStatus :: s != t ==> PaymentStatusName(s) != PaymentStatusName(t)
  {
  }

  // ---- "HH:mm" times ----

  predicate IsDigit(c: char) { '0' <= c <= '9' }

  function DigitValue(c: char): int { c as int - '0' as int }

  /** A zero-padded "HH:mm" time: two digits, a colon, two digits, minutes below 60. */
  predicate IsTime(s: string)
  {
    |s| == 5 && IsDigit(s[0]) && IsDigit(s[1]) && s[2] == ':' && IsDigit(s[3]) && IsDigit(s[4])
    && '0' <= s[3] <= '5'
  }

  /** Minutes since midnight of an "HH:mm" time. */
  function MinutesOf(s: string): int
    requires IsTime(s)
  {
    600 * DigitValue(s[0]) + 60 * DigitValue(s[1]) + 10 * DigitValue(s[3]) + DigitValue(s[4])
  }

  /** One step of the string order: compare the first characters, then the rest. */
  lemma LexLeStep(a: string, b: string)
    requires a != [] && b != []
    ensures LexLe(a, b) == if a[0] != b[0] then a[0] < b[0] else LexLe(a[1..], b[1..])
  {
  }

  /** On zero-padded "HH:mm" strings, string order is time order. */
  lemma TimeOrderIsStringOrder(a: string, b: string)
    requires IsTime(a) && IsTime(b)
    ensures LexLe(a, b) <==> MinutesOf(a) <= MinutesOf(b)
  {
    assert a[1..][1..] == a[2..] && a[2..][1..] == a[3..] && a[3..][1..] == a[4..] && a[4..][1..] == [];
    assert b[1..][1..] == b[2..] && b[2..][1..] == b[3..] && b[3..][1..] == b[4..] && b[4..][1..] == [];
    LexLeStep(a, b);
    LexLeStep(a[1..], b[1..]);
    LexLeStep(a[2..], b[2..]);
    LexLeStep(a[3..], b[3..]);
    LexLeStep(a[4..], b[4..]);
  }

}
