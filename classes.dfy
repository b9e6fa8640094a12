// The catalog store (src/stores/classes.ts): the weekly schedule and the
// groups, the per-day view of the schedule, first-run seeding, bookings and
// the administrator's schedule edits.

module Catalog {
  import opened Util
  import opened Types
  import opened Storage
  import opened Auth
  import opened Participant

  const ScheduleKey: string := "schedule"
  const GroupsKey: string := "groups"

  // ---- the per-day view (classes.ts:22-47) ----

  predicate IsActiveClass(c: ScheduleClass) { c.isActive }

  function OnDay(d: WeekDay): ScheduleClass -> bool
  {
    (c: ScheduleClass) => c.dayOfWeek == d
  }

  /** `schedule.filter(c => c.isActive)` */
  function ActiveClasses(s: seq<ScheduleClass>): seq<ScheduleClass>
  {
    Filter(s, IsActiveClass)
  }

  /** What the loop pushes into day `d`'s bucket, before the bucket is sorted. */
  function DayClasses(s: seq<ScheduleClass>, d: WeekDay): seq<ScheduleClass>
  {
    Filter(ActiveClasses(s), OnDay(d))
  }

  /** Non-decreasing by `startTime` under string comparison. */
  predicate SortedByStart(s: seq<ScheduleClass>)
  {
    forall i, j :: 0 <= i < j < |s| ==> LexLe(s[i].startTime, s[j].startTime)
  }

  /** Place `c` after every element that does not start later (so equal start times keep their order). */
  function InsertByStart(c: ScheduleClass, s: seq<ScheduleClass>): seq<ScheduleClass>
  {
    if s == [] then [c]
    else if LexLe(s[0].startTime, c.startTime) then [s[0]] + InsertByStart(c, s[1..])
    else [c] + s
  }

  lemma {:induction false} InsertByStartCorrect(c: ScheduleClass, s: seq<ScheduleClass>)
    requires SortedByStart(s)
    ensures SortedByStart(InsertByStart(c, s))
    ensures multiset(InsertByStart(c, s)) == multiset(s) + multiset{c}
  {
    if s == [] {
    } else if LexLe(s[0].startTime, c.startTime) {
      var rest := InsertByStart(c, s[1..]);
      InsertByStartCorrect(c, s[1..]);
      assert s == [s[0]] + s[1..];
      var r := [s[0]] + rest;
      forall j | 0 < j < |r| ensures LexLe(s[0].startTime, r[j].startTime) {
        assert r[j] in multiset(rest);
        if r[j] != c {
          assert r[j] in s[1..];
          var k :| 0 <= k < |s[1..]| && s[1..][k] == r[j];
          assert s[k + 1] == r[j];
        }
      }
    } else {
      LexLeTotal(s[0].startTime, c.startTime);
      var r := [c] + s;
      forall i, j | 0 <= i < j < |r| ensures LexLe(r[i].startTime, r[j].startTime) {
        if i == 0 {
          if j > 1 { LexLeTransitive(c.startTime, s[0].startTime, s[j - 1].startTime); }
        } else {
          assert r[i] == s[i - 1] && r[j] == s[j - 1];
        }
      }
    }
  }

  /** Sorts one bucket by start time (the source's `sort` with `localeCompare`). */
  method SortByStart(s: seq<ScheduleClass>) returns (r: seq<ScheduleClass>)
    ensures SortedByStart(r)
    ensures multiset(r) == multiset(s)
  {
    r := [];
    var i := 0;
    while i < |s|
      invariant 0 <= i <= |s|
      invariant SortedByStart(r)
      invariant multiset(r) == multiset(s[..i])
    {
      InsertByStartCorrect(s[i], r);
      r := InsertByStart(s[i], r);
      assert s[..i + 1] == s[..i] + [s[i]];
      i := i + 1;
    }
    assert s[..i] == s;
  }

  /** The buckets of the given days taken together. */
  function BucketsOver(s: seq<ScheduleClass>, days: seq<WeekDay>): multiset<ScheduleClass>
  {
    if days == [] then multiset{} else multiset(DayClasses(s, days[0])) + BucketsOver(s, days[1..])
  }

  /** The seven buckets taken together. */
  function AllBuckets(s: seq<ScheduleClass>): multiset<ScheduleClass>
  {
    BucketsOver(s, AllWeekDays)
  }

  /** A class in front of the schedule goes to its own day's bucket, if active, and to no other. */
  lemma DayClassesCons(c: ScheduleClass, t: seq<ScheduleClass>, d: WeekDay)
    ensures DayClasses([c] + t, d) == (if c.isActive && c.dayOfWeek == d then [c] else []) + DayClasses(t, d)
  {
    var head := if c.isActive then [c] else [];
    FilterConcat([c], t, IsActiveClass);
    assert Filter([c], IsActiveClass) == head;
    FilterConcat(head, ActiveClasses(t), OnDay(d));
    assert Filter(head, OnDay(d)) == if c.isActive && c.dayOfWeek == d then [c] else [];
  }

  /** Over distinct days, a class in front of the schedule is counted once if its day is among them. */
  lemma {:induction false} BucketsOverCons(c: ScheduleClass, t: seq<ScheduleClass>, days: seq<WeekDay>)
    requires forall i, j :: 0 <= i < j < |days| ==> days[i] != days[j]
    ensures BucketsOver([c] + t, days)
         == (if c.isActive && c.dayOfWeek in days then multiset{c} else multiset{}) + BucketsOver(t, days)
  {
    if days != [] {
      DayClassesCons(c, t, days[0]);
      BucketsOverCons(c, t, days[1..]);
      assert c.dayOfWeek in days <==> c.dayOfWeek == days[0] || c.dayOfWeek in days[1..];
      if c.dayOfWeek == days[0] {
        assert c.dayOfWeek !in days[1..];
      }
    }
  }

  lemma {:induction false} BucketsOverEmpty(days: seq<WeekDay>)
    ensures BucketsOver([], days) == multiset{}
  {
    if days != [] { BucketsOverEmpty(days[1..]); }
  }

  /** Every active class lands in exactly its own day's bucket: the buckets partition the active classes. */
  lemma {:induction false} BucketsPartitionActive(s: seq<ScheduleClass>)
    ensures AllBuckets(s) == multiset(ActiveClasses(s))
  {
    if s == [] {
      BucketsOverEmpty(AllWeekDays);
    } else {
      var c, t := s[0], s[1..];
      assert s == [c] + t;
      BucketsPartitionActive(t);
      FilterConcat([c], t, IsActiveClass);
      assert Filter([c], IsActiveClass) == if c.isActive then [c] else [];
      WeekDaysAreSevenDistinct();
      BucketsOverCons(c, t, AllWeekDays);
    }
  }

  /** A bucket member is an active class of that day. */
  lemma DayClassesMembers(s: seq<ScheduleClass>, d: WeekDay, c: ScheduleClass)
    ensures c in DayClasses(s, d) <==> c in s && c.isActive && c.dayOfWeek == d
  {
    if c in s && c.isActive && c.dayOfWeek == d {
      FilterKeeps(s, IsActiveClass, c);
      FilterKeeps(ActiveClasses(s), OnDay(d), c);
    }
  }

  /** With "HH:mm" start times, a bucket sorted by string order is sorted by time of day. */
  lemma SortedByStartIsTimeOrder(b: seq<ScheduleClass>)
    requires SortedByStart(b)
    requires forall c :: c in b ==> IsTime(c.startTime)
    ensures forall i, j :: 0 <= i < j < |b| ==> MinutesOf(b[i].startTime) <= MinutesOf(b[j].startTime)
  {
    forall i, j | 0 <= i < j < |b| ensures MinutesOf(b[i].startTime) <= MinutesOf(b[j].startTime) {
      TimeOrderIsStringOrder(b[i].startTime, b[j].startTime);
    }
  }

  // ---- seed data (classes.ts:236-337) ----

  function DefaultSchedule(iso: string): seq<ScheduleClass>
  {
    [ ScheduleClass("schedule_1", "group_1", Monday, "18:00", "19:30", None, Some("Alex"), true, iso, iso),
      ScheduleClass("schedule_2", "group_2", Monday, "19:45", "21:15", None, Some("Maya"), true, iso, iso),
      ScheduleClass("schedule_3", "group_1", Wednesday, "18:00", "19:30", None, Some("Jordan"), true, iso, iso),
      ScheduleClass("schedule_4", "group_3", Wednesday, "19:45", "22:00", None, Some("Kaito"), true, iso, iso),
      ScheduleClass("schedule_5", "group_1", Friday, "18:00", "19:30", None, Some("Alex"), true, iso, iso),
      ScheduleClass("schedule_6", "group_2", Friday, "19:45", "21:15", None, Some("Maya"), true, iso, iso) ]
  }

  function DefaultGroups(iso: string): seq<Group>
  {
    [ Group("group_1", "Foundations", Some("Базовые навыки брейкинга"), Some(15), iso, iso),
      Group("group_2", "Flow State", Some("Продвинутый уровень"), Some(12), iso, iso),
      Group("group_3", "Syndicate Elite", Some("Элитная группа"), Some(10), iso, iso) ]
  }

  /** The seed has six active classes with distinct ids. */
  lemma DefaultScheduleIds(iso: string)
    ensures |DefaultSchedule(iso)| == 6
    ensures forall c :: c in DefaultSchedule(iso) ==> c.isActive
    ensures forall i, j :: 0 <= i < j < 6 ==> DefaultSchedule(iso)[i].id != DefaultSchedule(iso)[j].id
  {
    var s := DefaultSchedule(iso);
    forall i, j | 0 <= i < j < 6 ensures s[i].id != s[j].id {
      assert s[i].id[9] != s[j].id[9];
    }
  }

  /** Every seeded class starts and ends at a well-formed time and ends after it starts. */
  lemma DefaultScheduleTimes(iso: string)
    ensures forall c :: c in DefaultSchedule(iso) ==>
      IsTime(c.startTime) && IsTime(c.endTime) && MinutesOf(c.startTime) < MinutesOf(c.endTime)
  {
    assert IsTime("18:00") && MinutesOf("18:00") == 1080;
    assert IsTime("19:30") && MinutesOf("19:30") == 1170;
    assert IsTime("19:45") && MinutesOf("19:45") == 1185;
    assert IsTime("21:15") && MinutesOf("21:15") == 1275;
    assert IsTime("22:00") && MinutesOf("22:00") == 1320;
  }

  /** The three seeded groups have distinct ids and every seeded class belongs to one of them. */
  lemma DefaultGroupsFacts(iso: string)
    ensures |DefaultGroups(iso)| == 3
    ensures forall i, j :: 0 <= i < j < 3 ==> DefaultGroups(iso)[i].id != DefaultGroups(iso)[j].id
    ensures forall c :: c in DefaultSchedule(iso) ==> exists g :: g in DefaultGroups(iso) && g.id == c.groupId
  {
    var s, gs := DefaultSchedule(iso), DefaultGroups(iso);
    forall i, j | 0 <= i < j < 3 ensures gs[i].id != gs[j].id {
      assert gs[i].id[6] != gs[j].id[6];
    }
    forall c | c in s ensures exists g :: g in gs && g.id == c.groupId {
      if c.groupId == "group_1" { assert gs[0] in gs; }
      else if c.groupId == "group_2" { assert gs[1] in gs; }
      else { assert gs[2] in gs; }
    }
  }

  /** The loop of `scheduleByDay`: seven empty buckets, then each class pushed onto its day's bucket. */
  method DayBuckets(active: seq<ScheduleClass>) returns (grouped: map<WeekDay, seq<ScheduleClass>>)
    ensures forall d: WeekDay :: d in grouped && grouped[d] == Filter(active, OnDay(d))
  {
    grouped := map[Monday := [], Tuesday := [], Wednesday := [], Thursday := [],
                   Friday := [], Saturday := [], Sunday := []];
    var i := 0;
    assert active[..0] == [];
    forall d: WeekDay ensures d in grouped && grouped[d] == [] {
      match d
      case Monday => case Tuesday => case Wednesday => case Thursday =>
      case Friday => case Saturday => case Sunday =>
    }
    while i < |active|
      invariant 0 <= i <= |active|
      invariant forall d: WeekDay :: d in grouped && grouped[d] == Filter(active[..i], OnDay(d))
    {
      var c := active[i];
      assert active[..i + 1] == active[..i] + [c];
      forall d: WeekDay
        ensures Filter(active[..i + 1], OnDay(d)) == Filter(active[..i], OnDay(d)) + (if c.dayOfWeek == d then [c] else [])
      {
        FilterSnoc(active[..i], c, OnDay(d));
      }
      grouped := grouped[c.dayOfWeek := grouped[c.dayOfWeek] + [c]];
      i := i + 1;
    }
    assert active[..i] == active;
  }

  /** The second half of `scheduleByDay`: each day's bucket sorted by start time. */
  method SortBuckets(buckets: map<WeekDay, seq<ScheduleClass>>) returns (grouped: map<WeekDay, seq<ScheduleClass>>)
    requires forall d: WeekDay :: d in buckets
    ensures forall d: WeekDay ::
      d in grouped && SortedByStart(grouped[d]) && multiset(grouped[d]) == multiset(buckets[d])
  {
    WeekDaysAreSevenDistinct();
    grouped := buckets;
    var k := 0;
    while k < |AllWeekDays|
      invariant 0 <= k <= |AllWeekDays|
      invariant forall d: WeekDay :: d in grouped && multiset(grouped[d]) == multiset(buckets[d])
      invariant forall j :: 0 <= j < k ==> SortedByStart(grouped[AllWeekDays[j]])
    {
      var d := AllWeekDays[k];
      var sorted := SortByStart(grouped[d]);
      grouped := grouped[d := sorted];
      k := k + 1;
    }
    forall d: WeekDay ensures SortedByStart(grouped[d]) {
      assert d in AllWeekDays;
      var j :| 0 <= j < |AllWeekDays| && AllWeekDays[j] == d;
    }
  }

  // ---- the store ----

  class ClassesStore {
    var schedule: seq<ScheduleClass>
    var groups: seq<Group>
    var error: Option<string>
    const auth: AuthStore
    const users: UserStore
    const storage: LocalStorage

    /** The stores are Pinia singletons: all of them see one session and one `localStorage`. */
    predicate Shared()
    {
      users.auth == auth && users.storage == storage && auth.storage == storage
    }

    constructor(auth: AuthStore, users: UserStore, storage: LocalStorage)
      requires users.auth == auth && users.storage == storage && auth.storage == storage
      ensures this.auth == auth && this.users == users && this.storage == storage
      ensures Shared()
      ensures schedule == [] && groups == [] && error.None?
    {
      this.auth, this.users, this.storage := auth, users, storage;
      schedule, groups, error := [], [], None;
    }

    /**
     * `scheduleByDay`: all seven days are keys; each bucket holds exactly the
     * active classes of its day, sorted by start time.
     */
    method ScheduleByDay() returns (grouped: map<WeekDay, seq<ScheduleClass>>)
      ensures forall d: WeekDay :: d in grouped
      ensures forall d: WeekDay :: d in grouped ==>
        SortedByStart(grouped[d]) && multiset(grouped[d]) == multiset(DayClasses(schedule, d))
      ensures forall d: WeekDay, c :: d in grouped && c in grouped[d] ==>
        c in schedule && c.isActive && c.dayOfWeek == d
    {
      var unsorted := DayBuckets(ActiveClasses(schedule));
      grouped := SortBuckets(unsorted);
      forall d: WeekDay, c | c in grouped[d] ensures c in schedule && c.isActive && c.dayOfWeek == d {
        assert c in multiset(DayClasses(schedule, d));
        DayClassesMembers(schedule, d, c);
      }
    }

    /** `loadSchedule`: an empty or missing list is replaced by the seed, which is stored. */
    method LoadSchedule(iso: string)
      requires storage.Valid()
      modifies this, storage
      ensures storage.Valid()
      ensures match ReadSchedule(old(storage.GetItem(ScheduleKey)))
        case Parsed(l) =>
          error.None? &&
          if l == [] then
            schedule == DefaultSchedule(iso)
            && storage.entries == Put(old(storage.entries), ScheduleKey, ScheduleDoc(DefaultSchedule(iso)))
          else
            schedule == l && storage.entries == old(storage.entries)
        case Unparseable =>
          error.Some? && schedule == old(schedule) && storage.entries == old(storage.entries)
      ensures groups == old(groups)
    {
      error := None;
      match ReadSchedule(storage.GetItem(ScheduleKey))
      case Parsed(l) =>
        if |l| == 0 {
          schedule := DefaultSchedule(iso);
          storage.SetItem(ScheduleKey, ScheduleDoc(schedule));
        } else {
          schedule := l;
        }
      case Unparseable =>
        error := Some("failed to load the schedule");
    }

    /** `loadGroups`: an empty or missing list is replaced by the three seed groups, which are stored. */
    method LoadGroups(iso: string)
      requires storage.Valid()
      modifies this, storage
      ensures storage.Valid()
      ensures match ReadGroups(old(storage.GetItem(GroupsKey)))
        case Parsed(l) =>
          error.None? &&
          if l == [] then
            groups == DefaultGroups(iso)
            && storage.entries == Put(old(storage.entries), GroupsKey, GroupsDoc(DefaultGroups(iso)))
          else
            groups == l && storage.entries == old(storage.entries)
        case Unparseable =>
          error.Some? && groups == old(groups) && storage.entries == old(storage.entries)
      ensures schedule == old(schedule)
    {
      error := None;
      match ReadGroups(storage.GetItem(GroupsKey))
      case Parsed(l) =>
        if |l| == 0 {
          groups := DefaultGroups(iso);
          storage.SetItem(GroupsKey, GroupsDoc(groups));
        } else {
          groups := l;
        }
      case Unparseable =>
        error := Some("failed to load the groups");
    }

    /** `bookClass`: without a user it throws; otherwise one planned booking is appended to the participant store and stored. */
    method BookClass(data: BookClassData, now: nat, iso: string) returns (r: Outcome<ClassBooking>)
      requires storage.Valid()
      modifies this, users, storage
      ensures storage.Valid()
      ensures old(auth.user).None? ==>
        r == Rejected(NotAuthenticated) && users.bookings == old(users.bookings)
        && storage.entries == old(storage.entries) && error == old(error)
      ensures old(auth.user).Some? ==>
        && r.Done? && r.value.status == Planned
        && r.value.id == "booking_" + Decimal(now) && r.value.createdAt == iso && r.value.updatedAt == iso
        && r.value.childId == data.childId && r.value.scheduleClassId == data.scheduleClassId
        && r.value.classType == data.classType && r.value.date == data.date
        && users.bookings == old(users.bookings) + [r.value]
        && storage.entries == Put(old(storage.entries), BookingsKey(old(auth.user).value.id), BookingsDoc(users.bookings))
        && error.None?
      ensures schedule == old(schedule) && groups == old(groups)
      ensures users.children == old(users.children) && users.payments == old(users.payments)
      ensures users.error == old(users.error)
    {
      if auth.user.None? {
        return Rejected(NotAuthenticated);
      }
      error := None;
      var booking := ClassBooking("booking_" + Decimal(now), data.childId, data.scheduleClassId,
                                  data.classType, Planned, data.date, iso, iso);
      users.bookings := users.bookings + [booking];
      storage.SetItem(BookingsKey(auth.user.value.id), BookingsDoc(users.bookings));
      r := Done(booking);
    }

    /** `createScheduleClass` (administrators only). */
    method CreateScheduleClass(data: CreateScheduleData, now: nat, iso: string) returns (r: Outcome<ScheduleClass>)
      requires storage.Valid()
      modifies this, storage
      ensures storage.Valid()
      ensures !old(auth.IsAdmin()) ==>
        r == Rejected(AccessDenied) && schedule == old(schedule)
        && storage.entries == old(storage.entries) && error == old(error)
      ensures old(auth.IsAdmin()) ==>
        && r.Done? && r.value.isActive
        && r.value.id == "schedule_" + Decimal(now) && r.value.createdAt == iso && r.value.updatedAt == iso
        && r.value.groupId == data.groupId && r.value.dayOfWeek == data.dayOfWeek
        && r.value.startTime == data.startTime && r.value.endTime == data.endTime
        && r.value.trainerId == data.trainerId && r.value.trainerName == data.trainerName
        && schedule == old(schedule) + [r.value]
        && storage.entries == Put(old(storage.entries), ScheduleKey, ScheduleDoc(schedule))
        && error.None?
      ensures groups == old(groups)
    {
      if !auth.IsAdmin() {
        return Rejected(AccessDenied);
      }
      error := None;
      var created := ScheduleClass("schedule_" + Decimal(now), data.groupId, data.dayOfWeek,
                                   data.startTime, data.endTime, data.trainerId, data.trainerName,
                                   true, iso, iso);
      schedule := schedule + [created];
      storage.SetItem(ScheduleKey, ScheduleDoc(schedule));
      r := Done(created);
    }

    /** `deleteScheduleClass` (administrators only). */
    method DeleteScheduleClass(classId: string) returns (r: Outcome<()>)
      requires storage.Valid()
      modifies this, storage
      ensures storage.Valid()
      ensures !old(auth.IsAdmin()) ==>
        r == Rejected(AccessDenied) && schedule == old(schedule)
        && storage.entries == old(storage.entries) && error == old(error)
      ensures old(auth.IsAdmin()) ==>
        && r == Done(())
        && schedule == ScheduleWithout(old(schedule), classId)
        && storage.entries == Put(old(storage.entries), ScheduleKey, ScheduleDoc(schedule))
        && error.None?
      ensures groups == old(groups)
    {
      if !auth.IsAdmin() {
        return Rejected(AccessDenied);
      }
      error := None;
      schedule := ScheduleWithout(schedule, classId);
      storage.SetItem(ScheduleKey, ScheduleDoc(schedule));
      r := Done(());
    }

    /** `getClassById`: the first class with that id, or nothing. */
    function GetClassById(classId: string): (r: Option<ScheduleClass>)
      reads this
      ensures r.None? <==> forall c :: c in schedule ==> c.id != classId
      ensures r.Some? ==> r.value.id == classId && r.value in schedule
      ensures r.Some? ==> exists i :: 0 <= i < |schedule| && schedule[i] == r.value
                            && forall j :: 0 <= j < i ==> schedule[j].id != classId
    {
      FindFirst(schedule, (c: ScheduleClass) => c.id == classId)
    }

    /** `getGroupById`: the first group with that id, or nothing. */
    function GetGroupById(groupId: string): (r: Option<Group>)
      reads this
      ensures r.None? <==> forall g :: g in groups ==> g.id != groupId
      ensures r.Some? ==> r.value.id == groupId && r.value in groups
      ensures r.Some? ==> exists i :: 0 <= i < |groups| && groups[i] == r.value
                            && forall j :: 0 <= j < i ==> groups[j].id != groupId
    {
      FindFirst(groups, (g: Group) => g.id == groupId)
    }
  }

  /** `schedule.filter(c => c.id !== classId)` */
  function ScheduleWithout(s: seq<ScheduleClass>, classId: string): seq<ScheduleClass>
  {
    Filter(s, (c: ScheduleClass) => c.id != classId)
  }

  /** Deleting leaves no class with that id, keeps every other class, and is idempotent. */
  lemma ScheduleWithoutFacts(s: seq<ScheduleClass>, classId: string)
    ensures forall c :: c in ScheduleWithout(s, classId) <==> c in s && c.id != classId
    ensures ScheduleWithout(ScheduleWithout(s, classId), classId) == ScheduleWithout(s, classId)
    ensures (forall c :: c in s ==> c.id != classId) ==> ScheduleWithout(s, classId) == s
  {
    var p := (c: ScheduleClass) => c.id != classId;
    forall c | c in s && c.id != classId ensures c in Filter(s, p) {
      FilterKeeps(s, p, c);
    }
    FilterIdempotent(s, p);
    if forall c :: c in s ==> c.id != classId {
      FilterAllPass(s, p);
    }
  }

  /** Creating a class and deleting it by its fresh id restores the schedule. */
  lemma CreateThenDelete(s: seq<ScheduleClass>, c: ScheduleClass)
    requires forall d :: d in s ==> d.id != c.id
    ensures ScheduleWithout(s + [c], c.id) == s
  {
    var p := (d: ScheduleClass) => d.id != c.id;
    FilterConcat(s, [c], p);
    FilterAllPass(s, p);
    assert Filter([c], p) == [];
  }
}
