// The browser's key-value storage, which every store reads and writes.
// Keys keep the order in which they were first written: that order decides
// the order in which the administration scans concatenate what they find.
// A stored value is either one of the JSON documents the stores write or a
// plain string that `JSON.parse` rejects (the raw token, or damaged data).

module Storage {
  import opened Util
  import opened Types

  datatype Value =
    | Text(raw: string)
    | UserDoc(user: User)
    | ScheduleDoc(classes: seq<ScheduleClass>)
    | GroupsDoc(groups: seq<Group>)
    | ChildrenDoc(children: seq<Child>)
    | BookingsDoc(bookings: seq<ClassBooking>)
    | PaymentsDoc(payments: seq<Payment>)
    | AttendancesDoc(attendances: seq<Attendance>)

  datatype Entry = Entry(key: string, value: Value)

  function Keys(es: seq<Entry>): (ks: seq<string>)
    ensures |ks| == |es|
    ensures forall i :: 0 <= i < |es| ==> ks[i] == es[i].key
  {
    if es == [] then [] else [es[0].key] + Keys(es[1..])
  }

  predicate DistinctKeys(es: seq<Entry>)
  {
    forall i, j :: 0 <= i < j < |es| ==> es[i].key != es[j].key
  }

  /** `getItem(key)`: the value of the first entry with that key, if any. */
  function Lookup(es: seq<Entry>, key: string): (r: Option<Value>)
    ensures r.None? <==> key !in Keys(es)
    ensures r.Some? ==> Entry(key, r.value) in es
  {
    if es == [] then None
    else if es[0].key == key then Some(es[0].value)
    else Lookup(es[1..], key)
  }

  /** Every entry with the key gets the new value, in place. */
  function Replace(es: seq<Entry>, key: string, v: Value): (r: seq<Entry>)
    ensures Keys(r) == Keys(es)
  {
    if es == [] then []
    else [if es[0].key == key then Entry(key, v) else es[0]] + Replace(es[1..], key, v)
  }

  /** `setItem(key, v)`: an existing key keeps its place, a new key goes last. */
  function Put(es: seq<Entry>, key: string, v: Value): seq<Entry>
  {
    if key in Keys(es) then Replace(es, key, v) else es + [Entry(key, v)]
  }

  /** `removeItem(key)` */
  function Remove(es: seq<Entry>, key: string): (r: seq<Entry>)
    ensures |r| <= |es|
  {
    if es == [] then []
    else (if es[0].key == key then [] else [es[0]]) + Remove(es[1..], key)
  }

  lemma {:induction false} LookupReplace(es: seq<Entry>, key: string, v: Value, other: string)
    ensures Lookup(Replace(es, key, v), other) ==
            if other == key && key in Keys(es) then Some(v) else Lookup(es, other)
  {
    if es != [] { LookupReplace(es[1..], key, v, other); }
  }

  lemma {:induction false} LookupAppend(es: seq<Entry>, e: Entry, other: string)
    ensures Lookup(es + [e], other) ==
            if other in Keys(es) then Lookup(es, other) else if other == e.key then Some(e.value) else None
  {
    if es != [] {
      assert (es + [e])[1..] == es[1..] + [e];
      LookupAppend(es[1..], e, other);
    }
  }

  /** After `setItem(key, v)`, `getItem(key)` is `v` and every other key reads as before. */
  lemma LookupPut(es: seq<Entry>, key: string, v: Value, other: string)
    ensures Lookup(Put(es, key, v), other) == if other == key then Some(v) else Lookup(es, other)
  {
    if key in Keys(es) { LookupReplace(es, key, v, other); } else { LookupAppend(es, Entry(key, v), other); }
  }

  /** `setItem` keeps the key order and adds a new key at the end. */
  lemma PutKeys(es: seq<Entry>, key: string, v: Value)
    ensures Keys(Put(es, key, v)) == if key in Keys(es) then Keys(es) else Keys(es) + [key]
  {
  }

  /** Writing the same value twice is writing it once. */
  lemma {:induction false} PutIdempotent(es: seq<Entry>, key: string, v: Value)
    ensures Put(Put(es, key, v), key, v) == Put(es, key, v)
  {
    if key in Keys(es) {
      ReplaceTwice(es, key, v);
    } else {
      assert Keys(es + [Entry(key, v)])[|es|] == key;
      ReplaceLast(es, key, v);
    }
  }

  lemma {:induction false} ReplaceTwice(es: seq<Entry>, key: string, v: Value)
    ensures Replace(Replace(es, key, v), key, v) == Replace(es, key, v)
  {
    if es != [] { ReplaceTwice(es[1..], key, v); }
  }

  lemma {:induction false} ReplaceLast(es: seq<Entry>, key: string, v: Value)
    requires key !in Keys(es)
    ensures Replace(es + [Entry(key, v)], key, v) == es + [Entry(key, v)]
  {
    if es == [] {
    } else {
      assert (es + [Entry(key, v)])[1..] == es[1..] + [Entry(key, v)];
      assert es[0].key == Keys(es)[0];
      ReplaceLast(es[1..], key, v);
    }
  }

  /** After `removeItem(key)` the key is gone and every other key reads as before. */
  lemma {:induction false} LookupRemove(es: seq<Entry>, key: string, other: string)
    ensures Lookup(Remove(es, key), other) == if other == key then None else Lookup(es, other)
  {
    if es != [] {
      LookupRemove(es[1..], key, other);
      var rest := Remove(es[1..], key);
      if es[0].key == key {
        assert Remove(es, key) == rest;
      } else {
        assert Remove(es, key) == [es[0]] + rest;
        assert ([es[0]] + rest)[0] == es[0] && ([es[0]] + rest)[1..] == rest;
      }
    }
  }

  /** Removing a key that is not there changes nothing. */
  lemma {:induction false} RemoveAbsent(es: seq<Entry>, key: string)
    requires key !in Keys(es)
    ensures Remove(es, key) == es
  {
    if es != [] {
      assert es[0].key == Keys(es)[0];
      assert Keys(es[1..]) == Keys(es)[1..];
      RemoveAbsent(es[1..], key);
      assert es == [es[0]] + es[1..];
    }
  }

  /** Removing a key keeps every other key absent that was absent. */
  lemma RemoveKeepsAbsent(es: seq<Entry>, key: string, other: string)
    requires other !in Keys(es)
    ensures other !in Keys(Remove(es, key))
  {
    LookupRemove(es, key, other);
  }

  /** `setItem` keeps keys unique. */
  lemma {:induction false} PutKeepsDistinct(es: seq<Entry>, key: string, v: Value)
    requires DistinctKeys(es)
    ensures DistinctKeys(Put(es, key, v))
  {
    PutKeys(es, key, v);
    var r := Put(es, key, v);
    assert Keys(r) == if key in Keys(es) then Keys(es) else Keys(es) + [key];
    forall i, j | 0 <= i < j < |r| ensures r[i].key != r[j].key {
      assert r[i].key == Keys(r)[i] && r[j].key == Keys(r)[j];
      if key !in Keys(es) && j == |es| {
        assert Keys(es)[i] == es[i].key;
      }
    }
  }

  /** An entry whose key the rest does not use can go in front of distinct entries. */
  lemma ConsKeepsDistinct(h: Entry, rest: seq<Entry>)
    requires DistinctKeys(rest) && h.key !in Keys(rest)
    ensures DistinctKeys([h] + rest)
  {
    var r := [h] + rest;
    forall i, j | 0 <= i < j < |r| ensures r[i].key != r[j].key {
      assert r[j] == rest[j - 1];
      if i == 0 {
        assert Keys(rest)[j - 1] == rest[j - 1].key;
      }
    }
  }

  /** With distinct keys, the first key does not occur again. */
  lemma HeadKeyNotInTail(es: seq<Entry>)
    requires es != [] && DistinctKeys(es)
    ensures es[0].key !in Keys(es[1..])
  {
    forall i | 0 <= i < |es[1..]| ensures Keys(es[1..])[i] != es[0].key {
      assert es[1..][i] == es[i + 1];
    }
  }

  /** `removeItem` keeps keys unique. */
  lemma {:induction false} RemoveKeepsDistinct(es: seq<Entry>, key: string)
    requires DistinctKeys(es)
    ensures DistinctKeys(Remove(es, key))
  {
    if es != [] {
      assert DistinctKeys(es[1..]);
      RemoveKeepsDistinct(es[1..], key);
      if es[0].key != key {
        HeadKeyNotInTail(es);
        RemoveKeepsAbsent(es[1..], key, es[0].key);
        ConsKeepsDistinct(es[0], Remove(es[1..], key));
      }
    }
  }

  /** With unique keys, every stored entry is what `getItem` returns for its key. */
  lemma {:induction false} LookupFindsEntries(es: seq<Entry>)
    requires DistinctKeys(es)
    ensures forall e :: e in es ==> Lookup(es, e.key) == Some(e.value)
  {
    if es != [] {
      LookupFindsEntries(es[1..]);
      forall e | e in es ensures Lookup(es, e.key) == Some(e.value) {
        if e != es[0] {
          var i :| 0 <= i < |es| && es[i] == e;
          assert i > 0 && es[1..][i - 1] == e;
        }
      }
    }
  }

  /** A list stored under `key` as the stores read it (`JSON.parse(getItem(key) || '[]')`). */
  datatype Parsed<+T> = Parsed(value: T) | Unparseable

  function ReadSchedule(v: Option<Value>): Parsed<seq<ScheduleClass>>
  {
    match v
    case None => Parsed([])
    case Some(Text(s)) => if s == "" then Parsed([]) else Unparseable
    case Some(ScheduleDoc(l)) => Parsed(l)
    case Some(_) => Unparseable
  }

  function ReadGroups(v: Option<Value>): Parsed<seq<Group>>
  {
    match v
    case None => Parsed([])
    case Some(Text(s)) => if s == "" then Parsed([]) else Unparseable
    case Some(GroupsDoc(l)) => Parsed(l)
    case Some(_) => Unparseable
  }

  function ReadChildren(v: Option<Value>): Parsed<seq<Child>>
  {
    match v
    case None => Parsed([])
    case Some(Text(s)) => if s == "" then Parsed([]) else Unparseable
    case Some(ChildrenDoc(l)) => Parsed(l)
    case Some(_) => Unparseable
  }

  function ReadBookings(v: Option<Value>): Parsed<seq<ClassBooking>>
  {
    match v
    case None => Parsed([])
    case Some(Text(s)) => if s == "" then Parsed([]) else Unparseable
    case Some(BookingsDoc(l)) => Parsed(l)
    case Some(_) => Unparseable
  }

  function ReadPayments(v: Option<Value>): Parsed<seq<Payment>>
  {
    match v
    case None => Parsed([])
    case Some(Text(s)) => if s == "" then Parsed([]) else Unparseable
    case Some(PaymentsDoc(l)) => Parsed(l)
    case Some(_) => Unparseable
  }

  function ReadAttendances(v: Option<Value>): Parsed<seq<Attendance>>
  {
    match v
    case None => Parsed([])
    case Some(Text(s)) => if s == "" then Parsed([]) else Unparseable
    case Some(AttendancesDoc(l)) => Parsed(l)
    case Some(_) => Unparseable
  }

  /** The storage object shared by all stores (`window.localStorage`). */
  class LocalStorage {
    var entries: seq<Entry>

    /** A browser's storage never holds two entries under one key. */
    predicate Valid()
      reads this
    {
      DistinctKeys(entries)
    }

    constructor(initial: seq<Entry>)
      requires DistinctKeys(initial)
      ensures entries == initial && Valid()
    {
      entries := initial;
    }

    function GetItem(key: string): (r: Option<Value>)
      reads this
      ensures r.None? <==> key !in Keys(entries)
    {
      Lookup(entries, key)
    }

    method SetItem(key: string, v: Value)
      requires Valid()
      modifies this
      ensures Valid()
      ensures entries == Put(old(entries), key, v)
      ensures GetItem(key) == Some(v)
      ensures forall other :: other != key ==> GetItem(other) == old(GetItem(other))
    {
      PutKeepsDistinct(entries, key, v);
      entries := Put(entries, key, v);
      forall other ensures Lookup(entries, other) == if other == key then Some(v) else Lookup(old(entries), other) {
        LookupPut(old(entries), key, v, other);
      }
    }

    method RemoveItem(key: string)
      requires Valid()
      modifies this
      ensures Valid()
      ensures entries == Remove(old(entries), key)
      ensures GetItem(key) == None
      ensures forall other :: other != key ==> GetItem(other) == old(GetItem(other))
    {
      RemoveKeepsDistinct(entries, key);
      entries := Remove(entries, key);
      forall other ensures Lookup(entries, other) == if other == key then None else Lookup(old(entries), other) {
        LookupRemove(old(entries), key, other);
      }
    }
  }
}
