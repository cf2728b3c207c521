/** Sorting supplied events by position, and comparing them with stored ones. */
module EventOrder {
  import opened Results
  import opened ChainTypes
  import opened Fingerprints
  import opened ChainIndex
  import opened ChainLog
  import opened ChainTables

  predicate InOrder(q: seq<Event>) { forall i, j | 0 <= i < j < |q| :: NotAfter(q[i], q[j]) }

  /** After every element that is not after `x`, as a stable sort places it. */
  function Insert(q: seq<Event>, x: Event): seq<Event> {
    if q != [] && NotAfter(q[0], x) then [q[0]] + Insert(q[1..], x) else [x] + q
  }

  function Sort(events: seq<Event>): seq<Event> {
    if events == [] then [] else Insert(Sort(events[..|events| - 1]), events[|events| - 1])
  }

  lemma {:induction false} InsertMembers(q: seq<Event>, x: Event)
    ensures |Insert(q, x)| == |q| + 1
    ensures forall e :: e in Insert(q, x) <==> e == x || e in q
  {
    if q != [] && NotAfter(q[0], x) {
      InsertMembers(q[1..], x);
      assert q == [q[0]] + q[1..];
    }
  }

  lemma {:induction false} InsertInOrder(q: seq<Event>, x: Event)
    requires InOrder(q)
    ensures InOrder(Insert(q, x))
  {
    if q != [] && NotAfter(q[0], x) {
      InsertInOrder(q[1..], x);
      InsertMembers(q[1..], x);
      var r := Insert(q[1..], x);
      forall j | 0 <= j < |r| ensures NotAfter(q[0], r[j]) {
        assert r[j] in r;
      }
    }
  }

  // ------------------------------------------------------------ identities

  /** The set of identities that the source counts. */
  function Identities(events: seq<Event>): set<(Hash, nat)> {
    set i | 0 <= i < |events| :: (events[i].tx, events[i].logIndex)
  }

  lemma IdentitiesOf(events: seq<Event>, id: (Hash, nat))
    ensures id in Identities(events) <==> exists e :: e in events && (e.tx, e.logIndex) == id
  {
    if e :| e in events && (e.tx, e.logIndex) == id { var i :| 0 <= i < |events| && events[i] == e; }
    if i :| 0 <= i < |events| && (events[i].tx, events[i].logIndex) == id { assert events[i] in events; }
  }

  lemma LastIdentity(q: seq<Event>, x: Event)
    ensures Identities(q + [x]) == Identities(q) + {(x.tx, x.logIndex)}
    ensures DistinctIdentities(q + [x]) <==> DistinctIdentities(q) && (x.tx, x.logIndex) !in Identities(q)
  {
    var r := q + [x];
    forall id ensures id in Identities(r) <==> id in Identities(q) + {(x.tx, x.logIndex)} {
      IdentitiesOf(r, id);
      IdentitiesOf(q, id);
    }
    if DistinctIdentities(r) {
      forall i, j | 0 <= i < j < |q| ensures !(q[i].tx == q[j].tx && q[i].logIndex == q[j].logIndex) {
        assert r[i] == q[i] && r[j] == q[j];
      }
      forall i | 0 <= i < |q| ensures (q[i].tx, q[i].logIndex) != (x.tx, x.logIndex) {
        assert r[i] == q[i] && r[|q|] == x;
      }
    } else {
      var i, j :| 0 <= i < j < |r| && r[i].tx == r[j].tx && r[i].logIndex == r[j].logIndex;
      if j < |q| { assert q[i] == r[i] && q[j] == r[j]; }
      else { assert q[i] == r[i]; assert (q[i].tx, q[i].logIndex) in Identities(q); }
    }
  }

  /** Counting identities decides whether they are pairwise distinct. */
  lemma {:induction false} IdentityCount(q: seq<Event>)
    ensures |Identities(q)| <= |q|
    ensures |Identities(q)| == |q| <==> DistinctIdentities(q)
    ensures DistinctIdentities(q) ==> |SetOf(q)| == |q|
  {
    if q != [] {
      var p, x := q[..|q| - 1], q[|q| - 1];
      assert q == p + [x];
      IdentityCount(p);
      LastIdentity(p, x);
      assert SetOf(q) == SetOf(p) + {x};
      if x in p { IdentitiesOf(p, (x.tx, x.logIndex)); }
    }
  }

  /** Sorting keeps the events and puts them in order. */
  lemma {:induction false} SortFacts(events: seq<Event>)
    ensures |Sort(events)| == |events| && InOrder(Sort(events))
    ensures forall e :: e in Sort(events) <==> e in events
  {
    if events != [] {
      var q, x := events[..|events| - 1], events[|events| - 1];
      SortFacts(q);
      assert events == q + [x];
      InsertMembers(Sort(q), x);
      InsertInOrder(Sort(q), x);
    }
  }

  lemma {:induction false} SortDistinct(events: seq<Event>)
    ensures DistinctIdentities(Sort(events)) <==> DistinctIdentities(events)
    ensures SetOf(Sort(events)) == SetOf(events)
  {
    SortFacts(events);
    forall id ensures id in Identities(events) <==> id in Identities(Sort(events)) {
      IdentitiesOf(events, id);
      IdentitiesOf(Sort(events), id);
    }
    assert Identities(events) == Identities(Sort(events));
    IdentityCount(events);
    IdentityCount(Sort(events));
  }

  /** A sorted list of distinct events is a listing of its set. */
  lemma {:induction false} SortIsListing(events: seq<Event>)
    requires DistinctIdentities(events)
    ensures Listing(SetOf(events), Sort(events))
  {
    SortFacts(events);
    SortDistinct(events);
  }

  // ------------------------------------------------------------ comparing and storing

  /** An ordered read of a set of events; the order of equal positions is left open. */
  method ReadInOrder(events: set<Event>) returns (log: seq<Event>)
    ensures Listing(events, log)
  {
    var rest := events;
    log := [];
    while rest != {}
      invariant rest <= events && (forall e :: e in log <==> e in events - rest) && Sequenced(log)
      invariant forall a, b | a in log && b in rest :: NotAfter(a, b)
      decreases |rest|
    {
      EarliestExists(rest);
      var first :| IsEarliest(first, rest);
      hide NotAfter;
      SequencedOn(log, first);
      log := log + [first];
      rest := rest - {first};
    }
  }

  lemma SequencedOn(log: seq<Event>, x: Event)
    requires Sequenced(log) && x !in log && forall a | a in log :: NotAfter(a, x)
    ensures Sequenced(log + [x])
  {
    hide NotAfter;
    var next := log + [x];
    forall i, j | 0 <= i < j < |next| ensures next[i] != next[j] && NotAfter(next[i], next[j]) {
      assert next[i] == log[i] && log[i] in log;
      if j < |log| { assert next[j] == log[j]; }
    }
  }

  predicate IsEarliest(e: Event, events: set<Event>) { e in events && forall x | x in events :: NotAfter(e, x) }

  lemma {:induction false} EarliestExists(events: set<Event>)
    requires events != {}
    ensures exists e :: IsEarliest(e, events)
    decreases |events|
  {
    var x :| x in events;
    var rest := events - {x};
    if rest == {} {
      assert events == {x};
      assert IsEarliest(x, events);
    } else {
      EarliestExists(rest);
      var e :| IsEarliest(e, rest);
      assert events == rest + {x};
      assert IsEarliest(if NotAfter(e, x) then e else x, events);
    }
  }

  method SameFingerprint(a: Event, b: Event) returns (same: bool)
    requires a.contract.chainId == b.contract.chainId
    ensures same <==> a == b
  {
    EventFingerprintExact(a, b);
    same := EventFingerprint(a) == EventFingerprint(b);
  }

  /** The comparison of a block already stored with the events supplied for it again. */
  method CompareAgain(existing: seq<Event>, supplied: seq<Event>) returns (fault: Option<Fault>)
    requires forall i, j | 0 <= i < |existing| && 0 <= j < |supplied| ::
               existing[i].contract.chainId == supplied[j].contract.chainId
    ensures fault.None? <==> existing == supplied
    ensures fault.Some? ==> fault.value == BlockConflict || fault.value == EventConflict
  {
    if |existing| != |supplied| { return Some(BlockConflict); }
    for i := 0 to |existing|
      invariant existing[..i] == supplied[..i]
    {
      if existing[i].tx != supplied[i].tx || existing[i].logIndex != supplied[i].logIndex { return Some(BlockConflict); }
      var same := SameFingerprint(existing[i], supplied[i]);
      if !same { return Some(EventConflict); }
      assert existing[..i + 1] == existing[..i] + [existing[i]] && supplied[..i + 1] == supplied[..i] + [supplied[i]];
    }
    assert existing[..|existing|] == existing && supplied[..|existing|] == supplied;
    fault := None;
  }

  /** A canonical block against the events supplied for it again: they must be the same set, and read in the same order. */
  method CompareBlock(c: Contract, logCount: nat, existing: set<Event>, items: seq<Event>) returns (fault: Option<Fault>)
    requires logCount == |existing| && SameChain(c, items) && DistinctIdentities(items)
    requires forall e | e in existing :: e.contract == c
    ensures fault.None? ==> existing == SetOf(items)
    ensures existing == SetOf(items) && DistinctPositions(existing) ==> fault.None?
    ensures fault.Some? ==> fault.value == BlockConflict || fault.value == EventConflict
  {
    SortFacts(items);
    SortIsListing(items);
    IdentityCount(items);
    if logCount != |Sort(items)| { return Some(BlockConflict); }
    var stored := ReadInOrder(existing);
    if existing == SetOf(items) && DistinctPositions(existing) { ListingUnique(existing, stored, Sort(items)); }
    assert forall i | 0 <= i < |stored| :: stored[i] in existing;
    assert forall i | 0 <= i < |items| :: Sort(items)[i] in items;
    fault := CompareAgain(stored, Sort(items));
    if fault.None? { SameMembers(existing, SetOf(items), stored); }
  }

  lemma SameMembers(p: set<Event>, q: set<Event>, log: seq<Event>)
    requires Listing(p, log) && Listing(q, log)
    ensures p == q
  {
    forall e ensures e in p <==> e in q { assert e in p <==> e in log; }
  }

  predicate IsFresh(events: EventTable, e: Event) { KeyOf(e) in events ==> !events[KeyOf(e)].canonical }

  function CountFresh(events: EventTable, items: seq<Event>): nat {
    if items == [] then 0
    else CountFresh(events, items[..|items| - 1]) + if IsFresh(events, items[|items| - 1]) then 1 else 0
  }

  lemma {:induction false} CountFreshAll(events: EventTable, items: seq<Event>)
    ensures (forall i | 0 <= i < |items| :: IsFresh(events, items[i])) ==> CountFresh(events, items) == |items|
    ensures (forall i | 0 <= i < |items| :: !IsFresh(events, items[i])) ==> CountFresh(events, items) == 0
  {
    if items != [] { CountFreshAll(events, items[..|items| - 1]); }
  }

  /** Rows are stored events under their own keys. */
  ghost predicate RowsSound(events: EventTable) {
    forall k | k in events ::
      Decode(events[k]).Some? && KeyOf(Decode(events[k]).value) == k &&
      events[k] == Encode(Decode(events[k]).value, events[k].canonical)
  }

  method Recognises(events: EventTable, e: Event) returns (agrees: bool)
    requires RowsSound(events) && KeyOf(e) in events
    ensures agrees <==> Agrees(events, e)
  {
    var row := events[KeyOf(e)];
    var stored := Decode(row).value;
    assert KeyOf(stored) == KeyOf(e);
    if row.canonical {
      agrees := SameFingerprint(stored, e);
    } else {
      PayloadFingerprintExact(stored, e);
      agrees := PayloadFingerprint(stored) == PayloadFingerprint(e);
    }
  }

  /** Rewriting a row that already holds the event changes nothing. */
  lemma RewriteSame(events: EventTable, table: EventTable, e: Event)
    requires RowsSound(events) && KeyOf(e) in events && events[KeyOf(e)].canonical && Agrees(events, e)
    requires KeyOf(e) in table && table[KeyOf(e)] == events[KeyOf(e)]
    ensures table[KeyOf(e) := Encode(e, true)] == table
  {
  }

  /** One supplied event: insert it, revive its row, or recognise it. */
  method StoreOne(events: EventTable, table: EventTable, e: Event) returns (ok: bool, next: EventTable, isNew: bool)
    requires RowsSound(events) && (KeyOf(e) in table <==> KeyOf(e) in events)
    requires KeyOf(e) in events ==> table[KeyOf(e)] == events[KeyOf(e)]
    ensures ok <==> Agrees(events, e)
    ensures ok ==> next == table[KeyOf(e) := Encode(e, true)] && isNew == IsFresh(events, e)
  {
    ok, next, isNew := true, table, false;
    if KeyOf(e) in table {
      ok := Recognises(events, e);
      if !ok { return; }
      if table[KeyOf(e)].canonical {
        RewriteSame(events, table, e);
        return;
      }
    }
    next, isNew := table[KeyOf(e) := Encode(e, true)], true;
  }

  /** The loop over the supplied events. */
  method StoreEvents(events: EventTable, items: seq<Event>, ghost c: Contract)
    returns (ok: bool, table: EventTable, inserted: nat)
    requires RowsSound(events) && DistinctIdentities(items) && SameChain(c, items)
    ensures ok <==> NoConflict(events, items)
    ensures ok ==> table == StoreAll(events, items) && inserted == CountFresh(events, items)
  {
    hide RowsSound, Agrees, Encode, IsFresh, DistinctIdentities, SameChain;
    table, inserted, ok := events, 0, true;
    for i := 0 to |items|
      invariant ok && table == StoreAll(events, items[..i]) && inserted == CountFresh(events, items[..i])
      invariant forall j | 0 <= j < i :: Agrees(events, items[j])
    {
      assert items[..i + 1][..i] == items[..i] && items[..i + 1][i] == items[i];
      UntouchedRow(c, events, items, i);
      var isNew;
      ok, table, isNew := StoreOne(events, table, items[i]);
      if !ok { return; }
      inserted := inserted + if isNew then 1 else 0;
    }
    assert items[..|items|] == items;
  }

  lemma {:induction false} UntouchedRow(c: Contract, events: EventTable, items: seq<Event>, i: nat)
    requires DistinctIdentities(items) && SameChain(c, items) && i < |items|
    ensures var table := StoreAll(events, items[..i]);
            (KeyOf(items[i]) in table <==> KeyOf(items[i]) in events) &&
            (KeyOf(items[i]) in events ==> table[KeyOf(items[i])] == events[KeyOf(items[i])])
  {
    var before := items[..i];
    assert forall j | 0 <= j < i :: before[j] == items[j];
    StoreAllAt(c, events, before);
  }
}
