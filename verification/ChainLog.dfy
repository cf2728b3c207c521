/** The event log of a chain is the chain's blocks indexed one after the other. */
module ChainLog {
  import opened ChainTypes
  import opened ChainIndex

  predicate DistinctPositions(events: set<Event>) {
    forall a, b | a in events && b in events && NotAfter(a, b) && NotAfter(b, a) :: a == b
  }

  lemma ListingEmpty(events: set<Event>, log: seq<Event>)
    requires Listing(events, log)
    ensures log == [] <==> events == {}
  {
    if log != [] { assert log[0] in events; }
    if e :| e in events { assert e in log; }
  }

  lemma HeadIsFirst(events: set<Event>, log: seq<Event>, e: Event)
    requires Listing(events, log) && e in events
    ensures log != [] && NotAfter(log[0], e)
  {
    assert e in log;
  }

  lemma ListingHead(events: set<Event>, log: seq<Event>)
    requires Listing(events, log) && log != []
    ensures log[0] in events && Listing(events - {log[0]}, log[1..])
  {
    forall e ensures e in log[1..] <==> e in events - {log[0]} {
      assert log == [log[0]] + log[1..];
      if e in log[1..] { var i :| 0 <= i < |log[1..]| && log[1..][i] == e; assert log[i + 1] == e; }
    }
  }

  /** Where positions differ, the ordered listing is unique. */
  lemma {:induction false} ListingUnique(events: set<Event>, p: seq<Event>, q: seq<Event>)
    requires DistinctPositions(events) && Listing(events, p) && Listing(events, q)
    ensures p == q
    decreases |p|
  {
    ListingEmpty(events, p);
    ListingEmpty(events, q);
    if p != [] {
      assert p[0] in q && q[0] in p;
      var i :| 0 <= i < |q| && q[i] == p[0];
      var j :| 0 <= j < |p| && p[j] == q[0];
      assert NotAfter(q[0], p[0]) && NotAfter(p[0], q[0]);
      ListingHead(events, p);
      ListingHead(events, q);
      ListingUnique(events - {p[0]}, p[1..], q[1..]);
    }
  }

  lemma {:induction false} AllEventsAt(chain: seq<Indexed>, e: Event)
    ensures e in AllEvents(chain) <==> exists i :: 0 <= i < |chain| && e in chain[i].events
  {
    if chain != [] {
      var shorter := chain[..|chain| - 1];
      AllEventsAt(shorter, e);
      if e in AllEvents(shorter) {
        var i :| 0 <= i < |shorter| && e in shorter[i].events;
        assert e in chain[i].events;
      }
      if i :| 0 <= i < |chain| && e in chain[i].events {
        if i < |chain| - 1 { assert e in shorter[i].events; }
      }
    }
  }

  /** Every event below the last block comes before every event of that block. */
  lemma Precedes(c: Contract, chain: seq<Indexed>, a: Event, b: Event)
    requires Indexes(c, chain) && chain != []
    requires a in AllEvents(chain[..|chain| - 1]) && b in chain[|chain| - 1].events
    ensures a.number < b.number
  {
    AllEventsAt(chain[..|chain| - 1], a);
    var i :| 0 <= i < |chain| - 1 && a in chain[..|chain| - 1][i].events;
    assert Belongs(c, chain[i]) && Belongs(c, chain[|chain| - 1]);
  }

  lemma PrefixIndexes(c: Contract, chain: seq<Indexed>, n: nat)
    requires Indexes(c, chain) && n <= |chain|
    ensures Indexes(c, chain[..n])
  {
    forall i | 0 < i < n ensures IsChild(chain[..n], i) { assert IsChild(chain, i); }
  }

  function Concat(parts: seq<seq<Event>>): seq<Event> {
    if parts == [] then [] else Concat(parts[..|parts| - 1]) + parts[|parts| - 1]
  }

  /** `parts` are the logs of the blocks, each indexed on its own. */
  ghost predicate BlockLogs(chain: seq<Indexed>, parts: seq<seq<Event>>) {
    |parts| == |chain| && forall i | 0 <= i < |chain| :: Listing(chain[i].events, parts[i])
  }

  /** Indexing the blocks one by one from nothing gives a log of the chain. */
  lemma {:induction false} BlockLogsMakeLog(c: Contract, chain: seq<Indexed>, parts: seq<seq<Event>>)
    requires Indexes(c, chain) && BlockLogs(chain, parts)
    ensures IsLog(chain, Concat(parts))
  {
    if chain != [] {
      var n := |chain| - 1;
      PrefixIndexes(c, chain, n);
      BlockLogsMakeLog(c, chain[..n], parts[..n]);
      var p, q := Concat(parts[..n]), parts[n];
      assert Concat(parts) == p + q;
      forall i, j | 0 <= i < j < |p + q| ensures (p + q)[i] != (p + q)[j] && NotAfter((p + q)[i], (p + q)[j]) {
        if i < |p| && |p| <= j {
          assert p[i] in p && q[j - |p|] in q;
          Precedes(c, chain, p[i], q[j - |p|]);
        }
      }
    }
  }

  /** The part of an ordered listing that lies in a lower block comes first. */
  lemma {:induction false} SplitLog(lower: set<Event>, upper: set<Event>, log: seq<Event>) returns (p: seq<Event>, q: seq<Event>)
    requires Listing(lower + upper, log)
    requires forall a, b | a in lower && b in upper :: a.number < b.number
    ensures log == p + q && Listing(lower, p) && Listing(upper, q)
    decreases |log|
  {
    if log == [] {
      p, q := [], [];
      ListingEmpty(lower + upper, log);
    } else {
      ListingHead(lower + upper, log);
      var e := log[0];
      if e in lower {
        assert e !in upper;
        assert lower + upper - {e} == (lower - {e}) + upper;
        var p', q' := SplitLog(lower - {e}, upper, log[1..]);
        p, q := [e] + p', q';
        assert log == [e] + log[1..] == p + q;
        forall i, j | 0 <= i < j < |p| ensures p[i] != p[j] && NotAfter(p[i], p[j]) {
          assert p[i] == log[i] && p[j] == log[j];
        }
      } else {
        assert lower == {} by {
          if x :| x in lower { HeadIsFirst(lower + upper, log, x); }
        }
        p, q := [], log;
        assert lower + upper == upper;
      }
    }
  }

  /** Every log of the chain is the concatenation of the logs of its blocks. */
  lemma {:induction false} LogIsBlockLogs(c: Contract, chain: seq<Indexed>, log: seq<Event>) returns (parts: seq<seq<Event>>)
    requires Indexes(c, chain) && IsLog(chain, log)
    ensures BlockLogs(chain, parts) && log == Concat(parts)
    decreases |chain|
  {
    if chain == [] {
      parts := [];
      ListingEmpty({}, log);
    } else {
      var n := |chain| - 1;
      forall a, b | a in AllEvents(chain[..n]) && b in chain[n].events ensures a.number < b.number {
        Precedes(c, chain, a, b);
      }
      var p, q := SplitLog(AllEvents(chain[..n]), chain[n].events, log);
      PrefixIndexes(c, chain, n);
      var lower := LogIsBlockLogs(c, chain[..n], p);
      parts := lower + [q];
      assert parts[..n] == lower;
    }
  }
}
