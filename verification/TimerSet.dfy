/** The ordered set of timers: what insertion, removal and expiry do to its order and to the timers it owns. */
module TimerSet {
  import opened Timers

  predicate NoSuchAddr(es: seq<Entry>, addr: nat) {
    forall e :: e in es ==> e.ptr.addr != addr
  }

  ghost function Owned(es: seq<Entry>): multiset<Ptr> {
    multiset(Ptrs(es))
  }

  lemma PtrsConcat(x: seq<Entry>, y: seq<Entry>)
    ensures Ptrs(x + y) == Ptrs(x) + Ptrs(y)
    ensures Owned(x + y) == Owned(x) + Owned(y)
  {
  }

  lemma OwnedCons(e: Entry, es: seq<Entry>)
    ensures Owned([e] + es) == multiset{e.ptr} + Owned(es)
  {
    PtrsConcat([e], es);
    assert Ptrs([e]) == [e.ptr];
  }

  lemma OwnedMember(es: seq<Entry>, e: Entry)
    requires e in es
    ensures e.ptr in Owned(es)
  {
    var i :| 0 <= i < |es| && es[i] == e;
    assert Ptrs(es)[i] == e.ptr;
  }

  lemma OwnedWitness(es: seq<Entry>, p: Ptr) returns (e: Entry)
    requires p in Owned(es)
    ensures e in es && e.ptr == p
  {
    var i :| 0 <= i < |es| && Ptrs(es)[i] == p;
    e := es[i];
  }

  lemma SortedTail(es: seq<Entry>)
    requires Sorted(es) && es != []
    ensures Sorted(es[1..]) && forall e :: e in es[1..] ==> Less(es[0], e)
  {
  }

  lemma SortedCons(e: Entry, es: seq<Entry>)
    requires Sorted(es) && forall x :: x in es ==> Less(e, x)
    ensures Sorted([e] + es)
  {
  }

  lemma {:induction false} InsertOwns(es: seq<Entry>, e: Entry)
    requires Sorted(es) && NoSuchAddr(es, e.ptr.addr)
    ensures forall x :: x in InsertEntry(es, e) <==> x in es || x == e
    ensures Owned(InsertEntry(es, e)) == Owned(es) + multiset{e.ptr}
  {
    hide Owned;
    if es == [] || Less(e, es[0]) {
      OwnedCons(e, es);
    } else {
      var rest := InsertEntry(es[1..], e);
      SortedTail(es);
      InsertOwns(es[1..], e);
      OwnedCons(es[0], rest);
      OwnedCons(es[0], es[1..]);
      assert es == [es[0]] + es[1..];
    }
  }

  lemma {:induction false} InsertSorts(es: seq<Entry>, e: Entry)
    requires Sorted(es) && NoSuchAddr(es, e.ptr.addr)
    ensures Sorted(InsertEntry(es, e))
    ensures InsertEntry(es, e) != []
    ensures InsertEntry(es, e)[0] == if es == [] || Less(e, es[0]) then e else es[0]
  {
    hide Owned;
    if es == [] || Less(e, es[0]) {
      SortedCons(e, es);
    } else {
      var rest := InsertEntry(es[1..], e);
      SortedTail(es);
      InsertSorts(es[1..], e);
      InsertOwns(es[1..], e);
      SortedCons(es[0], rest);
    }
  }

  /** Insertion keeps the order and adds the one entry, at the front exactly when it is the least. */
  lemma InsertLemma(es: seq<Entry>, e: Entry)
    requires Sorted(es) && NoSuchAddr(es, e.ptr.addr)
    ensures Sorted(InsertEntry(es, e))
    ensures forall x :: x in InsertEntry(es, e) <==> x in es || x == e
    ensures Owned(InsertEntry(es, e)) == Owned(es) + multiset{e.ptr}
    ensures InsertEntry(es, e) != []
    ensures InsertEntry(es, e)[0] == if es == [] || Less(e, es[0]) then e else es[0]
  {
    hide InsertEntry, Sorted, Owned, Less;
    InsertOwns(es, e);
    InsertSorts(es, e);
  }

  lemma {:induction false} RemoveLemma(es: seq<Entry>, e: Entry)
    requires Sorted(es) && e in es
    ensures Sorted(RemoveEntry(es, e))
    ensures forall x :: x in RemoveEntry(es, e) <==> x in es && x != e
    ensures Owned(es) == Owned(RemoveEntry(es, e)) + multiset{e.ptr}
    ensures RemoveEntry(es, e) != [] ==> es[0].stamp <= RemoveEntry(es, e)[0].stamp
  {
    assert es == [es[0]] + es[1..];
    SortedTail(es);
    OwnedCons(es[0], es[1..]);
    if e == es[0] {
    } else {
      assert e in es[1..];
      var rest := RemoveEntry(es[1..], e);
      RemoveLemma(es[1..], e);
      SortedCons(es[0], rest);
      OwnedCons(es[0], rest);
    }
  }

  /** `getExpired` takes exactly the entries due at `now`, and leaves exactly the others. */
  lemma {:induction false} ExpiryExact(es: seq<Entry>, now: int)
    requires Sorted(es) && forall e :: e in es ==> e.ptr.addr < MAX_ADDR
    ensures var k := LowerBound(es, Sentry(now));
            && (forall e :: e in es[..k] ==> e.stamp <= now)
            && (forall e :: e in es[k..] ==> e.stamp > now)
  {
    if es != [] {
      SortedTail(es);
      ExpiryExact(es[1..], now);
      var k := LowerBound(es, Sentry(now));
      if Less(es[0], Sentry(now)) {
        assert es[..k] == [es[0]] + es[1..][..k - 1];
        assert es[k..] == es[1..][k - 1..];
      } else {
        assert es[k..] == es && es[..k] == [];
      }
    }
  }

  lemma ExpiryCuts(es: seq<Entry>, now: int)
    requires Sorted(es) && forall e :: e in es ==> e.ptr.addr < MAX_ADDR
    ensures var k := LowerBound(es, Sentry(now));
            && Sorted(es[..k]) && (forall e :: e in es[..k] ==> e.stamp <= now)
            && Sorted(es[k..]) && (forall e :: e in es[k..] ==> e.stamp > now)
  {
    hide LowerBound, Less;
    ExpiryExact(es, now);
  }
}
