/**
 The client's flow index: `conn_order` beside `conns`, capped first in, first out.
 */
module ClientIndex {
  import opened Types
  import opened Collections
  import opened Client

  function IndexOf(v: View): Index {
    Index(v.conns, v.order)
  }

  /** The order lists the keys of the map, each once, and every flow sits under its own key. */
  ghost predicate Coherent(ix: Index) {
    && NoDup(ix.order)
    && Elems(ix.order) == ix.conns.Keys
    && forall k :: k in ix.conns ==> ix.conns[k].key == k
  }

  ghost predicate DistinctKeys(conns: seq<ConnectionInfo>) {
    forall i, j :: 0 <= i < j < |conns| ==> conns[i].key != conns[j].key
  }

  /** How many flows a table of `n` flows has too many. */
  function Surplus(n: nat): nat {
    SaturatingSub(n, MAX_CONNECTIONS)
  }

  lemma CoherentSize(ix: Index)
    requires Coherent(ix)
    ensures |ix.order| == |ix.conns|
  {
    NoDupCardinality(ix.order);
    assert |ix.conns.Keys| == |ix.conns|;
  }

  /** The index without its `n` oldest flows. */
  function Evicted(ix: Index, n: nat): Index
    requires n <= |ix.order|
  {
    Index(ix.conns - Elems(ix.order[..n]), ix.order[n..])
  }

  lemma NothingEvicted(ix: Index)
    ensures Evicted(ix, 0) == ix
  {
    assert ix.conns - Elems(ix.order[..0]) == ix.conns;
  }

  lemma OldestOf(order: seq<string>, n: nat)
    requires NoDup(order) && n <= |order|
    ensures Elems(order[..n]) <= Elems(order) && |Elems(order[..n])| == n
  {
    NoDupCardinality(order[..n]);
  }

  lemma EvictedSize(ix: Index, n: nat)
    requires Coherent(ix) && n <= |ix.order|
    ensures |Evicted(ix, n).conns| == |ix.conns| - n
  {
    OldestOf(ix.order, n);
    var oldest := Elems(ix.order[..n]);
    assert Evicted(ix, n).conns.Keys == ix.conns.Keys - oldest;
    assert |ix.conns.Keys - oldest| == |ix.conns.Keys| - |oldest|;
    assert |Evicted(ix, n).conns| == |Evicted(ix, n).conns.Keys| && |ix.conns| == |ix.conns.Keys|;
  }

  lemma EvictedIsCoherent(ix: Index, n: nat)
    requires Coherent(ix) && n <= |ix.order|
    ensures Coherent(Evicted(ix, n))
  {
    var gone, kept := ix.order[..n], ix.order[n..];
    assert ix.order == gone + kept;
    assert Elems(ix.order) == Elems(gone) + Elems(kept);
    forall x | x in gone ensures x !in kept {
      var i :| 0 <= i < n && gone[i] == x;
      assert forall j :: 0 <= j < |kept| ==> kept[j] == ix.order[n + j] != ix.order[i];
    }
  }

  lemma EvictedOneMore(ix: Index, n: nat)
    requires n < |ix.order|
    ensures var cut := Evicted(ix, n);
            cut.order != [] && Evicted(ix, n + 1) == Index(cut.conns - {cut.order[0]}, cut.order[1..])
  {
    assert ix.order[..n + 1] == ix.order[..n] + [ix.order[n]];
    assert Elems(ix.order[..n + 1]) == Elems(ix.order[..n]) + {ix.order[n]};
  }

  /** The cap loop takes the oldest flow as long as there are too many. */
  lemma {:induction false} CapGoesOn(ix: Index, i: nat, n: nat)
    requires i <= n <= |ix.order|
    requires forall j: nat :: j < n ==> |Evicted(ix, j).conns| > MAX_CONNECTIONS
    requires |Evicted(ix, n).conns| <= MAX_CONNECTIONS
    ensures Capped(Evicted(ix, i)) == Evicted(ix, n)
    decreases n - i
  {
    if i == n {
    } else {
      EvictedOneMore(ix, i);
      CapGoesOn(ix, i + 1, n);
    }
  }

  /** The cap loop evicts exactly the oldest surplus, in insertion order. */
  lemma CapDropsOldestSurplus(ix: Index)
    requires Coherent(ix)
    ensures Surplus(|ix.conns|) <= |ix.order|
    ensures Capped(ix).order == ix.order[Surplus(|ix.conns|)..]
    ensures Capped(ix).conns == ix.conns - Elems(ix.order[..Surplus(|ix.conns|)])
    ensures Coherent(Capped(ix)) && |Capped(ix).conns| <= MAX_CONNECTIONS
  {
    CoherentSize(ix);
    var s := Surplus(|ix.conns|);
    forall j: nat | j <= s ensures |Evicted(ix, j).conns| == |ix.conns| - j {
      EvictedSize(ix, j);
    }
    CapGoesOn(ix, 0, s);
    NothingEvicted(ix);
    EvictedIsCoherent(ix, s);
  }

  /** What a snapshot's flow list loads to, repeated keys or not. */
  lemma {:induction false} LoadedLists(conns: seq<ConnectionInfo>)
    ensures |Loaded(conns).order| == |conns|
    ensures forall i :: 0 <= i < |conns| ==> Loaded(conns).order[i] == conns[i].key
    ensures Elems(Loaded(conns).order) == Loaded(conns).conns.Keys
    ensures forall k :: k in Loaded(conns).conns ==>
              Loaded(conns).conns[k].key == k && Loaded(conns).conns[k] in conns
  {
    if conns == [] {
    } else {
      var init, last := conns[..|conns| - 1], conns[|conns| - 1];
      LoadedLists(init);
      assert conns == init + [last];
      assert Elems(Loaded(conns).order) == Elems(Loaded(init).order) + {last.key};
    }
  }

  /** Loading a snapshot gives a coherent index exactly when its keys are distinct. */
  lemma LoadedIsCoherentIffDistinct(conns: seq<ConnectionInfo>)
    ensures Coherent(Loaded(conns)) <==> DistinctKeys(conns)
  {
    LoadedLists(conns);
    var order := Loaded(conns).order;
    if NoDup(order) {
      forall i, j | 0 <= i < j < |conns| ensures conns[i].key != conns[j].key {
        assert order[i] != order[j];
      }
    }
  }

  /** With distinct keys no listed flow is lost. */
  lemma {:induction false} LoadedKeepsEveryFlow(conns: seq<ConnectionInfo>)
    requires DistinctKeys(conns)
    ensures forall i :: 0 <= i < |conns| ==>
              conns[i].key in Loaded(conns).conns && Loaded(conns).conns[conns[i].key] == conns[i]
  {
    if conns == [] {
    } else {
      var init, last := conns[..|conns| - 1], conns[|conns| - 1];
      LoadedKeepsEveryFlow(init);
      assert forall i :: 0 <= i < |init| ==> conns[i] == init[i];
    }
  }

  lemma LastKeyIsNew(conns: seq<ConnectionInfo>)
    requires DistinctKeys(conns) && conns != []
    ensures conns[|conns| - 1].key !in Loaded(conns[..|conns| - 1]).conns
  {
    var init, last := conns[..|conns| - 1], conns[|conns| - 1];
    LoadedLists(init);
    forall i | 0 <= i < |init| ensures Loaded(init).order[i] != last.key {
      assert init[i] == conns[i];
    }
    assert last.key !in Elems(Loaded(init).order);
  }

  lemma StoredIsCoherent(ix: Index, conn: ConnectionInfo)
    requires Coherent(ix)
    ensures Coherent(Stored(ix, conn))
  {
    var ix' := Stored(ix, conn);
    if conn.key in ix.conns {
      assert conn.key in Elems(ix.order);
    } else {
      assert conn.key !in Elems(ix.order);
      assert Elems(ix'.order) == Elems(ix.order) + {conn.key};
    }
  }

  /** After a flow report: at most the cap, the oldest surplus gone, the rest untouched and in
      order; a flow that was not there before is there now, as the youngest. */
  lemma UpsertIsFifo(v: View, conn: ConnectionInfo, isOpen: bool)
    requires Coherent(IndexOf(v))
    ensures Surplus(|Stored(IndexOf(v), conn).conns|) <= |Stored(IndexOf(v), conn).order|
    ensures var w, stored := Upsert(v, conn, isOpen), Stored(IndexOf(v), conn);
            var s := Surplus(|stored.conns|);
            && w.order == stored.order[s..]
            && w.conns == stored.conns - Elems(stored.order[..s])
    ensures |Upsert(v, conn, isOpen).conns| <= MAX_CONNECTIONS
    ensures Coherent(IndexOf(Upsert(v, conn, isOpen)))
    ensures conn.key !in v.conns ==>
              var w := Upsert(v, conn, isOpen);
              conn.key in w.conns && w.order != [] && w.order[|w.order| - 1] == conn.key
  {
    var stored := Stored(IndexOf(v), conn);
    StoredIsCoherent(IndexOf(v), conn);
    CapDropsOldestSurplus(stored);
    UpsertedIndex(v, conn, isOpen);
    if conn.key !in v.conns {
      YoungestStays(stored);
    }
  }

  lemma UpsertedIndex(v: View, conn: ConnectionInfo, isOpen: bool)
    ensures IndexOf(Upsert(v, conn, isOpen)) == Capped(Stored(IndexOf(v), conn))
  {
  }

  lemma YoungestStays(ix: Index)
    requires Coherent(ix) && ix.order != []
    ensures var capped, last := Capped(ix), ix.order[|ix.order| - 1];
            capped.order != [] && capped.order[|capped.order| - 1] == last && last in capped.conns
  {
    CapDropsOldestSurplus(ix);
    CoherentSize(ix);
    var s := Surplus(|ix.conns|);
    assert Capped(ix).order == ix.order[s..];
    assert ix.order[|ix.order| - 1] in Elems(ix.order);
  }

  lemma RemovedIsCoherent(v: View, key: string)
    requires Coherent(IndexOf(v))
    ensures Coherent(IndexOf(Removed(v, key)))
  {
    WithoutNoDup(v.order, key);
    assert Elems(Without(v.order, key)) == Elems(v.order) - {key};
  }

  lemma UpsertIsCoherent(v: View, conn: ConnectionInfo, isOpen: bool)
    requires Coherent(IndexOf(v))
    ensures Coherent(IndexOf(Upsert(v, conn, isOpen)))
  {
    StoredIsCoherent(IndexOf(v), conn);
    CapDropsOldestSurplus(Stored(IndexOf(v), conn));
  }

  /** One event keeps the index coherent. */
  lemma EventKeepsCoherent(v: View, event: Event)
    requires Coherent(IndexOf(v))
    ensures Coherent(IndexOf(AfterEvent(v, event)))
  {
    match event
    case ConnectionOpened(conn) => UpsertIsCoherent(v, conn, true);
    case ConnectionUpdated(conn) => UpsertIsCoherent(v, conn, false);
    case ConnectionClosed(key) => RemovedIsCoherent(v, key);
    case _ =>
  }

  ghost predicate DistinctSnapshots(inputs: seq<Input>) {
    forall i :: 0 <= i < |inputs| && inputs[i].Snapshot? ==> DistinctKeys(inputs[i].conns)
  }

  /** In every run whose snapshots list distinct keys the index is coherent throughout. */
  lemma {:induction false} IndexCoherentInEveryRun(inputs: seq<Input>)
    requires DistinctSnapshots(inputs)
    ensures Coherent(IndexOf(Run(EMPTY, inputs)))
    decreases |inputs|
  {
    if inputs == [] {
    } else {
      var init, last := inputs[..|inputs| - 1], inputs[|inputs| - 1];
      IndexCoherentInEveryRun(init);
      var v := Run(EMPTY, init);
      match last
      case Snapshot(_, _, _, conns, _) => LoadedIsCoherentIffDistinct(conns);
      case Streamed(event) => EventKeepsCoherent(v, event);
      case _ =>
    }
  }
}
