/**
 Per-application usage in the daemon (`top_apps` in crates/daemon/src/main.rs), and its agreement
 with the accounts a client keeps from events.
 */
module TopApps {
  import opened Types
  import opened Collections
  import opened Client
  import opened ClientIndex
  import opened ClientRules
  import opened ClientApps
  import opened ClientTotals
  import opened Replication
  import opened Convergence
  import opened FlowTable

  /** The daemon's grouping key: the printed exe path, else the process name, else "unknown". */
  function GroupKey(conn: ConnectionInfo): string {
    if conn.exe.Some? then conn.exe.value.display else NameOf(conn)
  }

  function NewUsage(conn: ConnectionInfo): AppUsage {
    AppUsage(NameOf(conn), conn.exe, 0, 0, 0, false)
  }

  function WithFlow(u: AppUsage, conn: ConnectionInfo): AppUsage {
    u.(bytesSent := u.bytesSent + conn.bytesSent, bytesRecv := u.bytesRecv + conn.bytesRecv,
       connections := u.connections + 1)
  }

  /** The table after going over the flows in the given order. */
  function Grouped(conns: seq<ConnectionInfo>): map<string, AppUsage> {
    if conns == [] then map[]
    else
      var groups, conn := Grouped(conns[..|conns| - 1]), conns[|conns| - 1];
      var u := if GroupKey(conn) in groups then groups[GroupKey(conn)] else NewUsage(conn);
      groups[GroupKey(conn) := WithFlow(u, conn)]
  }

  function Bytes(u: AppUsage): nat {
    u.bytesSent + u.bytesRecv
  }

  /** Those with more bytes, sent and received, come first. */
  predicate Descending(apps: seq<AppUsage>) {
    forall i, j :: 0 <= i < j < |apps| ==>
      apps[i].bytesSent + apps[i].bytesRecv >= apps[j].bytesSent + apps[j].bytesRecv
  }

  function Marked(u: AppUsage, blocked: PathBuf -> bool): AppUsage {
    u.(blocked := u.exe.Some? && blocked(u.exe.value))
  }

  /** `keys` lists the groups in the order in which the apps are reported. */
  ghost predicate Reports(groups: map<string, AppUsage>, blocked: PathBuf -> bool, keys: seq<string>,
                          apps: seq<AppUsage>) {
    && NoDup(keys) && Elems(keys) == groups.Keys && |apps| == |keys|
    && forall i :: 0 <= i < |keys| ==> apps[i] == Marked(groups[keys[i]], blocked)
  }

  /** `conns` are the values of the flow table in the order its iterator yields them. */
  method TopUsage(conns: seq<ConnectionInfo>, blocked: PathBuf -> bool)
    returns (apps: seq<AppUsage>, ghost keys: seq<string>)
    ensures Reports(Grouped(conns), blocked, keys, apps) && Descending(apps)
    ensures forall app :: app in apps ==> (app.blocked <==> app.exe.Some? && blocked(app.exe.value))
  {
    var groups: map<string, AppUsage> := map[];
    for i := 0 to |conns|
      invariant groups == Grouped(conns[..i])
    {
      assert conns[..i + 1][..i] == conns[..i];
      var conn := conns[i];
      var key := GroupKey(conn);
      if key !in groups {
        groups := groups[key := NewUsage(conn)];
      }
      groups := groups[key := WithFlow(groups[key], conn)];
    }
    assert conns[..|conns|] == conns;
    apps, keys := MarkAll(groups, blocked);
    apps, keys := SortByBytes(apps, keys, groups, blocked);
    ReportedBlockedIff(groups, blocked, keys, apps);
  }

  /** The values of the table in some order, each with its blocked flag. */
  method MarkAll(groups: map<string, AppUsage>, blocked: PathBuf -> bool)
    returns (apps: seq<AppUsage>, ghost keys: seq<string>)
    ensures Reports(groups, blocked, keys, apps)
  {
    apps, keys := [], [];
    var todo := groups.Keys;
    while todo != {}
      invariant todo <= groups.Keys
      invariant NoDup(keys) && Elems(keys) == groups.Keys - todo && |apps| == |keys|
      invariant forall i :: 0 <= i < |keys| ==> keys[i] in groups && apps[i] == Marked(groups[keys[i]], blocked)
      decreases todo
    {
      var key :| key in todo;
      assert key !in Elems(keys);
      assert Elems(keys + [key]) == Elems(keys) + {key};
      apps := apps + [Marked(groups[key], blocked)];
      keys := keys + [key];
      todo := todo - {key};
    }
  }

  /** Where a usage belongs in a list sorted by bytes, after those with as many. */
  function Place(apps: seq<AppUsage>, u: AppUsage): (n: nat)
    ensures n <= |apps|
    ensures forall i :: 0 <= i < n ==> Bytes(apps[i]) >= Bytes(u)
    ensures n < |apps| ==> Bytes(apps[n]) < Bytes(u)
  {
    if apps == [] || Bytes(apps[0]) < Bytes(u) then 0 else 1 + Place(apps[1..], u)
  }

  /** The first `i` usages, sorted so far. */
  ghost predicate SortedPart(groups: map<string, AppUsage>, blocked: PathBuf -> bool, keys: seq<string>,
                             order: seq<string>, sorted: seq<AppUsage>) {
    && |order| == |sorted| && NoDup(order) && Elems(order) == Elems(keys)
    && forall j :: 0 <= j < |order| ==> order[j] in groups && sorted[j] == Marked(groups[order[j]], blocked)
  }

  lemma InsertStep(groups: map<string, AppUsage>, blocked: PathBuf -> bool, keys: seq<string>,
                   i: nat, order: seq<string>, sorted: seq<AppUsage>, u: AppUsage, n: nat)
    requires NoDup(keys) && i < |keys| && keys[i] in groups && u == Marked(groups[keys[i]], blocked)
    requires SortedPart(groups, blocked, keys[..i], order, sorted) && n <= |sorted|
    ensures SortedPart(groups, blocked, keys[..i + 1], order[..n] + [keys[i]] + order[n..],
                       sorted[..n] + [u] + sorted[n..])
  {
    InsertKeepsNoDup(order, keys, i, n);
  }

  /** Stands for the library's stable `sort_by_key`. */
  method SortByBytes(apps: seq<AppUsage>, ghost keys: seq<string>, ghost groups: map<string, AppUsage>,
                     ghost blocked: PathBuf -> bool)
    returns (sorted: seq<AppUsage>, ghost order: seq<string>)
    requires Reports(groups, blocked, keys, apps)
    ensures Reports(groups, blocked, order, sorted) && Descending(sorted)
  {
    sorted, order := [], [];
    for i := 0 to |apps|
      invariant SortedPart(groups, blocked, keys[..i], order, sorted)
      invariant Descending(sorted)
    {
      var n := Place(sorted, apps[i]);
      InsertKeepsOrder(sorted, apps[i], n);
      assert keys[i] in Elems(keys);
      InsertStep(groups, blocked, keys, i, order, sorted, apps[i], n);
      sorted := sorted[..n] + [apps[i]] + sorted[n..];
      order := order[..n] + [keys[i]] + order[n..];
    }
    assert keys[..|keys|] == keys;
    assert |order| == |groups.Keys| by {
      NoDupCardinality(order);
    }
  }

  lemma InsertKeepsOrder(sorted: seq<AppUsage>, u: AppUsage, n: nat)
    requires Descending(sorted) && n == Place(sorted, u)
    ensures Descending(sorted[..n] + [u] + sorted[n..])
  {
  }

  lemma InsertElems(order: seq<string>, k: string, n: nat)
    requires n <= |order|
    ensures Elems(order[..n] + [k] + order[n..]) == Elems(order) + {k}
  {
    assert order == order[..n] + order[n..];
  }

  lemma InsertNoDup(order: seq<string>, k: string, n: nat)
    requires NoDup(order) && n <= |order| && k !in order
    ensures NoDup(order[..n] + [k] + order[n..])
  {
  }

  lemma InsertKeepsNoDup(order: seq<string>, keys: seq<string>, i: nat, n: nat)
    requires NoDup(order) && NoDup(keys) && i < |keys| && n <= |order| && Elems(order) == Elems(keys[..i])
    ensures NoDup(order[..n] + [keys[i]] + order[n..])
    ensures Elems(order[..n] + [keys[i]] + order[n..]) == Elems(keys[..i + 1])
  {
    assert keys[i] !in Elems(keys[..i]);
    assert keys[i] !in Elems(order);
    InsertNoDup(order, keys[i], n);
    InsertElems(order, keys[i], n);
    InsertElems(keys[..i], keys[i], i);
    assert keys[..i][..i] + [keys[i]] + keys[..i][i..] == keys[..i + 1];
  }

  /** Whatever the groups, an app is reported blocked exactly if it has an exe and that is blocked. */
  lemma ReportedBlockedIff(groups: map<string, AppUsage>, blocked: PathBuf -> bool, keys: seq<string>,
                           apps: seq<AppUsage>)
    requires Reports(groups, blocked, keys, apps)
    ensures forall app :: app in apps ==> (app.blocked <==> app.exe.Some? && blocked(app.exe.value))
  {
    forall i | 0 <= i < |apps| ensures apps[i].blocked <==> apps[i].exe.Some? && blocked(apps[i].exe.value) {
      assert apps[i] == Marked(groups[keys[i]], blocked);
    }
  }

  // ------------------------------------------------------------------- what is conserved

  datatype Measure = SentBytes | RecvBytes | Flows

  function WeightOf(m: Measure, conn: ConnectionInfo): nat {
    match m
    case SentBytes => conn.bytesSent
    case RecvBytes => conn.bytesRecv
    case Flows => 1
  }

  function Weigh(m: Measure): ConnectionInfo -> nat {
    (c: ConnectionInfo) => WeightOf(m, c)
  }

  function UsageOf(m: Measure, u: AppUsage): nat {
    match m
    case SentBytes => u.bytesSent
    case RecvBytes => u.bytesRecv
    case Flows => u.connections
  }

  function EntryOf(m: Measure, app: AppEntry): nat {
    match m
    case SentBytes => app.bytesSent
    case RecvBytes => app.bytesRecv
    case Flows => app.connections
  }

  function USent(u: AppUsage): nat { u.bytesSent }

  function URecv(u: AppUsage): nat { u.bytesRecv }

  function UFlows(u: AppUsage): nat { u.connections }

  function Counts(m: Measure): AppUsage -> nat {
    match m
    case SentBytes => USent
    case RecvBytes => URecv
    case Flows => UFlows
  }

  /** The part of a measure that falls to one key, of the daemon's grouping or of the client's. */
  function GroupShare(k: string, m: Measure): ConnectionInfo -> nat {
    (c: ConnectionInfo) => if GroupKey(c) == k then WeightOf(m, c) else 0
  }

  function AppShare(k: string, m: Measure): ConnectionInfo -> nat {
    (c: ConnectionInfo) => if AppKeyOf(c) == k then WeightOf(m, c) else 0
  }

  lemma SumLast<T>(xs: seq<T>, f: T -> nat)
    requires xs != []
    ensures Sum(xs, f) == Sum(xs[..|xs| - 1], f) + f(xs[|xs| - 1])
  {
    var init, last := xs[..|xs| - 1], xs[|xs| - 1];
    assert xs == init + [last];
    SumAppend(init, [last], f);
    assert [last][1..] == [];
  }

  lemma {:induction false} GroupedConserves(conns: seq<ConnectionInfo>, m: Measure)
    ensures MapSum(Grouped(conns), Counts(m)) == Sum(conns, Weigh(m))
    decreases |conns|
  {
    if conns == [] {
    } else {
      var init, conn := conns[..|conns| - 1], conns[|conns| - 1];
      GroupedConserves(init, m);
      SumLast(conns, Weigh(m));
      var groups := Grouped(init);
      MapSumUpdate(groups, Counts(m), GroupKey(conn), Grouped(conns)[GroupKey(conn)]);
      MapSumRemove(groups, Counts(m), GroupKey(conn));
    }
  }

  lemma {:induction false} ReportedSum(groups: map<string, AppUsage>, blocked: PathBuf -> bool, keys: seq<string>,
                                       apps: seq<AppUsage>, m: Measure)
    requires Reports(groups, blocked, keys, apps)
    ensures Sum(apps, Counts(m)) == MapSum(groups, Counts(m))
    decreases |apps|
  {
    if apps == [] {
      assert groups.Keys == {};
      assert groups == map[];
    } else {
      var n := |apps| - 1;
      var k := keys[n];
      assert keys == keys[..n] + [k];
      assert k in Elems(keys);
      assert Elems(keys[..n]) == groups.Keys - {k};
      ReportedSum(groups - {k}, blocked, keys[..n], apps[..n], m);
      MapSumRemove(groups, Counts(m), k);
      SumLast(apps, Counts(m));
    }
  }

  /** The report conserves bytes sent, bytes received and the number of flows. */
  lemma TopConserves(conns: seq<ConnectionInfo>, blocked: PathBuf -> bool, keys: seq<string>,
                     apps: seq<AppUsage>, m: Measure)
    requires Reports(Grouped(conns), blocked, keys, apps)
    ensures Sum(apps, Counts(m)) == Sum(conns, Weigh(m))
  {
    GroupedConserves(conns, m);
    ReportedSum(Grouped(conns), blocked, keys, apps, m);
  }

  // ------------------------------------------------------------------------- one group

  /** A group's numbers are its shares, and it is labelled after one of its flows. */
  ghost predicate GroupOk(conns: seq<ConnectionInfo>, k: string, u: AppUsage) {
    && (forall m :: UsageOf(m, u) == Sum(conns, GroupShare(k, m)))
    && exists c :: c in conns && GroupKey(c) == k && u.exe == c.exe && u.name == NameOf(c)
  }

  lemma {:induction false} NoShare(conns: seq<ConnectionInfo>, k: string, m: Measure)
    requires forall c :: c in conns ==> GroupKey(c) != k
    ensures Sum(conns, GroupShare(k, m)) == 0
    decreases |conns|
  {
    if conns == [] {
    } else {
      NoShare(conns[1..], k, m);
    }
  }

  lemma GroupStays(init: seq<ConnectionInfo>, conns: seq<ConnectionInfo>, k: string, u: AppUsage)
    requires conns != [] && init == conns[..|conns| - 1] && GroupKey(conns[|conns| - 1]) != k
    requires GroupOk(init, k, u)
    ensures GroupOk(conns, k, u)
  {
    forall m ensures UsageOf(m, u) == Sum(conns, GroupShare(k, m)) {
      SumLast(conns, GroupShare(k, m));
      assert UsageOf(m, u) == Sum(init, GroupShare(k, m));
    }
    var c :| c in init && GroupKey(c) == k && u.exe == c.exe && u.name == NameOf(c);
    assert c in conns;
  }

  lemma GroupGrows(init: seq<ConnectionInfo>, conns: seq<ConnectionInfo>, u: AppUsage)
    requires conns != [] && init == conns[..|conns| - 1]
    requires var conn := conns[|conns| - 1];
             || GroupOk(init, GroupKey(conn), u)
             || (u == NewUsage(conn) && forall c :: c in init ==> GroupKey(c) != GroupKey(conn))
    ensures GroupOk(conns, GroupKey(conns[|conns| - 1]), WithFlow(u, conns[|conns| - 1]))
  {
    var conn := conns[|conns| - 1];
    var k := GroupKey(conn);
    forall m ensures UsageOf(m, WithFlow(u, conn)) == Sum(conns, GroupShare(k, m)) {
      SumLast(conns, GroupShare(k, m));
      if !GroupOk(init, k, u) {
        NoShare(init, k, m);
      } else {
        assert UsageOf(m, u) == Sum(init, GroupShare(k, m));
      }
    }
    if GroupOk(init, k, u) {
      var c :| c in init && GroupKey(c) == k && u.exe == c.exe && u.name == NameOf(c);
      assert c in conns;
    } else {
      assert conn in conns;
    }
  }

  lemma {:induction false} GroupsAreShares(conns: seq<ConnectionInfo>)
    ensures forall k :: k in Grouped(conns) ==> GroupOk(conns, k, Grouped(conns)[k])
    ensures forall c :: c in conns ==> GroupKey(c) in Grouped(conns)
    decreases |conns|
  {
    if conns == [] {
    } else {
      var init, conn := conns[..|conns| - 1], conns[|conns| - 1];
      assert conns == init + [conn];
      GroupsAreShares(init);
      var groups := Grouped(init);
      var u := if GroupKey(conn) in groups then groups[GroupKey(conn)] else NewUsage(conn);
      GroupGrows(init, conns, u);
      forall k | k in groups && k != GroupKey(conn) ensures GroupOk(conns, k, groups[k]) {
        GroupStays(init, conns, k, groups[k]);
      }
    }
  }

  // ---------------------------------------------------------------- both groupings agree

  /** No flow's exe path prints like the name, or like the client's key, of a flow without one. */
  predicate Distinguishable(conns: seq<ConnectionInfo>) {
    forall i, j :: 0 <= i < |conns| && 0 <= j < |conns| && conns[i].exe.Some? && conns[j].exe.None? ==>
      && conns[i].exe.value.display != NameOf(conns[j])
      && conns[i].exe.value.display != "name:" + NameOf(conns[j])
  }

  predicate SameGroups(conns: seq<ConnectionInfo>) {
    forall i, j :: 0 <= i < |conns| && 0 <= j < |conns| ==>
      (GroupKey(conns[i]) == GroupKey(conns[j]) <==> AppKeyOf(conns[i]) == AppKeyOf(conns[j]))
  }

  lemma NameKeys(a: string, b: string)
    ensures "name:" + a == "name:" + b <==> a == b
    ensures "name:" + a != a
  {
    assert ("name:" + a)[5..] == a && ("name:" + b)[5..] == b;
    assert |"name:" + a| != |a|;
  }

  /** The daemon and the client group flows alike exactly when they are distinguishable. */
  lemma GroupingsAgreeIff(conns: seq<ConnectionInfo>)
    ensures SameGroups(conns) <==> Distinguishable(conns)
  {
    if Distinguishable(conns) {
      forall i, j | 0 <= i < |conns| && 0 <= j < |conns|
        ensures GroupKey(conns[i]) == GroupKey(conns[j]) <==> AppKeyOf(conns[i]) == AppKeyOf(conns[j])
      {
        NameKeys(NameOf(conns[i]), NameOf(conns[j]));
      }
    }
    if SameGroups(conns) {
      forall i, j | 0 <= i < |conns| && 0 <= j < |conns| && conns[i].exe.Some? && conns[j].exe.None?
        ensures conns[i].exe.value.display != NameOf(conns[j])
        ensures conns[i].exe.value.display != "name:" + NameOf(conns[j])
      {
        NameKeys(NameOf(conns[j]), NameOf(conns[j]));
        assert GroupKey(conns[i]) == GroupKey(conns[j]) <==> AppKeyOf(conns[i]) == AppKeyOf(conns[j]);
      }
    }
  }

  lemma {:induction false} SharesAgree(all: seq<ConnectionInfo>, conns: seq<ConnectionInfo>, c: ConnectionInfo,
                                       m: Measure)
    requires SameGroups(all) && c in all && forall d :: d in conns ==> d in all
    ensures Sum(conns, GroupShare(GroupKey(c), m)) == Sum(conns, AppShare(AppKeyOf(c), m))
    decreases |conns|
  {
    if conns == [] {
    } else {
      assert conns[0] in conns;
      SharesAgree(all, conns[1..], c, m);
      var i :| 0 <= i < |all| && all[i] == c;
      var j :| 0 <= j < |all| && all[j] == conns[0];
      assert GroupKey(all[j]) == GroupKey(all[i]) <==> AppKeyOf(all[j]) == AppKeyOf(all[i]);
    }
  }

  // -------------------------------------------------------------- the client's two ways

  function MeasureOf(m: Measure, apps: map<string, AppEntry>, a: string): nat {
    if a in apps then EntryOf(m, apps[a]) else 0
  }

  function KeyOfUsage(u: AppUsage): string {
    AppKey(u.exe, u.name)
  }

  ghost predicate DistinctUsages(top: seq<AppUsage>) {
    forall i, j :: 0 <= i < j < |top| ==> KeyOfUsage(top[i]) != KeyOfUsage(top[j])
  }

  lemma {:induction false} LoadedTop(top: seq<AppUsage>)
    requires DistinctUsages(top)
    ensures forall i :: 0 <= i < |top| ==>
              KeyOfUsage(top[i]) in LoadedApps(top) && LoadedApps(top)[KeyOfUsage(top[i])] == AppOfUsage(top[i])
    ensures forall a :: a in LoadedApps(top) ==> exists i :: 0 <= i < |top| && KeyOfUsage(top[i]) == a
    decreases |top|
  {
    if top == [] {
    } else {
      var init := top[..|top| - 1];
      LoadedTop(init);
      assert forall i :: 0 <= i < |init| ==> top[i] == init[i];
      forall a | a in LoadedApps(top) ensures exists i :: 0 <= i < |top| && KeyOfUsage(top[i]) == a {
        if a in LoadedApps(init) {
          var i :| 0 <= i < |init| && KeyOfUsage(init[i]) == a;
          assert KeyOfUsage(top[i]) == a;
        } else {
          assert KeyOfUsage(top[|top| - 1]) == a;
        }
      }
    }
  }

  lemma ReportedGroup(conns: seq<ConnectionInfo>, blocked: PathBuf -> bool, keys: seq<string>,
                      apps: seq<AppUsage>, i: nat)
    requires Reports(Grouped(conns), blocked, keys, apps) && i < |apps|
    ensures keys[i] in Grouped(conns) && apps[i] == Marked(Grouped(conns)[keys[i]], blocked)
    ensures GroupOk(conns, keys[i], Grouped(conns)[keys[i]])
  {
    GroupsAreShares(conns);
    assert keys[i] in Elems(keys);
  }

  lemma GroupMeasure(conns: seq<ConnectionInfo>, u: AppUsage, c: ConnectionInfo, m: Measure)
    requires GroupOk(conns, GroupKey(c), u) && SameGroups(conns) && c in conns
    ensures UsageOf(m, u) == Sum(conns, AppShare(AppKeyOf(c), m))
  {
    SharesAgree(conns, conns, c, m);
  }

  lemma MarkedMeasures(u: AppUsage, blocked: PathBuf -> bool)
    ensures forall m :: EntryOf(m, AppOfUsage(Marked(u, blocked))) == UsageOf(m, u)
  {
  }

  /** What the entry of a reported group holds for the client. */
  lemma ReportedEntry(conns: seq<ConnectionInfo>, blocked: PathBuf -> bool, keys: seq<string>,
                      apps: seq<AppUsage>, i: nat)
      returns (c: ConnectionInfo)
    requires Reports(Grouped(conns), blocked, keys, apps) && i < |apps| && SameGroups(conns)
    ensures c in conns && GroupKey(c) == keys[i] && KeyOfUsage(apps[i]) == AppKeyOf(c)
    ensures forall m :: EntryOf(m, AppOfUsage(apps[i])) == Sum(conns, AppShare(AppKeyOf(c), m))
  {
    ReportedGroup(conns, blocked, keys, apps, i);
    var u := Grouped(conns)[keys[i]];
    c :| c in conns && GroupKey(c) == keys[i] && u.exe == c.exe && u.name == NameOf(c);
    MarkedMeasures(u, blocked);
    forall m ensures EntryOf(m, AppOfUsage(apps[i])) == Sum(conns, AppShare(AppKeyOf(c), m)) {
      GroupMeasure(conns, u, c, m);
    }
  }

  lemma ReportIsDistinct(conns: seq<ConnectionInfo>, blocked: PathBuf -> bool, keys: seq<string>,
                         apps: seq<AppUsage>)
    requires Reports(Grouped(conns), blocked, keys, apps) && SameGroups(conns)
    ensures DistinctUsages(apps)
  {
    forall i, j | 0 <= i < j < |apps| ensures KeyOfUsage(apps[i]) != KeyOfUsage(apps[j]) {
      var c := ReportedEntry(conns, blocked, keys, apps, i);
      var d := ReportedEntry(conns, blocked, keys, apps, j);
      var x :| 0 <= x < |conns| && conns[x] == c;
      var y :| 0 <= y < |conns| && conns[y] == d;
      assert GroupKey(conns[x]) == GroupKey(conns[y]) <==> AppKeyOf(conns[x]) == AppKeyOf(conns[y]);
    }
  }

  lemma {:induction false} NoAppShare(conns: seq<ConnectionInfo>, a: string, m: Measure)
    requires forall c :: c in conns ==> AppKeyOf(c) != a
    ensures Sum(conns, AppShare(a, m)) == 0
    decreases |conns|
  {
    if conns == [] {
    } else {
      NoAppShare(conns[1..], a, m);
    }
  }

  lemma {:induction false} SomeAppShare(conns: seq<ConnectionInfo>, c: ConnectionInfo)
    requires c in conns
    ensures Sum(conns, AppShare(AppKeyOf(c), Flows)) >= 1
    decreases |conns|
  {
    if conns[0] == c {
    } else {
      SomeAppShare(conns[1..], c);
    }
  }

  /** Loading the daemon's report gives every app its share of the flows. */
  lemma LoadedReport(conns: seq<ConnectionInfo>, blocked: PathBuf -> bool, keys: seq<string>,
                     apps: seq<AppUsage>, a: string)
    requires Reports(Grouped(conns), blocked, keys, apps) && SameGroups(conns)
    ensures forall m :: MeasureOf(m, LoadedApps(apps), a) == Sum(conns, AppShare(a, m))
    ensures a in LoadedApps(apps) <==> Sum(conns, AppShare(a, Flows)) > 0
  {
    ReportIsDistinct(conns, blocked, keys, apps);
    LoadedTop(apps);
    if a in LoadedApps(apps) {
      var i :| 0 <= i < |apps| && KeyOfUsage(apps[i]) == a;
      var c := ReportedEntry(conns, blocked, keys, apps, i);
      SomeAppShare(conns, c);
    } else {
      forall c | c in conns ensures AppKeyOf(c) != a {
        GroupsAreShares(conns);
        assert GroupKey(c) in Elems(keys);
        var i :| 0 <= i < |keys| && keys[i] == GroupKey(c);
        var d := ReportedEntry(conns, blocked, keys, apps, i);
        var x :| 0 <= x < |conns| && conns[x] == c;
        var y :| 0 <= y < |conns| && conns[y] == d;
        assert GroupKey(conns[x]) == GroupKey(conns[y]) <==> AppKeyOf(conns[x]) == AppKeyOf(conns[y]);
      }
      forall m ensures Sum(conns, AppShare(a, m)) == 0 {
        NoAppShare(conns, a, m);
      }
    }
  }

  ghost predicate HasBlockRule(rules: seq<Rule>, a: string) {
    exists r :: r in rules && r.action == Block && r.exePath.display == a
  }

  /** A refresh keeps entries with connections and adds nothing but empty entries for blocks. */
  lemma RefreshKeepsMeasures(apps: map<string, AppEntry>, rules: seq<Rule>, a: string)
    requires KeyedApps(apps) && forall k :: k in apps ==> apps[k].connections > 0
    ensures forall m :: MeasureOf(m, Refreshed(apps, rules), a) == MeasureOf(m, apps, a)
    ensures a in Refreshed(apps, rules) <==> a in apps || HasBlockRule(rules, a)
  {
    WithBlockedAppsOwner(apps, rules, a);
    OwnerFacts(Get(apps, a), rules, a);
    var owner := Owner(Get(apps, a), rules, a);
    if owner.Some? && a !in apps {
      var r :| r in rules && r.action == Block && r.exePath.display == a && owner.value == AppOfRule(r);
      FlaggedIsExact(rules, owner.value);
      assert Blocks(r, owner.value.exe);
    }
  }

  lemma {:induction false} OwnerFacts(before: Option<AppEntry>, rules: seq<Rule>, key: string)
    ensures before.Some? ==> Owner(before, rules, key) == before
    ensures before.None? ==> (Owner(before, rules, key).Some? <==> HasBlockRule(rules, key))
    ensures before.None? && Owner(before, rules, key).Some? ==>
              exists r :: r in rules && r.action == Block && r.exePath.display == key
                          && Owner(before, rules, key).value == AppOfRule(r)
    decreases |rules|
  {
    if before.Some? || rules == [] {
    } else {
      OwnerFacts(before, rules[1..], key);
      assert rules == [rules[0]] + rules[1..];
    }
  }

  lemma LoadedHaveFlows(conns: seq<ConnectionInfo>, blocked: PathBuf -> bool, keys: seq<string>,
                        top: seq<AppUsage>)
    requires Reports(Grouped(conns), blocked, keys, top) && SameGroups(conns)
    ensures forall k :: k in LoadedApps(top) ==> LoadedApps(top)[k].connections > 0
  {
    forall k | k in LoadedApps(top) ensures LoadedApps(top)[k].connections > 0 {
      LoadedReport(conns, blocked, keys, top, k);
      assert MeasureOf(Flows, LoadedApps(top), k) == Sum(conns, AppShare(k, Flows));
    }
  }

  lemma SampledMeasures(apps: map<string, AppEntry>, a: string)
    ensures forall m :: MeasureOf(m, Sampled(apps), a) == MeasureOf(m, apps, a)
    ensures a in Sampled(apps) <==> a in apps
  {
  }

  lemma SnapshotShares(conns: seq<ConnectionInfo>, blocked: PathBuf -> bool, keys: seq<string>,
                       v: View, s: Input, a: string)
    requires s.Snapshot? && Reports(Grouped(conns), blocked, keys, s.top) && SameGroups(conns)
    ensures forall m :: MeasureOf(m, AfterSnapshot(v, s).apps, a) == Sum(conns, AppShare(a, m))
    ensures a in AfterSnapshot(v, s).apps <==> Sum(conns, AppShare(a, Flows)) > 0 || HasBlockRule(s.rules, a)
  {
    var loaded := LoadedApps(s.top);
    var refreshed := Refreshed(loaded, s.rules);
    assert AfterSnapshot(v, s).apps == Sampled(refreshed);
    LoadedReport(conns, blocked, keys, s.top, a);
    LoadedAppsKeyed(s.top);
    LoadedHaveFlows(conns, blocked, keys, s.top);
    RefreshKeepsMeasures(loaded, s.rules, a);
    SampledMeasures(refreshed, a);
  }

  lemma OpenAdds(v: View, conn: ConnectionInfo, a: string, m: Measure)
    requires conn.key !in v.conns
    ensures MeasureOf(m, Upsert(v, conn, true).apps, a)
            == MeasureOf(m, v.apps, a) + if AppKeyOf(conn) == a then WeightOf(m, conn) else 0
  {
  }

  lemma OpenLists(v: View, conn: ConnectionInfo, a: string)
    ensures a in Upsert(v, conn, true).apps <==> a in v.apps || AppKeyOf(conn) == a
  {
  }

  lemma {:induction false} CappedKeys(ix: Index)
    ensures Capped(ix).conns.Keys <= ix.conns.Keys
    decreases |ix.order|
  {
    if |ix.conns| > MAX_CONNECTIONS && ix.order != [] {
      CappedKeys(Index(ix.conns - {ix.order[0]}, ix.order[1..]));
    }
  }

  function KeysOf(conns: seq<ConnectionInfo>): set<string> {
    set c | c in conns :: c.key
  }

  lemma FoldedLast(v: View, conns: seq<ConnectionInfo>)
    requires conns != []
    ensures Fold(v, OpenedStream(conns))
            == Upsert(Fold(v, OpenedStream(conns[..|conns| - 1])), conns[|conns| - 1], true)
  {
    assert OpenedStream(conns)[..|conns| - 1] == OpenedStream(conns[..|conns| - 1]);
  }

  lemma UpsertedKeys(v: View, conn: ConnectionInfo)
    ensures Upsert(v, conn, true).conns.Keys <= v.conns.Keys + {conn.key}
  {
    CappedKeys(Stored(IndexOf(v), conn));
  }

  lemma {:induction false} FoldedKeys(v: View, conns: seq<ConnectionInfo>)
    ensures Fold(v, OpenedStream(conns)).conns.Keys <= v.conns.Keys + KeysOf(conns)
    decreases |conns|
  {
    if conns == [] {
    } else {
      var init, last := conns[..|conns| - 1], conns[|conns| - 1];
      assert conns == init + [last];
      assert KeysOf(conns) == KeysOf(init) + {last.key};
      FoldedKeys(v, init);
      FoldedLast(v, conns);
      UpsertedKeys(Fold(v, OpenedStream(init)), last);
    }
  }

  lemma LastIsUnknown(v: View, conns: seq<ConnectionInfo>)
    requires DistinctKeys(conns) && v.conns.Keys !! KeysOf(conns) && conns != []
    ensures conns[|conns| - 1].key !in Fold(v, OpenedStream(conns[..|conns| - 1])).conns
    ensures v.conns.Keys !! KeysOf(conns[..|conns| - 1])
  {
    var init, last := conns[..|conns| - 1], conns[|conns| - 1];
    FoldedKeys(v, init);
    assert KeysOf(init) <= KeysOf(conns) && last.key in KeysOf(conns);
    assert last.key !in KeysOf(init);
  }

  lemma ShareGrows(conns: seq<ConnectionInfo>, a: string, m: Measure)
    requires conns != []
    ensures var init, last := conns[..|conns| - 1], conns[|conns| - 1];
            Sum(conns, AppShare(a, m))
            == Sum(init, AppShare(a, m)) + if AppKeyOf(last) == a then WeightOf(m, last) else 0
  {
    SumLast(conns, AppShare(a, m));
  }

  /** Opening flows one by one gives every app its share of them, however many the cap evicts. */
  lemma {:induction false} FoldedOpens(v: View, conns: seq<ConnectionInfo>, a: string, m: Measure)
    requires DistinctKeys(conns) && v.conns.Keys !! KeysOf(conns)
    ensures MeasureOf(m, Fold(v, OpenedStream(conns)).apps, a) == MeasureOf(m, v.apps, a) + Sum(conns, AppShare(a, m))
    decreases |conns|
  {
    if conns == [] {
    } else {
      var init, last := conns[..|conns| - 1], conns[|conns| - 1];
      LastIsUnknown(v, conns);
      FoldedOpens(v, init, a, m);
      FoldedLast(v, conns);
      OpenAdds(Fold(v, OpenedStream(init)), last, a, m);
      ShareGrows(conns, a, m);
    }
  }

  lemma FoldedLastLists(v: View, conns: seq<ConnectionInfo>, a: string)
    requires conns != []
    ensures a in Fold(v, OpenedStream(conns)).apps <==>
            a in Fold(v, OpenedStream(conns[..|conns| - 1])).apps || AppKeyOf(conns[|conns| - 1]) == a
  {
    FoldedLast(v, conns);
    OpenLists(Fold(v, OpenedStream(conns[..|conns| - 1])), conns[|conns| - 1], a);
  }

  function AppKeysOf(conns: seq<ConnectionInfo>): set<string> {
    set c | c in conns :: AppKeyOf(c)
  }

  lemma AppKeysGrow(conns: seq<ConnectionInfo>)
    requires conns != []
    ensures AppKeysOf(conns) == AppKeysOf(conns[..|conns| - 1]) + {AppKeyOf(conns[|conns| - 1])}
  {
    assert conns == conns[..|conns| - 1] + [conns[|conns| - 1]];
  }

  lemma SharesArePositive(conns: seq<ConnectionInfo>, a: string)
    ensures Sum(conns, AppShare(a, Flows)) > 0 <==> a in AppKeysOf(conns)
  {
    if c :| c in conns && AppKeyOf(c) == a {
      SomeAppShare(conns, c);
    } else {
      NoAppShare(conns, a, Flows);
    }
  }

  lemma {:induction false} FoldedApps(v: View, conns: seq<ConnectionInfo>, a: string)
    ensures a in Fold(v, OpenedStream(conns)).apps <==> a in v.apps || a in AppKeysOf(conns)
    decreases |conns|
  {
    if conns == [] {
      assert OpenedStream(conns) == [];
    } else {
      FoldedApps(v, conns[..|conns| - 1], a);
      FoldedLastLists(v, conns, a);
      AppKeysGrow(conns);
    }
  }

  lemma FoldedPresence(v: View, conns: seq<ConnectionInfo>, a: string)
    ensures a in Fold(v, OpenedStream(conns)).apps <==> a in v.apps || Sum(conns, AppShare(a, Flows)) > 0
  {
    FoldedApps(v, conns, a);
    SharesArePositive(conns, a);
  }

  /** Both ways of filling the app table agree. `first` is the snapshot of a client that fetched
      the daemon's report on the flows `conns`; `empty` is a snapshot of an empty daemon with the
      same rules, after which the same flows are opened in any order `opened`. The same apps are
      listed, with the same bytes and the same numbers of flows, even past the client's cap. */
  lemma AggregationsAgree(conns: seq<ConnectionInfo>, blocked: PathBuf -> bool, keys: seq<string>,
                          v: View, first: Input, empty: Input, reopened: seq<ConnectionInfo>,
                          a: string, m: Measure)
    requires first.Snapshot? && Reports(Grouped(conns), blocked, keys, first.top)
    requires empty.Snapshot? && empty.top == [] && empty.conns == [] && empty.rules == first.rules
    requires Distinguishable(conns) && DistinctKeys(reopened) && multiset(reopened) == multiset(conns)
    ensures var snapshot, folded := AfterSnapshot(v, first), Fold(AfterSnapshot(v, empty), OpenedStream(reopened));
            && MeasureOf(m, snapshot.apps, a) == MeasureOf(m, folded.apps, a)
            && (a in snapshot.apps <==> a in folded.apps)
  {
    GroupingsAgreeIff(conns);
    SnapshotShares(conns, blocked, keys, v, first, a);
    EmptySnapshot(v, empty, a);
    var start := AfterSnapshot(v, empty);
    FoldedOpens(start, reopened, a, m);
    FoldedPresence(start, reopened, a);
    SumPermutation(reopened, conns, AppShare(a, m));
    SumPermutation(reopened, conns, AppShare(a, Flows));
  }

  lemma EmptySnapshot(v: View, empty: Input, a: string)
    requires empty.Snapshot? && empty.top == [] && empty.conns == []
    ensures AfterSnapshot(v, empty).conns == map[]
    ensures forall m :: MeasureOf(m, AfterSnapshot(v, empty).apps, a) == 0
    ensures a in AfterSnapshot(v, empty).apps <==> HasBlockRule(empty.rules, a)
  {
    RefreshKeepsMeasures(map[], empty.rules, a);
    assert LoadedApps([]) == map[];
    SampledMeasures(Refreshed(map[], empty.rules), a);
  }

  // --------------------------------------------------------- a consistent snapshot exists

  lemma {:induction false} ShareIsFlows(conns: seq<ConnectionInfo>, a: string)
    requires DistinctKeys(conns)
    ensures |FlowsOf(Loaded(conns).conns, a)| == Sum(conns, AppShare(a, Flows))
    decreases |conns|
  {
    if conns == [] {
    } else {
      var init, last := conns[..|conns| - 1], conns[|conns| - 1];
      ShareIsFlows(init, a);
      SumLast(conns, AppShare(a, Flows));
      LastKeyIsNew(conns);
      StoredFlows(Loaded(init).conns, last, a);
    }
  }

  /** Both lists have as many flows of each app. The client asks for its report and for its flow list
      one after the other, so the two may be of different tables. */
  ghost predicate SameShares(conns: seq<ConnectionInfo>, list: seq<ConnectionInfo>) {
    forall a :: Sum(conns, AppShare(a, Flows)) == Sum(list, AppShare(a, Flows))
  }

  lemma OneTableSameShares(conns: seq<ConnectionInfo>, list: seq<ConnectionInfo>)
    requires multiset(list) == multiset(conns)
    ensures SameShares(conns, list)
  {
    forall a ensures Sum(conns, AppShare(a, Flows)) == Sum(list, AppShare(a, Flows)) {
      SumPermutation(list, conns, AppShare(a, Flows));
    }
  }

  lemma SnapshotCounts(conns: seq<ConnectionInfo>, blocked: PathBuf -> bool, keys: seq<string>,
                       v: View, s: Input, a: string)
    requires s.Snapshot? && Reports(Grouped(conns), blocked, keys, s.top)
    requires Distinguishable(conns) && DistinctKeys(s.conns)
    ensures Count(AfterSnapshot(v, s).apps, a) == Sum(conns, AppShare(a, Flows))
    ensures |FlowsOf(AfterSnapshot(v, s).conns, a)| == Sum(s.conns, AppShare(a, Flows))
  {
    GroupingsAgreeIff(conns);
    SnapshotShares(conns, blocked, keys, v, s, a);
    assert MeasureOf(Flows, AfterSnapshot(v, s).apps, a) == Sum(conns, AppShare(a, Flows));
    ShareIsFlows(s.conns, a);
  }

  /** A snapshot starts with right accounts exactly when its report and its flow list have as many
      flows of each app, as they have if they are of one table. */
  lemma SnapshotAccountedIff(conns: seq<ConnectionInfo>, blocked: PathBuf -> bool,
                             keys: seq<string>, v: View, s: Input)
    requires s.Snapshot? && Reports(Grouped(conns), blocked, keys, s.top)
    requires Distinguishable(conns) && DistinctKeys(s.conns)
    ensures Accounted(AfterSnapshot(v, s)) <==> SameShares(conns, s.conns)
    ensures multiset(s.conns) == multiset(conns) ==> Accounted(AfterSnapshot(v, s))
  {
    var w := AfterSnapshot(v, s);
    forall a ensures Count(w.apps, a) == Sum(conns, AppShare(a, Flows))
                     && |FlowsOf(w.conns, a)| == Sum(s.conns, AppShare(a, Flows)) {
      SnapshotCounts(conns, blocked, keys, v, s, a);
    }
    if multiset(s.conns) == multiset(conns) {
      OneTableSameShares(conns, s.conns);
    }
  }

  /** A whole session without overlap: a client that fetched a report and the flows of one poll's
      table, and then heard everything the daemon broadcast, has right accounts throughout exactly
      when the report has as many flows of each app as the list, and every poll that reports a flow
      leaves a table that fits under the client's cap. */
  lemma {:induction false} SessionKeepsAccountsIff(conns: seq<ConnectionInfo>, blocked: PathBuf -> bool,
                                                   keys: seq<string>, v: View, s: Input,
                                                   tables: seq<map<string, ConnectionInfo>>, batches: seq<seq<Event>>,
                                                   log: seq<Event>)
    requires s.Snapshot? && Reports(Grouped(conns), blocked, keys, s.top) && Distinguishable(conns)
    requires PollsFrom(tables, batches) && Lists(s.conns, tables[0]) && OnlyFlowEvents(log) == Stream(batches)
    ensures AccountedThroughout(AfterSnapshot(v, s), log) <==> SameShares(conns, s.conns) && TablesFit(tables, batches)
    ensures TablesFit(tables, batches) ==> Fold(AfterSnapshot(v, s), log).conns == tables[|batches|]
  {
    var start := AfterSnapshot(v, s);
    SnapshotAccountedIff(conns, blocked, keys, v, s);
    ListedIsLoaded(s.conns, tables[0]);
    PollsInStepIff(tables, batches, log, start);
    if Accounted(start) {
      PollsAccountIff(start, tables, batches, log);
    } else {
      NotFromTheStart(start, log);
    }
  }

  lemma NotFromTheStart(v: View, events: seq<Event>)
    requires !Accounted(v)
    ensures !AccountedThroughout(v, events)
  {
    assert events[..0] == [];
    assert Fold(v, events[..0]) == v;
  }

  /** A session that subscribed at event `i` and asked after event `k`, overlap included: it shows
      the replayed flows, from `k` on the daemon's, and right accounts throughout exactly when the
      report has as many flows of each app as the list, every report it hears leaves room, and every
      update it hears is of a flow that its replay knows, under the same app. */
  lemma OverlappingSessionIff(conns: seq<ConnectionInfo>, blocked: PathBuf -> bool,
                              keys: seq<string>, v: View, s: Input, stream: seq<Event>, i: nat,
                              k: nat, n: nat)
    requires s.Snapshot? && Reports(Grouped(conns), blocked, keys, s.top) && Distinguishable(conns)
    requires i <= k <= n <= |stream| && Lists(s.conns, TableAfter(stream, k))
    ensures var start, heard := AfterSnapshot(v, s), stream[i..n];
            InStep(start, heard) && AccountedThroughout(start, heard)
            <==> SameShares(conns, s.conns)
                 && Roomy(TableAfter(stream, k), heard) && Always(Steady, TableAfter(stream, k), heard)
    ensures InStep(AfterSnapshot(v, s), stream[i..n]) ==> Follows(AfterSnapshot(v, s), stream, i, k, n)
  {
    var start := AfterSnapshot(v, s);
    SnapshotAccountedIff(conns, blocked, keys, v, s);
    ListedIsLoaded(s.conns, TableAfter(stream, k));
    ClientConverges(stream, i, k, n, v, s);
    if Accounted(start) {
      InStepAndAccountedIff(start, stream[i..n]);
    } else {
      NotFromTheStart(start, stream[i..n]);
    }
  }

  // ------------------------------------------------- the apps' bytes and the session total

  function BytesOf(side: Side): Measure {
    if side == Up then SentBytes else RecvBytes
  }

  lemma LastUsageIsNew(top: seq<AppUsage>)
    requires DistinctUsages(top) && top != []
    ensures KeyOfUsage(top[|top| - 1]) !in LoadedApps(top[..|top| - 1])
  {
    var init := top[..|top| - 1];
    LoadedTop(init);
    forall i | 0 <= i < |init| ensures KeyOfUsage(init[i]) != KeyOfUsage(top[|top| - 1]) {
      assert init[i] == top[i];
    }
  }

  lemma {:induction false} LoadedBytes(top: seq<AppUsage>, side: Side)
    requires DistinctUsages(top)
    ensures Listed(LoadedApps(top), side) == Sum(top, Counts(BytesOf(side)))
    decreases |top|
  {
    if top == [] {
    } else {
      var init, last := top[..|top| - 1], top[|top| - 1];
      LoadedBytes(init, side);
      LastUsageIsNew(top);
      SumLast(top, Counts(BytesOf(side)));
      MapSumUpdate(LoadedApps(init), AppBy(side), KeyOfUsage(last), AppOfUsage(last));
    }
  }

  lemma SampledBytes(apps: map<string, AppEntry>, side: Side)
    ensures Listed(Sampled(apps), side) == Listed(apps, side)
  {
    MapSumSame(Sampled(apps), apps, AppBy(side));
  }

  lemma RefreshedReportBytes(conns: seq<ConnectionInfo>, blocked: PathBuf -> bool,
                             keys: seq<string>, top: seq<AppUsage>, rules: seq<Rule>, side: Side)
    requires Reports(Grouped(conns), blocked, keys, top) && SameGroups(conns)
    ensures Listed(Refreshed(LoadedApps(top), rules), side) == Listed(LoadedApps(top), side)
  {
    var loaded := LoadedApps(top);
    var refreshed := Refreshed(loaded, rules);
    LoadedAppsKeyed(top);
    LoadedHaveFlows(conns, blocked, keys, top);
    RefreshKeepsBytes(loaded, rules, side);
    KeptBytesBalance(loaded, refreshed, side);
    forall a | a in loaded ensures a in refreshed {
      RefreshKeepsMeasures(loaded, rules, a);
    }
    assert loaded.Keys - refreshed.Keys == {};
    assert Restricted(loaded, {}) == map[];
  }

  lemma {:induction false} SumSame<T>(xs: seq<T>, f: T -> nat, g: T -> nat)
    requires forall x :: x in xs ==> f(x) == g(x)
    ensures Sum(xs, f) == Sum(xs, g)
    decreases |xs|
  {
    if xs == [] {
    } else {
      SumSame(xs[1..], f, g);
    }
  }

  /** Right after a snapshot the session total is the bytes of the flow list, and the apps have the
      bytes of the report. */
  lemma SnapshotBytes(conns: seq<ConnectionInfo>, blocked: PathBuf -> bool, keys: seq<string>,
                      v: View, s: Input, side: Side)
    requires s.Snapshot? && Reports(Grouped(conns), blocked, keys, s.top) && Distinguishable(conns)
    ensures Total(AfterSnapshot(v, s), side) == Sum(s.conns, By(side))
    ensures Listed(AfterSnapshot(v, s).apps, side) == Sum(conns, By(side))
  {
    GroupingsAgreeIff(conns);
    ReportIsDistinct(conns, blocked, keys, s.top);
    LoadedBytes(s.top, side);
    RefreshedReportBytes(conns, blocked, keys, s.top, s.rules, side);
    SampledBytes(Refreshed(LoadedApps(s.top), s.rules), side);
    TopConserves(conns, blocked, keys, s.top, BytesOf(side));
    SumSame(conns, By(side), Weigh(BytesOf(side)));
  }

  /** In every run from a snapshot the session total and the bytes of the apps, listed or gone from
      the list, differ by what the flow list and the report did: by nothing if they are of one table. */
  lemma {:induction false} SessionBytesBalance(conns: seq<ConnectionInfo>, blocked: PathBuf -> bool, keys: seq<string>,
                                               v: View, s: Input, inputs: seq<Input>, side: Side)
    requires s.Snapshot? && Reports(Grouped(conns), blocked, keys, s.top)
    requires Distinguishable(conns) && NoSnapshot(inputs)
    ensures var start := AfterSnapshot(v, s);
            Total(Run(start, inputs), side) + Sum(conns, By(side))
            == Listed(Run(start, inputs).apps, side) + UnlistedIn(start, inputs, side) + Sum(s.conns, By(side))
    ensures multiset(s.conns) == multiset(conns) ==> Sum(s.conns, By(side)) == Sum(conns, By(side))
  {
    SnapshotBytes(conns, blocked, keys, v, s, side);
    AppBytesBalance(AfterSnapshot(v, s), inputs, side);
    if multiset(s.conns) == multiset(conns) {
      SumPermutation(s.conns, conns, By(side));
    }
  }

  // ---------------------------------------------------------- an overlap that does harm

  function WithOneMore(x: ConnectionInfo): ConnectionInfo {
    x.(bytesSent := x.bytesSent + 1)
  }

  /** Three polls: `x` and `y` open, `x` moves a byte, `x` closes. */
  function ThreeTables(x: ConnectionInfo, y: ConnectionInfo): seq<map<string, ConnectionInfo>> {
    [map[], map[x.key := x, y.key := y], map[x.key := WithOneMore(x), y.key := y], map[y.key := y]]
  }

  function ThreeBatches(x: ConnectionInfo, y: ConnectionInfo): seq<seq<Event>> {
    [[ConnectionOpened(x), ConnectionOpened(y)], [ConnectionUpdated(WithOneMore(x))], [ConnectionClosed(x.key)]]
  }

  lemma ThreePolls(x: ConnectionInfo, y: ConnectionInfo)
    requires x.key != y.key
    ensures PollRun(ThreeTables(x, y), ThreeBatches(x, y))
  {
    var tables := ThreeTables(x, y);
    FirstOfThree(x, y);
    SingleBatch(tables[1], tables[2], ConnectionUpdated(WithOneMore(x)), x.key);
    SingleBatch(tables[2], tables[3], ConnectionClosed(x.key), x.key);
  }

  lemma StreamOfThree(a: seq<Event>, b: seq<Event>, c: seq<Event>)
    ensures Stream([a, b, c]) == a + (b + c)
  {
    assert [a, b, c][..2] == [a, b] && [a, b][..1] == [a] && [a][..0] == [];
    assert Stream([a]) == a;
    assert Stream([a, b]) == a + b;
  }

  lemma FirstOfThree(x: ConnectionInfo, y: ConnectionInfo)
    requires x.key != y.key
    ensures PollBatch(map[], map[x.key := x, y.key := y], [ConnectionOpened(x), ConnectionOpened(y)])
  {
    var conns := [x, y];
    OpenedIsPublication(conns);
    assert OpenedStream(conns) == [ConnectionOpened(x), ConnectionOpened(y)];
    assert conns[..1] == [x] && conns[..1][..0] == [];
    assert Loaded([x]).conns == map[x.key := x];
    assert Loaded(conns).conns == map[x.key := x, y.key := y];
  }

  lemma SingleBatch(before: map<string, ConnectionInfo>, after: map<string, ConnectionInfo>,
                    event: Event, key: string)
    requires Announces(event, before, after) && KeyOfEvent(event) == Some(key)
    requires forall k :: k != key ==> Get(before, k) == Get(after, k)
    ensures PollBatch(before, after, [event])
  {
    forall k | Get(before, k) != Get(after, k) ensures exists e :: e in [event] && KeyOfEvent(e) == Some(k) {
      assert event in [event];
    }
    OncePerEvent([event]);
  }

  /** What a client hears twice that subscribes after the first poll and asks after the last. */
  function HeardTwice(x: ConnectionInfo): seq<Event> {
    [ConnectionUpdated(WithOneMore(x)), ConnectionClosed(x.key)]
  }

  /** The overlap between subscription and snapshot is not harmless for the accounts. A client
      subscribes after the first of the three polls and takes its snapshot after the last: it then
      hears of the update and the close of `x` once more. It started with right accounts and ends
      with the right flow map, but without the app of the live flow `y`. */
  lemma OverlapDropsLiveApp(x: ConnectionInfo, y: ConnectionInfo, blocked: PathBuf -> bool,
                            keys: seq<string>, v: View, s: Input)
    requires x.key != y.key && AppKeyOf(x) == AppKeyOf(y)
    requires s.Snapshot? && s.conns == [y] && s.rules == [] && Reports(Grouped([y]), blocked, keys, s.top)
    ensures PollRun(ThreeTables(x, y), ThreeBatches(x, y))
    ensures Stream(ThreeBatches(x, y)) == ThreeBatches(x, y)[0] + HeardTwice(x)
    ensures Lists(s.conns, ThreeTables(x, y)[3]) && Accounted(AfterSnapshot(v, s))
    ensures Fold(AfterSnapshot(v, s), HeardTwice(x)).conns == ThreeTables(x, y)[3]
    ensures AppKeyOf(y) !in Fold(AfterSnapshot(v, s), HeardTwice(x)).apps
  {
    ThreePolls(x, y);
    StreamOfThree(ThreeBatches(x, y)[0], ThreeBatches(x, y)[1], ThreeBatches(x, y)[2]);
    OneFlowSnapshot(v, s, y, blocked, keys);
    HearingTwiceDrops(AfterSnapshot(v, s), x, y);
  }

  lemma HearingTwiceDrops(start: View, x: ConnectionInfo, y: ConnectionInfo)
    requires x.key != y.key && AppKeyOf(x) == AppKeyOf(y)
    requires start.conns == map[y.key := y] && start.order == [y.key] && start.rules == []
    requires AppKeyOf(y) in start.apps && start.apps[AppKeyOf(y)].connections == 1
    ensures Fold(start, HeardTwice(x)).conns == map[y.key := y] && AppKeyOf(y) !in Fold(start, HeardTwice(x)).apps
  {
    TwoEvents(start, HeardTwice(x)[0], HeardTwice(x)[1]);
    StaleUpdateDropsApp(start, WithOneMore(x), y);
  }

  lemma TwoEvents(v: View, a: Event, b: Event)
    ensures Fold(v, [a, b]) == AfterEvent(AfterEvent(v, a), b)
  {
    assert [a, b][..1] == [a] && [a][..0] == [];
    assert Fold(v, [a]) == AfterEvent(v, a);
  }

  lemma OneFlowSnapshot(v: View, s: Input, y: ConnectionInfo, blocked: PathBuf -> bool,
                        keys: seq<string>)
    requires s.Snapshot? && s.conns == [y] && s.rules == [] && Reports(Grouped([y]), blocked, keys, s.top)
    ensures Lists(s.conns, map[y.key := y]) && Accounted(AfterSnapshot(v, s))
    ensures var w := AfterSnapshot(v, s);
            && w.conns == map[y.key := y] && w.order == [y.key] && w.rules == []
            && AppKeyOf(y) in w.apps && w.apps[AppKeyOf(y)].connections == 1
  {
    SnapshotAccountedIff([y], blocked, keys, v, s);
    OneFlowState(AfterSnapshot(v, s), y);
  }

  lemma OneFlowState(w: View, y: ConnectionInfo)
    requires IndexOf(w) == Loaded([y]) && Accounted(w)
    ensures w.conns == map[y.key := y] && w.order == [y.key]
    ensures AppKeyOf(y) in w.apps && w.apps[AppKeyOf(y)].connections == 1
  {
    assert [y][..0] == [];
    assert Loaded([y]) == Index(map[y.key := y], [y.key]);
    assert FlowsOf(w.conns, AppKeyOf(y)) == {y.key};
    assert Count(w.apps, AppKeyOf(y)) == 1;
  }

  // ----------------------------------------------------- flows that are grouped differently

  /** A process without an exe path may be called what another's path prints as: the daemon puts
      the two flows in one group, the client in two. */
  lemma NamesakesAreGroupedApart(c: ConnectionInfo, d: ConnectionInfo)
    requires c.key != d.key && c.exe == Some(PathBuf("/bin/x", []))
    requires d.exe == None && d.processName == Some("/bin/x")
    ensures DistinctKeys([c, d]) && !Distinguishable([c, d]) && !SameGroups([c, d])
    ensures |Grouped([c, d])| == 1 && AppKeyOf(c) != AppKeyOf(d)
  {
    var conns := [c, d];
    assert conns[..1] == [c] && conns[..1][..0] == [];
    assert Grouped([c]).Keys == {"/bin/x"};
    assert Grouped(conns).Keys == {"/bin/x"};
    assert |Grouped(conns)| == |Grouped(conns).Keys|;
    NameKeys("/bin/x", "/bin/x");
    assert conns[0].exe.Some? && conns[1].exe.None?;
    GroupingsAgreeIff(conns);
  }
}
