/**
 Publishing rule changes (crates/daemon/src/main.rs) and mirroring them in a client.
 */
module RuleMirror {
  import opened Types
  import opened Rules
  import C = Client
  import CR = ClientRules

  // ------------------------------------------------------------ the daemon's side

  /** What an operation on the store publishes. */
  function Published(s: Store, op: Op, now: int): seq<Event> {
    match op
    case AddOp(input) => if Refused(input) then [] else [RuleAdded(NewRule(s.nextId, input, now))]
    case RemoveOp(id) => if IndexOfId(s.rules, id).Some? then [RuleRemoved(id)] else []
    case ReapOp => Removals(ExpiredIds(s.rules, now))
    case _ => []
  }

  function Removals(ids: seq<nat>): seq<Event> {
    if ids == [] then [] else Removals(ids[..|ids| - 1]) + [RuleRemoved(ids[|ids| - 1])]
  }

  class RuleService {
    const store: RuleStore
    var published: seq<Event>

    constructor (store: RuleStore)
      ensures this.store == store && published == []
    {
      this.store := store;
      published := [];
    }

    /** The AddRule branch of `dispatch`. */
    method AddRule(input: RuleInput, now: int, io: FileSystem)
      modifies this, store
      ensures store.Value() == Added(old(store.Value()), input, now, io.Works())
      ensures published == old(published) + Published(old(store.Value()), AddOp(input), now)
    {
      var stored := store.Add(input, now, io);
      if stored.Some? {
        published := published + [RuleAdded(stored.value)];
      }
    }

    /** The RemoveRule branch of `dispatch`: false stands for its error answer. */
    method RemoveRule(id: nat, now: int, io: FileSystem) returns (ok: bool)
      modifies this, store
      ensures store.Value() == Removed(old(store.Value()), id, io.Works())
      ensures published == old(published) + Published(old(store.Value()), RemoveOp(id), now)
      ensures ok <==> exists r :: r in old(store.rules) && r.id == id
    {
      IndexOfIdFinds(store.rules, id);
      var rule := store.Remove(id, io);
      ok := rule.Some?;
      if ok {
        published := published + [RuleRemoved(id)];
      }
    }

    /** One round of `reaper_loop`. */
    method ReapRound(now: int, io: FileSystem)
      modifies this, store
      ensures store.Value() == Reaped(old(store.Value()), now, io.Works())
      ensures published == old(published) + Published(old(store.Value()), ReapOp, now)
    {
      var ids := store.ReapExpired(now, io);
      for i := 0 to |ids|
        invariant published == old(published) + Removals(ids[..i])
        invariant store.Value() == Reaped(old(store.Value()), now, io.Works())
      {
        published := published + [RuleRemoved(ids[i])];
        assert ids[..i + 1][..i] == ids[..i];
      }
      assert ids[..|ids|] == ids;
    }
  }

  // -------------------------------------------------- changes of the rules, one at a time

  datatype Book = Book(nextId: nat, rules: seq<Rule>)

  datatype Change = Put(rule: Rule) | Drop(id: nat)

  ghost predicate Valid(b: Book, c: Change) {
    match c
    case Put(rule) => rule.id == b.nextId
    case Drop(id) => exists r :: r in b.rules && r.id == id
  }

  function Changed(b: Book, c: Change): Book {
    match c
    case Put(rule) => Book(b.nextId + 1, OtherRules(b.rules, rule.exePath, rule.action) + [rule])
    case Drop(id) => Book(b.nextId, C.WithoutRule(b.rules, id))
  }

  function Announced(c: Change): Event {
    match c
    case Put(rule) => RuleAdded(rule)
    case Drop(id) => RuleRemoved(id)
  }

  function BookAfter(b: Book, changes: seq<Change>): Book
    decreases |changes|
  {
    if changes == [] then b else BookAfter(Changed(b, changes[0]), changes[1..])
  }

  ghost predicate ValidRun(b: Book, changes: seq<Change>)
    decreases |changes|
  {
    changes == [] || (Valid(b, changes[0]) && ValidRun(Changed(b, changes[0]), changes[1..]))
  }

  /** The client's list after hearing of the changes. */
  function Heard(rules: seq<Rule>, changes: seq<Change>): seq<Rule>
    decreases |changes|
  {
    if changes == [] then rules else Heard(C.RulesAfter(rules, Announced(changes[0])), changes[1..])
  }

  function AllAnnounced(changes: seq<Change>): seq<Event> {
    if changes == [] then [] else [Announced(changes[0])] + AllAnnounced(changes[1..])
  }

  function BookOf(s: Store): Book {
    Book(s.nextId, s.rules)
  }

  function Drops(ids: seq<nat>): seq<Change> {
    if ids == [] then [] else [Drop(ids[0])] + Drops(ids[1..])
  }

  /** The changes an operation on the store makes, in the order they are published. */
  function ChangesOf(s: Store, op: Op, now: int): seq<Change> {
    match op
    case AddOp(input) => if Refused(input) then [] else [Put(NewRule(s.nextId, input, now))]
    case RemoveOp(id) => if IndexOfId(s.rules, id).Some? then [Drop(id)] else []
    case ReapOp => Drops(ExpiredIds(s.rules, now))
    case _ => []
  }

  lemma {:induction false} AnnouncedDrops(ids: seq<nat>, last: nat)
    ensures AllAnnounced(Drops(ids + [last])) == AllAnnounced(Drops(ids)) + [RuleRemoved(last)]
    decreases |ids|
  {
    if ids == [] {
      assert ids + [last] == [last];
      assert Drops([last]) == [Drop(last)];
      assert AllAnnounced([Drop(last)]) == [RuleRemoved(last)];
    } else {
      assert (ids + [last])[1..] == ids[1..] + [last];
      AnnouncedDrops(ids[1..], last);
      assert Drops(ids + [last])[1..] == Drops(ids[1..] + [last]);
      assert Drops(ids)[1..] == Drops(ids[1..]);
    }
  }

  lemma {:induction false} RemovalsAreDrops(ids: seq<nat>)
    ensures AllAnnounced(Drops(ids)) == Removals(ids)
    decreases |ids|
  {
    if ids == [] {
    } else {
      RemovalsAreDrops(ids[..|ids| - 1]);
      AnnouncedDrops(ids[..|ids| - 1], ids[|ids| - 1]);
      assert ids[..|ids| - 1] + [ids[|ids| - 1]] == ids;
    }
  }

  /** Every operation of a running daemon publishes exactly the changes it made. */
  lemma PublishedIsAnnounced(s: Store, op: Op, now: int)
    ensures Published(s, op, now) == AllAnnounced(ChangesOf(s, op, now))
  {
    match op
    case ReapOp => RemovalsAreDrops(ExpiredIds(s.rules, now));
    case AddOp(input) =>
      var rule := NewRule(s.nextId, input, now);
      assert AllAnnounced([Put(rule)]) == [RuleAdded(rule)];
    case RemoveOp(id) => assert AllAnnounced([Drop(id)]) == [RuleRemoved(id)];
    case _ =>
  }

  lemma {:induction false} NotThere(rules: seq<Rule>, id: nat)
    requires forall r :: r in rules ==> r.id != id
    ensures C.WithoutRule(rules, id) == rules
  {
    if rules == [] {
    } else {
      NotThere(rules[1..], id);
    }
  }

  lemma {:induction false} WithoutAppend(a: seq<Rule>, b: seq<Rule>, id: nat)
    ensures C.WithoutRule(a + b, id) == C.WithoutRule(a, id) + C.WithoutRule(b, id)
  {
    if a == [] {
      assert a + b == b;
    } else {
      assert (a + b)[0] == a[0] && (a + b)[1..] == a[1..] + b;
      WithoutAppend(a[1..], b, id);
      var rest, more := C.WithoutRule(a[1..], id), C.WithoutRule(b, id);
      assert C.WithoutRule(a + b, id) == if a[0].id == id then rest + more else [a[0]] + (rest + more);
      assert [a[0]] + (rest + more) == [a[0]] + rest + more;
    }
  }

  lemma DropThen(b: Book, rule: Rule, rest: seq<Change>)
    requires rule in b.rules && ValidRun(Changed(b, Drop(rule.id)), rest)
    ensures ValidRun(b, [Drop(rule.id)] + rest)
    ensures BookAfter(b, [Drop(rule.id)] + rest) == BookAfter(Changed(b, Drop(rule.id)), rest)
  {
    assert ([Drop(rule.id)] + rest)[1..] == rest;
  }

  ghost predicate LeadsTo(nextId: nat, before: seq<Rule>, changes: seq<Change>, after: seq<Rule>) {
    ValidRun(Book(nextId, before), changes) && BookAfter(Book(nextId, before), changes) == Book(nextId, after)
  }

  ghost predicate DropsTo(kept: seq<Rule>, rules: seq<Rule>, nextId: nat, now: int) {
    LeadsTo(nextId, kept + rules, Drops(ExpiredIds(rules, now)), kept + Unexpired(rules, now))
  }

  lemma DropExpired(kept: seq<Rule>, rules: seq<Rule>, nextId: nat, now: int)
    requires Sound(nextId, kept + rules) && rules != [] && IsExpired(rules[0], now)
    requires DropsTo(kept, rules[1..], nextId, now)
    ensures DropsTo(kept, rules, nextId, now)
  {
    DropFirst(kept, rules, nextId);
    assert (kept + rules)[|kept|] == rules[0];
    var ids := ExpiredIds(rules[1..], now);
    assert ([rules[0].id] + ids)[1..] == ids;
    DropThen(Book(nextId, kept + rules), rules[0], Drops(ids));
  }

  lemma Regroup(kept: seq<Rule>, first: Rule, rest: seq<Rule>)
    ensures kept + ([first] + rest) == kept + [first] + rest
  {
  }

  lemma KeepUnexpired(kept: seq<Rule>, rules: seq<Rule>, nextId: nat, now: int)
    requires rules != [] && !IsExpired(rules[0], now)
    requires DropsTo(kept + [rules[0]], rules[1..], nextId, now)
    ensures DropsTo(kept, rules, nextId, now)
  {
    var first, rest := rules[0], rules[1..];
    Regroup(kept, first, rest);
    Regroup(kept, first, Unexpired(rest, now));
    assert rules == [first] + rest;
    assert LeadsTo(nextId, kept + rules, Drops(ExpiredIds(rest, now)), kept + Unexpired(rules, now));
  }

  /** Dropping the expired rules one by one, with `kept` in front of them. */
  lemma {:induction false} DropsReap(kept: seq<Rule>, rules: seq<Rule>, nextId: nat, now: int)
    requires Sound(nextId, kept + rules)
    ensures DropsTo(kept, rules, nextId, now)
    decreases |rules|
  {
    if rules == [] {
    } else {
      if IsExpired(rules[0], now) {
        DropFirst(kept, rules, nextId);
        DropsReap(kept, rules[1..], nextId, now);
        DropExpired(kept, rules, nextId, now);
      } else {
        assert kept + rules == (kept + [rules[0]]) + rules[1..];
        DropsReap(kept + [rules[0]], rules[1..], nextId, now);
        KeepUnexpired(kept, rules, nextId, now);
      }
    }
  }

  lemma CutAt(kept: seq<Rule>, rules: seq<Rule>)
    requires rules != []
    ensures var all := kept + rules;
            all[|kept|] == rules[0] && kept + rules[1..] == all[..|kept|] + all[|kept| + 1..]
  {
  }

  lemma WithoutIsCut(rules: seq<Rule>, i: nat)
    requires Rising(rules) && i < |rules|
    ensures C.WithoutRule(rules, rules[i].id) == rules[..i] + rules[i + 1..]
  {
    CutElements(rules, i);
    CutSubsequence(rules, i);
    SubsequenceRising(rules[..i] + rules[i + 1..], rules);
    WithoutRising(rules, rules[i].id);
    RisingSameElements(C.WithoutRule(rules, rules[i].id), rules[..i] + rules[i + 1..]);
  }

  lemma DropFirst(kept: seq<Rule>, rules: seq<Rule>, nextId: nat)
    requires Sound(nextId, kept + rules) && rules != []
    ensures C.WithoutRule(kept + rules, rules[0].id) == kept + rules[1..]
    ensures Sound(nextId, kept + rules[1..])
  {
    CutAt(kept, rules);
    WithoutIsCut(kept + rules, |kept|);
    CutSubsequence(kept + rules, |kept|);
    SubsequenceIsSound(nextId, kept + rules[1..], kept + rules);
  }

  lemma RemovedIsWithout(s: Store, id: nat)
    requires Sound(s.nextId, s.rules)
    ensures Removed(s, id, true).rules == C.WithoutRule(s.rules, id)
  {
    RemoveElements(s, id, true);
    RemoveIsSubsequence(s, id, true);
    SubsequenceRising(Removed(s, id, true).rules, s.rules);
    WithoutRising(s.rules, id);
    RisingSameElements(Removed(s, id, true).rules, C.WithoutRule(s.rules, id));
  }

  lemma OneChange(b: Book, c: Change)
    ensures BookAfter(b, [c]) == Changed(b, c)
    ensures ValidRun(b, [c]) <==> Valid(b, c)
  {
    assert [c][1..] == [];
  }

  lemma ReapIsDrops(s: Store, now: int)
    requires Sound(s.nextId, s.rules)
    ensures BookAfter(BookOf(s), Drops(ExpiredIds(s.rules, now))) == Book(s.nextId, Unexpired(s.rules, now))
    ensures ValidRun(BookOf(s), Drops(ExpiredIds(s.rules, now)))
  {
    NothingInFront(s.rules);
    NothingInFront(Unexpired(s.rules, now));
    DropsReap([], s.rules, s.nextId, now);
    assert LeadsTo(s.nextId, s.rules, Drops(ExpiredIds(s.rules, now)), Unexpired(s.rules, now));
  }

  lemma NothingInFront(rules: seq<Rule>)
    ensures [] + rules == rules
  {
  }

  lemma RemoveIsDrop(s: Store, id: nat)
    requires Sound(s.nextId, s.rules)
    ensures BookAfter(BookOf(s), ChangesOf(s, RemoveOp(id), 0)) == BookOf(Removed(s, id, true))
    ensures ValidRun(BookOf(s), ChangesOf(s, RemoveOp(id), 0))
  {
    IndexOfIdFinds(s.rules, id);
    RemovedIsWithout(s, id);
    OneChange(BookOf(s), Drop(id));
  }

  /** An operation of a running daemon is its changes, one after the other. */
  lemma StepIsChanges(s: Store, op: Op, now: int)
    requires Sound(s.nextId, s.rules) && !op.RestartOp?
    ensures BookAfter(BookOf(s), ChangesOf(s, op, now)) == BookOf(Step(s, op, now))
    ensures ValidRun(BookOf(s), ChangesOf(s, op, now))
  {
    match op
    case AddOp(input) =>
      if !Refused(input) {
        OneChange(BookOf(s), Put(NewRule(s.nextId, input, now)));
      }
    case RemoveOp(id) => RemoveIsDrop(s, id);
    case ReapOp => ReapIsDrops(s, now);
    case SaveOp =>
  }

  // ----------------------------------------------------------------------- the mirror

  ghost predicate Rising(rules: seq<Rule>) {
    forall i, j :: 0 <= i < j < |rules| ==> rules[i].id < rules[j].id
  }

  ghost predicate Below(rules: seq<Rule>, bound: nat) {
    forall r :: r in rules ==> r.id < bound
  }

  ghost predicate SoundBook(b: Book) {
    Sound(b.nextId, b.rules)
  }

  lemma SoundFacts(b: Book)
    requires SoundBook(b)
    ensures Rising(b.rules) && Below(b.rules, b.nextId)
  {
  }

  lemma ChangedIsSound(b: Book, c: Change)
    requires SoundBook(b) && Valid(b, c)
    ensures SoundBook(Changed(b, c))
  {
    match c
    case Put(rule) =>
      var kept := OtherRules(b.rules, rule.exePath, rule.action);
      OtherRulesSubsequence(b.rules, rule.exePath, rule.action);
      SubsequenceIsSound(b.nextId, kept, b.rules);
      AppendIsSound(b.nextId, kept, rule);
    case Drop(id) =>
      WithoutSubsequence(b.rules, id);
      SubsequenceIsSound(b.nextId, C.WithoutRule(b.rules, id), b.rules);
  }

  lemma {:induction false} WithoutSubsequence(rules: seq<Rule>, id: nat)
    ensures Subsequence(C.WithoutRule(rules, id), rules)
  {
    if rules == [] {
    } else {
      WithoutSubsequence(rules[1..], id);
      if rules[0].id != id {
        assert C.WithoutRule(rules, id)[1..] == C.WithoutRule(rules[1..], id);
      }
    }
  }

  lemma {:induction false} SubsequenceRising(kept: seq<Rule>, rules: seq<Rule>)
    requires Subsequence(kept, rules) && Rising(rules)
    ensures Rising(kept)
    decreases |rules|
  {
    if kept == [] {
    } else {
      var rest := rules[1..];
      if Subsequence(kept, rest) {
        SubsequenceRising(kept, rest);
      } else {
        SubsequenceRising(kept[1..], rest);
        SubsequenceElements(kept[1..], rest);
        forall j | 0 < j < |kept| ensures kept[0].id < kept[j].id {
          assert kept[j] == kept[1..][j - 1] && kept[1..][j - 1] in rest;
        }
        assert forall i, j :: 0 < i < j < |kept| ==> kept[i] == kept[1..][i - 1] && kept[j] == kept[1..][j - 1];
      }
    }
  }

  lemma WithoutRising(rules: seq<Rule>, id: nat)
    requires Rising(rules)
    ensures Rising(C.WithoutRule(rules, id))
  {
    WithoutSubsequence(rules, id);
    SubsequenceRising(C.WithoutRule(rules, id), rules);
  }

  /** A rising list whose rules all occur in another rising list is a subsequence of it. */
  lemma {:induction false} RisingSubsetIsSubsequence(kept: seq<Rule>, rules: seq<Rule>)
    requires Rising(kept) && Rising(rules) && forall r :: r in kept ==> r in rules
    ensures Subsequence(kept, rules)
    decreases |rules|
  {
    if kept == [] {
    } else {
      assert kept[0] in rules;
      var rest := rules[1..];
      assert rules == [rules[0]] + rest;
      if kept[0] == rules[0] {
        forall r | r in kept[1..] ensures r in rest {
          var i :| 0 <= i < |kept| - 1 && kept[1..][i] == r;
          assert kept[i + 1] == r && r in rules && kept[0].id < kept[i + 1].id;
        }
        RisingSubsetIsSubsequence(kept[1..], rest);
      } else {
        forall r | r in kept ensures r in rest {
          var i :| 0 <= i < |kept| && kept[i] == r;
          var j :| 0 <= j < |rules| && rules[j] == kept[0];
          assert rules[0].id < rules[j].id <= kept[i].id;
        }
        RisingSubsetIsSubsequence(kept, rest);
      }
    }
  }

  lemma RisingSameElements(a: seq<Rule>, b: seq<Rule>)
    requires Rising(a) && Rising(b) && forall r :: r in a <==> r in b
    ensures a == b
  {
    RisingSubsetIsSubsequence(a, b);
    RisingSubsetIsSubsequence(b, a);
    MutualSubsequences(a, b);
  }

  lemma {:induction false} SubsequenceLength(kept: seq<Rule>, rules: seq<Rule>)
    requires Subsequence(kept, rules)
    ensures |kept| <= |rules| && (|kept| == |rules| ==> kept == rules)
    decreases |rules|
  {
    if kept == [] {
    } else {
      if Subsequence(kept, rules[1..]) {
        SubsequenceLength(kept, rules[1..]);
      } else {
        SubsequenceLength(kept[1..], rules[1..]);
        assert kept == [kept[0]] + kept[1..] && rules == [rules[0]] + rules[1..];
      }
    }
  }

  lemma MutualSubsequences(a: seq<Rule>, b: seq<Rule>)
    requires Subsequence(a, b) && Subsequence(b, a)
    ensures a == b
  {
    SubsequenceLength(a, b);
    SubsequenceLength(b, a);
  }

  /** A rule whose id was handed out before stands in a later book only if it stood in this one. */
  lemma {:induction false} OldRulesComeFromHere(b: Book, changes: seq<Change>)
    requires SoundBook(b) && ValidRun(b, changes)
    ensures forall r :: r in BookAfter(b, changes).rules && r.id < b.nextId ==> r in b.rules
    ensures SoundBook(BookAfter(b, changes)) && b.nextId <= BookAfter(b, changes).nextId
    decreases |changes|
  {
    if changes == [] {
    } else {
      ChangedIsSound(b, changes[0]);
      OldRulesComeFromHere(Changed(b, changes[0]), changes[1..]);
    }
  }

  /** The client's list while it replays the changes between its subscription and its snapshot
      (`end` are the snapshot's rules): `head` is what is left of the snapshot as fetched, `tail`
      what was heard of since, all with ids handed out from `start` on. */
  ghost predicate Replaying(b: Book, end: Book, start: nat, head: seq<Rule>, tail: seq<Rule>) {
    && Rising(head) && Rising(tail)
    && (forall r :: r in head ==> r in end.rules && (r.id < start || b.nextId <= r.id))
    && (forall r :: r in tail ==> start <= r.id < b.nextId)
    && (forall r :: r in end.rules ==> r in head + tail)
    && (forall r :: r in b.rules && start <= r.id ==> r in tail)
    && start <= b.nextId
  }

  lemma RisingAppend(a: seq<Rule>, r: Rule)
    requires Rising(a) && Below(a, r.id)
    ensures Rising(a + [r])
  {
    assert forall i :: 0 <= i < |a| ==> a[i] in a;
  }

  lemma PutStaysTheSame(b: Book, rule: Rule, rest: seq<Change>)
    requires SoundBook(b) && Valid(b, Put(rule)) && ValidRun(Changed(b, Put(rule)), rest)
    ensures forall r :: r in BookAfter(Changed(b, Put(rule)), rest).rules && r.id == rule.id ==> r == rule
  {
    var next := Changed(b, Put(rule));
    ChangedIsSound(b, Put(rule));
    OldRulesComeFromHere(next, rest);
    forall r | r in BookAfter(next, rest).rules && r.id == rule.id ensures r == rule {
      SameIdSameRule(next.nextId, next.rules, r, rule);
    }
  }

  lemma HeadTailPut(head: seq<Rule>, tail: seq<Rule>, rule: Rule)
    requires Below(tail, rule.id)
    ensures C.RulesAfter(head + tail, RuleAdded(rule)) == C.WithoutRule(head, rule.id) + (tail + [rule])
  {
    WithoutAppend(head, tail, rule.id);
    NotThere(tail, rule.id);
  }

  lemma ReplayPut(b: Book, end: Book, start: nat, head: seq<Rule>, tail: seq<Rule>, rule: Rule,
                  rest: seq<Change>)
    requires SoundBook(b) && Valid(b, Put(rule)) && Replaying(b, end, start, head, tail)
    requires ValidRun(Changed(b, Put(rule)), rest) && BookAfter(Changed(b, Put(rule)), rest) == end
    ensures C.RulesAfter(head + tail, RuleAdded(rule)) == C.WithoutRule(head, rule.id) + (tail + [rule])
    ensures Replaying(Changed(b, Put(rule)), end, start, C.WithoutRule(head, rule.id), tail + [rule])
  {
    PutStaysTheSame(b, rule, rest);
    HeadTailPut(head, tail, rule);
    WithoutRising(head, rule.id);
    RisingAppend(tail, rule);
    var head', tail' := C.WithoutRule(head, rule.id), tail + [rule];
    forall r | r in end.rules ensures r in head' + tail' {
      assert r in head + tail;
      assert r in head' || r in tail || r == rule;
    }
  }

  lemma DroppedNeverReturns(b: Book, id: nat, rest: seq<Change>)
    requires SoundBook(b) && Valid(b, Drop(id)) && ValidRun(Changed(b, Drop(id)), rest)
    ensures forall r :: r in BookAfter(Changed(b, Drop(id)), rest).rules ==> r.id != id
  {
    ChangedIsSound(b, Drop(id));
    OldRulesComeFromHere(Changed(b, Drop(id)), rest);
    var x :| x in b.rules && x.id == id;
    assert id < b.nextId;
  }

  lemma ReplayDrop(b: Book, end: Book, start: nat, head: seq<Rule>, tail: seq<Rule>, id: nat,
                   rest: seq<Change>)
    requires SoundBook(b) && Valid(b, Drop(id)) && Replaying(b, end, start, head, tail)
    requires ValidRun(Changed(b, Drop(id)), rest) && BookAfter(Changed(b, Drop(id)), rest) == end
    ensures C.RulesAfter(head + tail, RuleRemoved(id)) == C.WithoutRule(head, id) + C.WithoutRule(tail, id)
    ensures Replaying(Changed(b, Drop(id)), end, start, C.WithoutRule(head, id), C.WithoutRule(tail, id))
  {
    DroppedNeverReturns(b, id, rest);
    WithoutAppend(head, tail, id);
    WithoutRising(head, id);
    WithoutRising(tail, id);
  }

  /** What the client's list has to do with the daemon's: rising, nothing from the future, and
      every rule of the daemon in it. */
  ghost predicate Mirrors(b: Book, rules: seq<Rule>) {
    Rising(rules) && Below(rules, b.nextId) && forall r :: r in b.rules ==> r in rules
  }

  lemma {:induction false} OverlapMirrors(b: Book, changes: seq<Change>, start: nat, head: seq<Rule>, tail: seq<Rule>)
    requires SoundBook(b) && ValidRun(b, changes)
    requires Replaying(b, BookAfter(b, changes), start, head, tail)
    ensures Mirrors(BookAfter(b, changes), Heard(head + tail, changes))
    decreases |changes|
  {
    var end := BookAfter(b, changes);
    if changes == [] {
      assert forall r :: r in head ==> r.id < start;
      assert forall i :: 0 <= i < |head| ==> head[i] in head;
      assert forall i :: 0 <= i < |tail| ==> tail[i] in tail;
    } else {
      var rest := changes[1..];
      ChangedIsSound(b, changes[0]);
      match changes[0]
      case Put(rule) =>
        ReplayPut(b, end, start, head, tail, rule, rest);
        OverlapMirrors(Changed(b, changes[0]), rest, start, C.WithoutRule(head, rule.id), tail + [rule]);
      case Drop(id) =>
        ReplayDrop(b, end, start, head, tail, id, rest);
        OverlapMirrors(Changed(b, changes[0]), rest, start, C.WithoutRule(head, id), C.WithoutRule(tail, id));
    }
  }

  lemma MirrorStep(b: Book, rules: seq<Rule>, c: Change)
    requires SoundBook(b) && Valid(b, c) && Mirrors(b, rules)
    ensures Mirrors(Changed(b, c), C.RulesAfter(rules, Announced(c)))
  {
    match c
    case Put(rule) =>
      NotThere(rules, rule.id);
      RisingAppend(rules, rule);
    case Drop(id) =>
      WithoutRising(rules, id);
  }

  lemma {:induction false} MirrorRun(b: Book, rules: seq<Rule>, changes: seq<Change>)
    requires SoundBook(b) && ValidRun(b, changes) && Mirrors(b, rules)
    ensures Mirrors(BookAfter(b, changes), Heard(rules, changes))
    decreases |changes|
  {
    if changes == [] {
    } else {
      ChangedIsSound(b, changes[0]);
      MirrorStep(b, rules, changes[0]);
      MirrorRun(Changed(b, changes[0]), C.RulesAfter(rules, Announced(changes[0])), changes[1..]);
    }
  }

  lemma {:induction false} HeardConcat(rules: seq<Rule>, a: seq<Change>, b: seq<Change>)
    ensures Heard(rules, a + b) == Heard(Heard(rules, a), b)
    decreases |a|
  {
    if a == [] {
      assert a + b == b;
    } else {
      assert (a + b)[1..] == a[1..] + b;
      HeardConcat(C.RulesAfter(rules, Announced(a[0])), a[1..], b);
    }
  }

  lemma {:induction false} BookConcat(b: Book, x: seq<Change>, y: seq<Change>)
    ensures BookAfter(b, x + y) == BookAfter(BookAfter(b, x), y)
    ensures ValidRun(b, x + y) <==> ValidRun(b, x) && ValidRun(BookAfter(b, x), y)
    decreases |x|
  {
    if x == [] {
      assert x + y == y;
    } else {
      assert (x + y)[1..] == x[1..] + y;
      BookConcat(Changed(b, x[0]), x[1..], y);
    }
  }

  lemma StartReplaying(b: Book, overlap: seq<Change>)
    requires SoundBook(b) && ValidRun(b, overlap)
    ensures Replaying(b, BookAfter(b, overlap), b.nextId, BookAfter(b, overlap).rules, [])
  {
    OldRulesComeFromHere(b, overlap);
    SoundFacts(BookAfter(b, overlap));
    var end := BookAfter(b, overlap).rules;
    assert end + [] == end;
  }

  /** A client that subscribes when the book is `b`, fetches the rules after the changes `overlap`
      and hears of those once more, and then of `later`, holds a list of which the daemon's list
      is a subsequence. */
  lemma DaemonRulesAreSubsequence(b: Book, overlap: seq<Change>, later: seq<Change>)
    requires SoundBook(b) && ValidRun(b, overlap + later)
    ensures Subsequence(BookAfter(b, overlap + later).rules, Heard(BookAfter(b, overlap).rules, overlap + later))
  {
    BookConcat(b, overlap, later);
    var mid := BookAfter(b, overlap);
    OldRulesComeFromHere(b, overlap);
    StartReplaying(b, overlap);
    OverlapMirrors(b, overlap, b.nextId, mid.rules, []);
    assert mid.rules + [] == mid.rules;
    HeardConcat(mid.rules, overlap, later);
    MirrorRun(mid, Heard(mid.rules, overlap), later);
    OldRulesComeFromHere(mid, later);
    SoundFacts(BookAfter(mid, later));
    RisingSubsetIsSubsequence(BookAfter(mid, later).rules, Heard(mid.rules, overlap + later));
  }

  // -------------------------------------------------------------- when the lists are equal

  /** Every rule that a Put silently replaces has an id below `start`. */
  ghost predicate Harmless(b: Book, changes: seq<Change>, start: nat)
    decreases |changes|
  {
    changes == []
    || (Harmless(Changed(b, changes[0]), changes[1..], start)
        && forall r :: changes[0].Put? && r in b.rules && KeyOf(r) == KeyOf(changes[0].rule) ==> r.id < start)
  }

  /** The client lists a rule the daemon replaced and will never mention again. */
  ghost predicate Stale(b: Book, rules: seq<Rule>) {
    exists s :: s in rules && s.id < b.nextId && forall r :: r in b.rules ==> r.id != s.id
  }

  lemma {:induction false} StaleForever(b: Book, rules: seq<Rule>, changes: seq<Change>)
    requires ValidRun(b, changes) && Stale(b, rules)
    ensures Heard(rules, changes) != BookAfter(b, changes).rules
    decreases |changes|
  {
    var s :| s in rules && s.id < b.nextId && forall r :: r in b.rules ==> r.id != s.id;
    if changes == [] {
    } else {
      var rules' := C.RulesAfter(rules, Announced(changes[0]));
      assert s in rules';
      StaleForever(Changed(b, changes[0]), rules', changes[1..]);
    }
  }

  lemma ReplacedIsStale(b: Book, rule: Rule, rules: seq<Rule>, s: Rule)
    requires SoundBook(b) && rule.id == b.nextId
    requires s in b.rules && KeyOf(s) == KeyOf(rule) && s in rules
    ensures Stale(Changed(b, Put(rule)), C.RulesAfter(rules, RuleAdded(rule)))
  {
    var next, rules' := Changed(b, Put(rule)), C.RulesAfter(rules, RuleAdded(rule));
    assert s in rules' && s.id < next.nextId;
    forall r | r in next.rules ensures r.id != s.id {
      if r != rule && r.id == s.id {
        SameIdSameRule(b.nextId, b.rules, r, s);
      }
    }
  }

  /** Nothing heard so far is out of date: it is in the snapshot, or in the book by now. */
  ghost predicate Current(b: Book, end: Book, start: nat, rules: seq<Rule>) {
    forall r :: r in rules ==> r in end.rules || (r in b.rules && start <= r.id)
  }

  lemma CurrentStep(b: Book, end: Book, start: nat, rules: seq<Rule>, c: Change)
    requires Current(b, end, start, rules) && start <= b.nextId && Valid(b, c)
    requires forall r :: c.Put? && r in b.rules && KeyOf(r) == KeyOf(c.rule) ==> r.id < start
    ensures Current(Changed(b, c), end, start, C.RulesAfter(rules, Announced(c)))
  {
  }

  lemma {:induction false} OverlapExactIff(b: Book, changes: seq<Change>, start: nat, head: seq<Rule>, tail: seq<Rule>)
    requires SoundBook(b) && ValidRun(b, changes)
    requires Replaying(b, BookAfter(b, changes), start, head, tail)
    requires Current(b, BookAfter(b, changes), start, head + tail)
    ensures Harmless(b, changes, start) ==> Heard(head + tail, changes) == BookAfter(b, changes).rules
    decreases |changes|
  {
    var end := BookAfter(b, changes);
    if changes == [] {
      OverlapMirrors(b, changes, start, head, tail);
      SoundFacts(b);
      RisingSameElements(head + tail, b.rules);
    } else if Harmless(b, changes, start) {
      var rest := changes[1..];
      ChangedIsSound(b, changes[0]);
      CurrentStep(b, end, start, head + tail, changes[0]);
      match changes[0]
      case Put(rule) =>
        ReplayPut(b, end, start, head, tail, rule, rest);
        OverlapExactIff(Changed(b, changes[0]), rest, start, C.WithoutRule(head, rule.id), tail + [rule]);
      case Drop(id) =>
        ReplayDrop(b, end, start, head, tail, id, rest);
        OverlapExactIff(Changed(b, changes[0]), rest, start, C.WithoutRule(head, id), C.WithoutRule(tail, id));
    }
  }

  lemma {:induction false} HarmfulOverlapLeavesStale(b: Book, changes: seq<Change>, start: nat, head: seq<Rule>,
                                                     tail: seq<Rule>, later: seq<Change>)
    requires SoundBook(b) && ValidRun(b, changes + later)
    requires ValidRun(b, changes) && Replaying(b, BookAfter(b, changes), start, head, tail)
    requires !Harmless(b, changes, start)
    ensures Heard(head + tail, changes + later) != BookAfter(b, changes + later).rules
    decreases |changes|
  {
    var end, rest, first := BookAfter(b, changes), changes[1..], changes[0];
    assert (changes + later)[1..] == rest + later;
    ChangedIsSound(b, first);
    if s :| first.Put? && s in b.rules && KeyOf(s) == KeyOf(first.rule) && start <= s.id {
      assert s in tail;
      ReplacedIsStale(b, first.rule, head + tail, s);
      StaleForever(Changed(b, first), C.RulesAfter(head + tail, Announced(first)), rest + later);
    } else {
      match first
      case Put(rule) =>
        ReplayPut(b, end, start, head, tail, rule, rest);
        HarmfulOverlapLeavesStale(Changed(b, first), rest, start, C.WithoutRule(head, rule.id), tail + [rule], later);
      case Drop(id) =>
        ReplayDrop(b, end, start, head, tail, id, rest);
        HarmfulOverlapLeavesStale(Changed(b, first), rest, start, C.WithoutRule(head, id), C.WithoutRule(tail, id),
                                  later);
    }
  }

  lemma {:induction false} LaterExactIff(b: Book, changes: seq<Change>)
    requires SoundBook(b) && ValidRun(b, changes)
    ensures Heard(b.rules, changes) == BookAfter(b, changes).rules <==> Harmless(b, changes, 0)
    decreases |changes|
  {
    if changes == [] {
    } else {
      var first, rest := changes[0], changes[1..];
      ChangedIsSound(b, first);
      LaterExactIff(Changed(b, first), rest);
      if s :| first.Put? && s in b.rules && KeyOf(s) == KeyOf(first.rule) {
        ReplacedIsStale(b, first.rule, b.rules, s);
        StaleForever(Changed(b, first), C.RulesAfter(b.rules, Announced(first)), rest);
      } else {
        SameStep(b, first);
      }
    }
  }

  lemma {:induction false} NothingToReplace(rules: seq<Rule>, exe: PathBuf, action: RuleAction)
    requires forall r :: r in rules ==> KeyOf(r) != (exe, action)
    ensures OtherRules(rules, exe, action) == rules
  {
    if rules == [] {
    } else {
      assert KeyOf(rules[0]) != (exe, action);
      NothingToReplace(rules[1..], exe, action);
    }
  }

  lemma SameStep(b: Book, c: Change)
    requires SoundBook(b) && Valid(b, c)
    requires forall r :: c.Put? && r in b.rules ==> KeyOf(r) != KeyOf(c.rule)
    ensures C.RulesAfter(b.rules, Announced(c)) == Changed(b, c).rules
  {
    if c.Put? {
      NothingToReplace(b.rules, c.rule.exePath, c.rule.action);
      SoundFacts(b);
      NotThere(b.rules, c.rule.id);
    }
  }

  /** The client's list equals the daemon's exactly when no rule was silently replaced that the
      client had in its snapshot or has heard of: during the overlap only rules from before the
      subscription may be replaced, and afterwards none. */
  lemma {:induction false} ListsEqualIff(b: Book, overlap: seq<Change>, later: seq<Change>)
    requires SoundBook(b) && ValidRun(b, overlap + later)
    ensures Heard(BookAfter(b, overlap).rules, overlap + later) == BookAfter(b, overlap + later).rules
            <==> Harmless(b, overlap, b.nextId) && Harmless(BookAfter(b, overlap), later, 0)
  {
    BookConcat(b, overlap, later);
    var mid := BookAfter(b, overlap);
    OldRulesComeFromHere(b, overlap);
    StartReplaying(b, overlap);
    assert mid.rules + [] == mid.rules;
    HeardConcat(mid.rules, overlap, later);
    if Harmless(b, overlap, b.nextId) {
      OverlapExactIff(b, overlap, b.nextId, mid.rules, []);
      LaterExactIff(mid, later);
    } else {
      HarmfulOverlapLeavesStale(b, overlap, b.nextId, mid.rules, [], later);
    }
  }

  // ---------------------------------------------------------- what the user is shown

  predicate IsRuleEvent(e: Event) {
    e.RuleAdded? || e.RuleRemoved?
  }

  function OnlyRuleEvents(events: seq<Event>): seq<Event> {
    if events == [] then []
    else
      OnlyRuleEvents(events[..|events| - 1])
      + if IsRuleEvent(events[|events| - 1]) then [events[|events| - 1]] else []
  }

  function RulesFolded(rules: seq<Rule>, events: seq<Event>): seq<Rule>
    decreases |events|
  {
    if events == [] then rules
    else C.RulesAfter(RulesFolded(rules, events[..|events| - 1]), events[|events| - 1])
  }

  lemma FoldedMore(rules: seq<Rule>, heard: seq<Event>, last: Event)
    ensures RulesFolded(rules, heard + [last]) == C.RulesAfter(RulesFolded(rules, heard), last)
  {
    assert (heard + [last])[..|heard|] == heard;
  }

  lemma {:induction false} FoldRules(v: C.View, events: seq<Event>)
    ensures C.Fold(v, events).rules == RulesFolded(v.rules, OnlyRuleEvents(events))
    decreases |events|
  {
    if events == [] {
    } else {
      var init, last := events[..|events| - 1], events[|events| - 1];
      FoldRules(v, init);
      EventRules(C.Fold(v, init), last);
      if IsRuleEvent(last) {
        FoldedMore(v.rules, OnlyRuleEvents(init), last);
      } else {
        assert OnlyRuleEvents(events) == OnlyRuleEvents(init);
      }
    }
  }

  lemma EventRules(v: C.View, event: Event)
    ensures C.AfterEvent(v, event).rules == C.RulesAfter(v.rules, event)
  {
  }

  lemma {:induction false} FoldedIsHeard(rules: seq<Rule>, changes: seq<Change>)
    ensures RulesFolded(rules, AllAnnounced(changes)) == Heard(rules, changes)
    decreases |changes|
  {
    if changes == [] {
    } else {
      FoldedIsHeard(C.RulesAfter(rules, Announced(changes[0])), changes[1..]);
      FoldFirst(rules, Announced(changes[0]), AllAnnounced(changes[1..]));
    }
  }

  lemma {:induction false} FoldFirst(rules: seq<Rule>, first: Event, rest: seq<Event>)
    ensures RulesFolded(rules, [first] + rest) == RulesFolded(C.RulesAfter(rules, first), rest)
    decreases |rest|
  {
    var all := [first] + rest;
    if rest == [] {
      assert all == [first] && all[..0] == [];
    } else {
      assert all[..|all| - 1] == [first] + rest[..|rest| - 1];
      FoldFirst(rules, first, rest[..|rest| - 1]);
    }
  }

  lemma {:induction false} FoldShows(v: C.View, events: seq<Event>)
    requires CR.AllShown(v) && forall e :: e in events ==> CR.PlainInput(C.Streamed(e))
    ensures CR.AllShown(C.Fold(v, events))
    decreases |events|
  {
    if events == [] {
    } else {
      FoldShows(v, events[..|events| - 1]);
      CR.EventShows(C.Fold(v, events[..|events| - 1]), events[|events| - 1]);
    }
  }

  // ------------------------------------------------------------ runs of store operations

  /** The store after a run of operations, and what the run publishes. */
  function StoreAfter(s: Store, ops: seq<Timed>): Store
    decreases |ops|
  {
    if ops == [] then s else StoreAfter(Step(s, ops[0].op, ops[0].now), ops[1..])
  }

  function PublishedIn(s: Store, ops: seq<Timed>): seq<Event>
    decreases |ops|
  {
    if ops == [] then []
    else Published(s, ops[0].op, ops[0].now) + PublishedIn(Step(s, ops[0].op, ops[0].now), ops[1..])
  }

  function ChangesIn(s: Store, ops: seq<Timed>): seq<Change>
    decreases |ops|
  {
    if ops == [] then []
    else ChangesOf(s, ops[0].op, ops[0].now) + ChangesIn(Step(s, ops[0].op, ops[0].now), ops[1..])
  }

  predicate NoRestart(ops: seq<Timed>) {
    forall i :: 0 <= i < |ops| ==> !ops[i].op.RestartOp?
  }

  lemma {:induction false} AnnouncedConcat(a: seq<Change>, b: seq<Change>)
    ensures AllAnnounced(a + b) == AllAnnounced(a) + AllAnnounced(b)
    decreases |a|
  {
    if a == [] {
      assert a + b == b;
    } else {
      assert (a + b)[1..] == a[1..] + b;
      AnnouncedConcat(a[1..], b);
    }
  }

  lemma StepKeepsSound(s: Store, op: Op, now: int)
    requires Sound(s.nextId, s.rules) && !op.RestartOp?
    ensures Sound(Step(s, op, now).nextId, Step(s, op, now).rules)
  {
    StepIsChanges(s, op, now);
    OldRulesComeFromHere(BookOf(s), ChangesOf(s, op, now));
  }

  lemma {:induction false} RunIsChanges(s: Store, ops: seq<Timed>)
    requires Sound(s.nextId, s.rules) && NoRestart(ops)
    ensures BookAfter(BookOf(s), ChangesIn(s, ops)) == BookOf(StoreAfter(s, ops))
    ensures ValidRun(BookOf(s), ChangesIn(s, ops))
    ensures PublishedIn(s, ops) == AllAnnounced(ChangesIn(s, ops))
    decreases |ops|
  {
    if ops == [] {
    } else {
      var op, now, rest := ops[0].op, ops[0].now, ops[1..];
      StepIsChanges(s, op, now);
      StepKeepsSound(s, op, now);
      PublishedIsAnnounced(s, op, now);
      RunIsChanges(Step(s, op, now), rest);
      BookConcat(BookOf(s), ChangesOf(s, op, now), ChangesIn(Step(s, op, now), rest));
      AnnouncedConcat(ChangesOf(s, op, now), ChangesIn(Step(s, op, now), rest));
    }
  }

  /** Over every sequential run of AddRule, RemoveRule and reaping: a client that subscribed in
      store `s` and fetched the rules after the operations `overlap` replays everything published
      since and then holds a list of which the daemon's rules are a subsequence. */
  lemma {:induction false} StoreRulesAreSubsequence(s: Store, overlap: seq<Timed>, later: seq<Timed>)
    requires Sound(s.nextId, s.rules) && NoRestart(overlap) && NoRestart(later)
    ensures var mid := StoreAfter(s, overlap);
            Subsequence(StoreAfter(mid, later).rules,
                        RulesFolded(mid.rules, PublishedIn(s, overlap) + PublishedIn(mid, later)))
  {
    var mid := StoreAfter(s, overlap);
    RunIsChanges(s, overlap);
    OldRulesComeFromHere(BookOf(s), ChangesIn(s, overlap));
    RunIsChanges(mid, later);
    var a, b := ChangesIn(s, overlap), ChangesIn(mid, later);
    BookConcat(BookOf(s), a, b);
    AnnouncedConcat(a, b);
    FoldedIsHeard(mid.rules, a + b);
    DaemonRulesAreSubsequence(BookOf(s), a, b);
  }

  /** A rule superseded by another is never heard of again: a client that is there from the start
      hears of two rules for the same path and action, and lists both; the daemon has one. */
  lemma SupersededRuleStaysListed(input: RuleInput)
    requires !Refused(input)
    ensures var ops := [Timed(AddOp(input), 0), Timed(AddOp(input), 1)];
            && |StoreAfter(FRESH, ops).rules| == 1
            && |RulesFolded(FRESH.rules, PublishedIn(FRESH, ops))| == 2
  {
    var ops := [Timed(AddOp(input), 0), Timed(AddOp(input), 1)];
    var one, two := NewRule(1, input, 0), NewRule(2, input, 1);
    var first := Added(FRESH, input, 0, true);
    assert first.rules == [one] by {
      assert OtherRules([], input.exePath, input.action) == [];
    }
    var second := Added(first, input, 1, true);
    assert second.rules == [two] by {
      assert OtherRules([one], input.exePath, input.action) == OtherRules([], input.exePath, input.action) == [];
    }
    assert ops[1..] == [ops[1]] && [ops[1]][1..] == [];
    assert StoreAfter(FRESH, ops) == StoreAfter(first, [ops[1]]) == second;
    assert PublishedIn(first, [ops[1]]) == [RuleAdded(two)];
    assert PublishedIn(FRESH, ops) == [RuleAdded(one), RuleAdded(two)];
    TwoHeard(one, two);
  }

  lemma TwoHeard(one: Rule, two: Rule)
    requires one.id != two.id
    ensures RulesFolded([], [RuleAdded(one), RuleAdded(two)]) == [one, two]
  {
    assert [RuleAdded(one), RuleAdded(two)][..1] == [RuleAdded(one)] && [RuleAdded(one)][..0] == [];
    assert RulesFolded([], [RuleAdded(one)]) == [one];
    assert C.WithoutRule([one], two.id) == [one] by {
      NotThere([one], two.id);
    }
  }

  /** Over every sequential run of AddRule, RemoveRule and reaping, with plain paths: a client that
      subscribed, fetched its snapshot and applied the stream never shows an executable as allowed
      that the daemon blocks. */
  lemma {:induction false} BlockedIsShownBlocked(store: Store, overlap: seq<Timed>, later: seq<Timed>, v: C.View,
                                                 s: C.Input, events: seq<Event>, exe: PathBuf, now: int)
    requires Sound(store.nextId, store.rules) && NoRestart(overlap) && NoRestart(later)
    requires s.Snapshot? && s.rules == StoreAfter(store, overlap).rules && CR.PlainInput(s)
    requires OnlyRuleEvents(events) == PublishedIn(store, overlap) + PublishedIn(StoreAfter(store, overlap), later)
    requires forall e :: e in events ==> CR.PlainInput(C.Streamed(e))
    requires IsBlocked(StoreAfter(StoreAfter(store, overlap), later).rules, exe, now)
    ensures CR.ShowsBlock(C.Fold(C.AfterSnapshot(v, s), events).apps, exe)
  {
    var start, rules := C.AfterSnapshot(v, s), StoreAfter(StoreAfter(store, overlap), later).rules;
    CR.SnapshotShows(v, s);
    FoldShows(start, events);
    FoldRules(start, events);
    StoreRulesAreSubsequence(store, overlap, later);
    SubsequenceElements(rules, C.Fold(start, events).rules);
    var r :| r in rules && BlocksAt(r, exe, now);
    assert r in C.Fold(start, events).rules;
  }
}
