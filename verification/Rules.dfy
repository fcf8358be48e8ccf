/**
 The daemon's rule store (crates/daemon/src/rules.rs): rules in memory, their copy on disk, and
 what a restart makes of it.

 `Store` is the abstract value of a `RuleStore` object; the class below changes its fields in
 place and is proved to follow the functions on it.
 */
module Rules {
  import opened Types
  import opened Collections

  /** Clock ticks in one second. The wall clock counts them from the Unix epoch. */
  const SECOND: nat := 1_000_000_000

  /** The first and the last instant of the date library's calendar, years -262143 to 262142. */
  const FIRST_INSTANT: int := -8_334_601_228_800 * 1_000_000_000
  const LAST_INSTANT: int := 8_210_266_876_800 * 1_000_000_000 - 1

  /** The longest duration that can be made of whole seconds, either way. */
  const MAX_DURATION_SECS: int := 9_223_372_036_854_775

  datatype Persisted = Persisted(nextId: nat, rules: seq<Rule>)

  /** The rules in memory and the file, absent before the first successful save. */
  datatype Store = Store(nextId: nat, rules: seq<Rule>, disk: Option<Persisted>)

  predicate IsExpired(rule: Rule, now: int) {
    rule.expiresAt.Some? && rule.expiresAt.value <= now
  }

  /** The rules that are kept when expired ones are dropped at `now`, in order. */
  function Unexpired(rules: seq<Rule>, now: int): (kept: seq<Rule>)
    ensures forall r :: r in kept <==> r in rules && !IsExpired(r, now)
  {
    if rules == [] then []
    else if IsExpired(rules[0], now) then Unexpired(rules[1..], now)
    else [rules[0]] + Unexpired(rules[1..], now)
  }

  function ExpiredIds(rules: seq<Rule>, now: int): seq<nat> {
    if rules == [] then []
    else if IsExpired(rules[0], now) then [rules[0].id] + ExpiredIds(rules[1..], now)
    else ExpiredIds(rules[1..], now)
  }

  /** The rules that do not compete with a new rule for `exe` and `action`. */
  function OtherRules(rules: seq<Rule>, exe: PathBuf, action: RuleAction): (kept: seq<Rule>)
    ensures forall r :: r in kept <==> r in rules && !(r.exePath == exe && r.action == action)
  {
    if rules == [] then []
    else if rules[0].exePath == exe && rules[0].action == action then OtherRules(rules[1..], exe, action)
    else [rules[0]] + OtherRules(rules[1..], exe, action)
  }

  function IndexOfId(rules: seq<Rule>, id: nat): Option<nat> {
    if rules == [] then None
    else if rules[0].id == id then Some(0)
    else
      match IndexOfId(rules[1..], id)
      case None => None
      case Some(i) => Some(i + 1)
  }

  /** `ttl as i64`. */
  function SignedSecs(ttl: U64): int {
    if ttl < 0x8000_0000_0000_0000 then ttl else ttl - 0x1_0000_0000_0000_0000
  }

  /** `Duration::seconds` panics: the request is not carried out, nor answered. */
  predicate Refused(input: RuleInput) {
    input.ttlSecs.Some?
    && !(-MAX_DURATION_SECS <= SignedSecs(input.ttlSecs.value) <= MAX_DURATION_SECS)
  }

  /** `checked_add_signed`, which has no answer beyond the calendar: the rule then never expires. */
  function ExpiryOf(now: int, ttl: U64): Option<int> {
    var at := now + SignedSecs(ttl) * SECOND;
    if FIRST_INSTANT <= at <= LAST_INSTANT then Some(at) else None
  }

  function NewRule(id: nat, input: RuleInput, now: int): Rule {
    var expires := if input.ttlSecs.Some? then ExpiryOf(now, input.ttlSecs.value) else None;
    Rule(id, input.name, input.exePath, input.action, input.persistent, expires, "default", now)
  }

  function Saved(s: Store, writes: bool): Store {
    if writes then s.(disk := Some(Persisted(s.nextId, s.rules))) else s
  }

  /** `add`; `writes` tells whether the save succeeds, here and below. */
  function Added(s: Store, input: RuleInput, now: int, writes: bool): Store {
    if Refused(input) then s
    else
      Saved(s.(nextId := s.nextId + 1,
               rules := OtherRules(s.rules, input.exePath, input.action) + [NewRule(s.nextId, input, now)]),
            writes)
  }

  function Removed(s: Store, id: nat, writes: bool): Store {
    match IndexOfId(s.rules, id)
    case None => s
    case Some(i) =>
      if i < |s.rules| then Saved(s.(rules := s.rules[..i] + s.rules[i + 1..]), writes) else s
  }

  function Reaped(s: Store, now: int, writes: bool): Store {
    var kept := Unexpired(s.rules, now);
    var s' := s.(rules := kept);
    if |kept| != |s.rules| then Saved(s', writes) else s'
  }

  function MaxId(rules: seq<Rule>): nat {
    if rules == [] then 0
    else if rules[0].id >= MaxId(rules[1..]) then rules[0].id else MaxId(rules[1..])
  }

  /** `load`: what a daemon started at `now` makes of the file. */
  function LoadedFrom(disk: Option<Persisted>, now: int): Store {
    var p := if disk.Some? then disk.value else Persisted(1, []);
    var rules := Unexpired(p.rules, now);
    Store(if p.nextId >= MaxId(rules) + 1 then p.nextId else MaxId(rules) + 1, rules, disk)
  }

  predicate BlocksAt(rule: Rule, exe: PathBuf, now: int) {
    rule.action == Block && rule.exePath == exe && !IsExpired(rule, now)
  }

  ghost predicate IsBlocked(rules: seq<Rule>, exe: PathBuf, now: int) {
    exists r :: r in rules && BlocksAt(r, exe, now)
  }

  /** Which steps of a save succeed: encoding the rules, making the directory, writing the
      temporary file, and renaming it over the rules file. */
  datatype FileSystem = FileSystem(encode: bool, mkdir: bool, write: bool, rename: bool) {
    predicate Works() {
      encode && mkdir && write && rename
    }
  }

  class RuleStore {
    var nextId: nat
    var rules: seq<Rule>
    /** What a reader of the rules file would find. */
    ghost var disk: Option<Persisted>
    /** A complete temporary file beside it, if a save left one. */
    ghost var temp: Option<Persisted>

    ghost function Value(): Store
      reads this
    {
      Store(nextId, rules, disk)
    }

    constructor Load(file: Option<Persisted>, now: int)
      ensures Value() == LoadedFrom(file, now)
    {
      var id, kept := 1, [];
      if file.Some? {
        id, kept := file.value.nextId, file.value.rules;
      }
      kept := Unexpired(kept, now);
      var maxId := MaxId(kept);
      nextId := if id >= maxId + 1 then id else maxId + 1;
      rules := kept;
      disk, temp := file, None;
    }

    /** `save_locked`: a temporary file is written and then renamed over the rules file. */
    method Save(io: FileSystem)
      modifies this`disk, this`temp
      ensures disk == if io.encode && io.mkdir && io.write && io.rename then Some(Persisted(nextId, rules))
                      else old(disk)
    {
      if !io.encode || !io.mkdir || !io.write {
        return;
      }
      temp := Some(Persisted(nextId, rules));
      if io.rename {
        disk, temp := temp, None;
      }
    }

    /** No rule comes back if making its expiry time panics. */
    method Add(input: RuleInput, now: int, io: FileSystem) returns (stored: Option<Rule>)
      modifies this
      ensures Value() == Added(old(Value()), input, now, io.Works())
      ensures stored == if Refused(input) then None else Some(NewRule(old(nextId), input, now))
      ensures stored.Some? ==>
                var r := stored.value;
                && r.id == old(nextId) && r.name == input.name && r.exePath == input.exePath
                && r.action == input.action && r.persistent == input.persistent
                && r.profile == "default" && r.updatedAt == now
                && (input.ttlSecs == None ==> r.expiresAt == None)
    {
      if Refused(input) {
        return None;
      }
      var id := nextId;
      nextId := nextId + 1;
      var rule := NewRule(id, input, now);
      rules := OtherRules(rules, rule.exePath, rule.action);
      rules := rules + [rule];
      Save(io);
      stored := Some(rule);
    }

    method Remove(id: nat, io: FileSystem) returns (removed: Option<Rule>)
      modifies this
      ensures Value() == Removed(old(Value()), id, io.Works())
      ensures removed.Some? <==> exists r :: r in old(rules) && r.id == id
      ensures removed.Some? ==> removed.value in old(rules) && removed.value.id == id
    {
      IndexOfIdFinds(rules, id);
      var pos := IndexOfId(rules, id);
      if pos == None {
        return None;
      }
      removed := Some(rules[pos.value]);
      rules := rules[..pos.value] + rules[pos.value + 1..];
      Save(io);
    }

    method ReapExpired(now: int, io: FileSystem) returns (removed: seq<nat>)
      modifies this
      ensures Value() == Reaped(old(Value()), now, io.Works())
      ensures removed == ExpiredIds(old(rules), now)
    {
      var before := |rules|;
      removed := ExpiredIds(rules, now);
      rules := Unexpired(rules, now);
      if |rules| != before {
        Save(io);
      }
    }

    method Blocked(exe: PathBuf, now: int) returns (blocked: bool)
      ensures blocked <==> IsBlocked(rules, exe, now)
    {
      for i := 0 to |rules|
        invariant forall r :: r in rules[..i] ==> !BlocksAt(r, exe, now)
      {
        if BlocksAt(rules[i], exe, now) {
          return true;
        }
      }
      assert rules[..|rules|] == rules;
      blocked := false;
    }
  }

  lemma {:induction false} IndexOfIdFinds(rules: seq<Rule>, id: nat)
    ensures IndexOfId(rules, id).Some? <==> exists r :: r in rules && r.id == id
    ensures IndexOfId(rules, id).Some? ==>
              IndexOfId(rules, id).value < |rules| && rules[IndexOfId(rules, id).value].id == id
  {
    if rules == [] {
    } else {
      assert rules == [rules[0]] + rules[1..];
      IndexOfIdFinds(rules[1..], id);
    }
  }

  // ------------------------------------------------------- the store refines a map of rules

  type RuleKey = (PathBuf, RuleAction)

  function KeyOf(r: Rule): RuleKey {
    (r.exePath, r.action)
  }

  /** At most one rule per executable and action; ids rise along the list and stay below the next. */
  ghost predicate Sound(nextId: nat, rules: seq<Rule>) {
    && (forall i, j :: 0 <= i < j < |rules| ==> KeyOf(rules[i]) != KeyOf(rules[j]))
    && (forall i, j :: 0 <= i < j < |rules| ==> rules[i].id < rules[j].id)
    && (forall i :: 0 <= i < |rules| ==> 1 <= rules[i].id < nextId)
    && 1 <= nextId
  }

  /** The map the list stands for. */
  function RuleMap(rules: seq<Rule>): map<RuleKey, Rule> {
    if rules == [] then map[]
    else RuleMap(rules[..|rules| - 1])[KeyOf(rules[|rules| - 1]) := rules[|rules| - 1]]
  }

  lemma {:induction false} RuleMapIsList(nextId: nat, rules: seq<Rule>)
    requires Sound(nextId, rules)
    ensures forall k :: k in RuleMap(rules) ==> RuleMap(rules)[k] in rules && KeyOf(RuleMap(rules)[k]) == k
    ensures forall r :: r in rules ==> KeyOf(r) in RuleMap(rules) && RuleMap(rules)[KeyOf(r)] == r
    decreases |rules|
  {
    if rules == [] {
    } else {
      var init, last := rules[..|rules| - 1], rules[|rules| - 1];
      assert rules == init + [last];
      RuleMapIsList(nextId, init);
    }
  }

  /** A verdict is a lookup in that map: its one Block rule for the path decides, while it lasts. */
  lemma BlockedIsLookup(nextId: nat, rules: seq<Rule>, exe: PathBuf, now: int)
    requires Sound(nextId, rules)
    ensures IsBlocked(rules, exe, now) <==>
            (exe, Block) in RuleMap(rules) && !IsExpired(RuleMap(rules)[(exe, Block)], now)
  {
    RuleMapIsList(nextId, rules);
    if r :| r in rules && BlocksAt(r, exe, now) {
      assert KeyOf(r) == (exe, Block);
    } else if (exe, Block) in RuleMap(rules) {
      assert RuleMap(rules)[(exe, Block)] in rules;
    }
  }

  /** `kept` is `rules` with some rules left out. */
  ghost predicate Subsequence(kept: seq<Rule>, rules: seq<Rule>) {
    if kept == [] then true
    else if rules == [] then false
    else
      || Subsequence(kept, rules[1..])
      || (kept[0] == rules[0] && Subsequence(kept[1..], rules[1..]))
  }

  lemma {:induction false} SubsequenceElements(kept: seq<Rule>, rules: seq<Rule>)
    requires Subsequence(kept, rules)
    ensures forall r :: r in kept ==> r in rules
    decreases |rules|
  {
    if kept == [] {
    } else {
      assert rules == [rules[0]] + rules[1..];
      if Subsequence(kept, rules[1..]) {
        SubsequenceElements(kept, rules[1..]);
      } else {
        assert kept == [kept[0]] + kept[1..];
        SubsequenceElements(kept[1..], rules[1..]);
      }
    }
  }

  lemma {:induction false} SubsequenceIsSound(nextId: nat, kept: seq<Rule>, rules: seq<Rule>)
    requires Sound(nextId, rules) && Subsequence(kept, rules)
    ensures Sound(nextId, kept)
    decreases |rules|
  {
    if kept == [] {
    } else {
      var rest := rules[1..];
      assert forall i :: 0 <= i < |rest| ==> rest[i] == rules[i + 1];
      if Subsequence(kept, rest) {
        SubsequenceIsSound(nextId, kept, rest);
      } else {
        SubsequenceIsSound(nextId, kept[1..], rest);
        SubsequenceElements(kept[1..], rest);
        forall j | 0 < j < |kept| ensures KeyOf(kept[0]) != KeyOf(kept[j]) && kept[0].id < kept[j].id {
          assert kept[j] == kept[1..][j - 1] && kept[1..][j - 1] in rest;
        }
        assert forall i, j :: 0 < i < j < |kept| ==> kept[i] == kept[1..][i - 1] && kept[j] == kept[1..][j - 1];
      }
    }
  }

  lemma {:induction false} UnexpiredSubsequence(rules: seq<Rule>, now: int)
    ensures Subsequence(Unexpired(rules, now), rules)
  {
    if rules == [] {
    } else {
      UnexpiredSubsequence(rules[1..], now);
      if !IsExpired(rules[0], now) {
        assert Unexpired(rules, now)[1..] == Unexpired(rules[1..], now);
      }
    }
  }

  lemma {:induction false} OtherRulesSubsequence(rules: seq<Rule>, exe: PathBuf, action: RuleAction)
    ensures Subsequence(OtherRules(rules, exe, action), rules)
  {
    if rules == [] {
    } else {
      OtherRulesSubsequence(rules[1..], exe, action);
      if !(rules[0].exePath == exe && rules[0].action == action) {
        assert OtherRules(rules, exe, action)[1..] == OtherRules(rules[1..], exe, action);
      }
    }
  }

  lemma {:induction false} SubsequenceRefl(rules: seq<Rule>)
    ensures Subsequence(rules, rules)
  {
    if rules == [] {
    } else {
      SubsequenceRefl(rules[1..]);
    }
  }

  lemma {:induction false} CutSubsequence(rules: seq<Rule>, i: nat)
    requires i < |rules|
    ensures Subsequence(rules[..i] + rules[i + 1..], rules)
  {
    var cut := rules[..i] + rules[i + 1..];
    if i == 0 {
      assert cut == rules[1..];
      SubsequenceRefl(rules[1..]);
    } else {
      CutSubsequence(rules[1..], i - 1);
      assert cut[1..] == rules[1..][..i - 1] + rules[1..][i..];
    }
  }

  lemma AppendIsSound(nextId: nat, kept: seq<Rule>, rule: Rule)
    requires Sound(nextId, kept) && rule.id == nextId
    requires forall r :: r in kept ==> KeyOf(r) != KeyOf(rule)
    ensures Sound(nextId + 1, kept + [rule])
  {
    assert forall i :: 0 <= i < |kept| ==> kept[i] in kept;
  }

  lemma AddIsSound(s: Store, input: RuleInput, now: int, writes: bool)
    requires Sound(s.nextId, s.rules)
    ensures Sound(Added(s, input, now, writes).nextId, Added(s, input, now, writes).rules)
  {
    var kept := OtherRules(s.rules, input.exePath, input.action);
    OtherRulesSubsequence(s.rules, input.exePath, input.action);
    SubsequenceIsSound(s.nextId, kept, s.rules);
    AppendIsSound(s.nextId, kept, NewRule(s.nextId, input, now));
  }

  lemma SameMap<K, V>(m: map<K, V>, n: map<K, V>)
    requires m.Keys == n.Keys && forall k :: k in m ==> m[k] == n[k]
    ensures m == n
  {
  }

  /** `add` updates the map at the rule's key. */
  lemma AddRefines(s: Store, input: RuleInput, now: int, writes: bool)
    requires Sound(s.nextId, s.rules)
    ensures RuleMap(Added(s, input, now, writes).rules)
            == if Refused(input) then RuleMap(s.rules)
               else RuleMap(s.rules)[(input.exePath, input.action) := NewRule(s.nextId, input, now)]
  {
    if !Refused(input) {
      var kept, rule := OtherRules(s.rules, input.exePath, input.action), NewRule(s.nextId, input, now);
      OtherRulesSubsequence(s.rules, input.exePath, input.action);
      RuleMapIsList(s.nextId, s.rules);
      SubsequenceMap(s.nextId, kept, s.rules);
      RuleMapAppend(kept, rule);
      ReplacedAlike(RuleMap(s.rules), RuleMap(kept), (input.exePath, input.action), rule);
    }
  }

  lemma RuleMapAppend(rules: seq<Rule>, rule: Rule)
    ensures RuleMap(rules + [rule]) == RuleMap(rules)[KeyOf(rule) := rule]
  {
    assert (rules + [rule])[..|rules|] == rules;
  }

  lemma ReplacedAlike(m: map<RuleKey, Rule>, n: map<RuleKey, Rule>, key: RuleKey, rule: Rule)
    requires forall k :: k != key ==> (k in m <==> k in n) && (k in m ==> m[k] == n[k])
    ensures n[key := rule] == m[key := rule]
  {
  }

  lemma RemoveIsSubsequence(s: Store, id: nat, writes: bool)
    ensures Subsequence(Removed(s, id, writes).rules, s.rules)
  {
    IndexOfIdFinds(s.rules, id);
    match IndexOfId(s.rules, id)
    case None => SubsequenceRefl(s.rules);
    case Some(i) => CutSubsequence(s.rules, i);
  }

  lemma CutElements(rules: seq<Rule>, i: nat)
    requires (forall i, j :: 0 <= i < j < |rules| ==> rules[i].id < rules[j].id) && i < |rules|
    ensures forall r :: r in rules[..i] + rules[i + 1..] <==> r in rules && r.id != rules[i].id
  {
    var cut := rules[..i] + rules[i + 1..];
    assert rules == rules[..i] + [rules[i]] + rules[i + 1..];
    assert forall r :: r in rules <==> r in cut || r == rules[i];
    assert forall r :: r in rules[..i] ==> r.id < rules[i].id;
    assert forall r :: r in rules[i + 1..] ==> r.id > rules[i].id;
  }

  lemma RemoveElements(s: Store, id: nat, writes: bool)
    requires Sound(s.nextId, s.rules)
    ensures forall r :: r in Removed(s, id, writes).rules <==> r in s.rules && r.id != id
  {
    IndexOfIdFinds(s.rules, id);
    match IndexOfId(s.rules, id)
    case None =>
    case Some(i) => CutElements(s.rules, i);
  }

  lemma SubsequenceMap(nextId: nat, kept: seq<Rule>, rules: seq<Rule>)
    requires Sound(nextId, rules) && Subsequence(kept, rules)
    ensures RuleMap(kept) == map k | k in RuleMap(rules) && RuleMap(rules)[k] in kept :: RuleMap(rules)[k]
  {
    SubsequenceIsSound(nextId, kept, rules);
    SubsequenceElements(kept, rules);
    RuleMapIsList(nextId, rules);
    RuleMapIsList(nextId, kept);
    var m, n := RuleMap(kept), map k | k in RuleMap(rules) && RuleMap(rules)[k] in kept :: RuleMap(rules)[k];
    forall k | k in m ensures k in n && m[k] == n[k] {
      assert m[k] in rules;
    }
    SameMap(m, n);
  }

  /** `remove` takes the rule with the id out of the map, and nothing else. */
  lemma RemoveRefines(s: Store, id: nat, writes: bool)
    requires Sound(s.nextId, s.rules)
    ensures var m := RuleMap(s.rules);
            RuleMap(Removed(s, id, writes).rules) == map k | k in m && m[k].id != id :: m[k]
  {
    RemoveIsSubsequence(s, id, writes);
    RemoveElements(s, id, writes);
    SubsequenceMap(s.nextId, Removed(s, id, writes).rules, s.rules);
    RuleMapIsList(s.nextId, s.rules);
  }

  /** Reaping takes the expired rules out of the map, and nothing else. */
  lemma ReapRefines(s: Store, now: int, writes: bool)
    requires Sound(s.nextId, s.rules)
    ensures var m := RuleMap(s.rules);
            RuleMap(Reaped(s, now, writes).rules) == map k | k in m && !IsExpired(m[k], now) :: m[k]
  {
    UnexpiredSubsequence(s.rules, now);
    SubsequenceMap(s.nextId, Unexpired(s.rules, now), s.rules);
    RuleMapIsList(s.nextId, s.rules);
    RestrictedAlike(RuleMap(s.rules), s.rules, now);
  }

  lemma RestrictedAlike(m: map<RuleKey, Rule>, rules: seq<Rule>, now: int)
    requires forall k :: k in m ==> m[k] in rules
    ensures (map k | k in m && m[k] in Unexpired(rules, now) :: m[k]) == map k | k in m && !IsExpired(m[k], now) :: m[k]
  {
  }

  // -------------------------------------------------------------- runs, disk and restarts

  datatype Op =
    | AddOp(input: RuleInput)
    | RemoveOp(id: nat)
    | ReapOp
    | SaveOp
    | RestartOp

  /** One operation at `now`, whose save, if it makes one, may fail. */
  function Tried(s: Store, op: Op, now: int, writes: bool): Store {
    match op
    case AddOp(input) => Added(s, input, now, writes)
    case RemoveOp(id) => Removed(s, id, writes)
    case ReapOp => Reaped(s, now, writes)
    case SaveOp => Saved(s, writes)
    case RestartOp => LoadedFrom(s.disk, now)
  }

  /** ... and with a successful one. */
  function Step(s: Store, op: Op, now: int): Store {
    Tried(s, op, now, true)
  }

  /** The operation hands out an id. */
  predicate Issues(op: Op) {
    op.AddOp? && !Refused(op.input)
  }

  datatype Timed = Timed(op: Op, now: int)

  const FRESH: Store := Store(1, [], None)

  function Run(ops: seq<Timed>): Store
    decreases |ops|
  {
    if ops == [] then FRESH
    else Step(Run(ops[..|ops| - 1]), ops[|ops| - 1].op, ops[|ops| - 1].now)
  }

  /** Every id handed out, in order. */
  function Issued(ops: seq<Timed>): seq<nat>
    decreases |ops|
  {
    if ops == [] then []
    else
      var init := ops[..|ops| - 1];
      Issued(init) + if Issues(ops[|ops| - 1].op) then [Run(init).nextId] else []
  }

  predicate Mirrored(s: Store) {
    s.disk == Some(Persisted(s.nextId, s.rules))
  }

  /** The file is never behind: a reader would see the same next id, and every rule in memory. */
  ghost predicate DiskOk(s: Store) {
    match s.disk
    case None => s.rules == [] && s.nextId == 1
    case Some(p) => p.nextId == s.nextId && Sound(p.nextId, p.rules) && Subsequence(s.rules, p.rules)
  }

  lemma {:induction false} MaxIdBelow(rules: seq<Rule>, n: nat)
    requires 1 <= n && forall i :: 0 <= i < |rules| ==> rules[i].id < n
    ensures MaxId(rules) < n
  {
    if rules == [] {
    } else {
      MaxIdBelow(rules[1..], n);
    }
  }

  lemma {:induction false} MaxIdIsMax(rules: seq<Rule>)
    ensures forall r :: r in rules ==> r.id <= MaxId(rules)
    ensures rules != [] ==> exists r :: r in rules && r.id == MaxId(rules)
  {
    if rules == [] {
    } else {
      MaxIdIsMax(rules[1..]);
      assert rules == [rules[0]] + rules[1..];
      if MaxId(rules) == rules[0].id {
        assert rules[0] in rules;
      }
    }
  }

  /** Whatever the file holds: what is loaded are its unexpired rules, in order, and the next id is the
      smallest that is neither below the file's nor taken by one of them or a smaller one. */
  lemma LoadMeans(p: Persisted, now: int)
    ensures var s := LoadedFrom(Some(p), now);
            && s.rules == Unexpired(p.rules, now) && s.disk == Some(p)
            && p.nextId <= s.nextId && (forall r :: r in s.rules ==> r.id < s.nextId)
            && (s.nextId <= 1 || s.nextId == p.nextId || exists r :: r in s.rules && s.nextId == r.id + 1)
    ensures LoadedFrom(None, now) == Store(1, [], None)
  {
    MaxIdIsMax(Unexpired(p.rules, now));
  }

  lemma RestartIsSound(s: Store, now: int)
    requires Sound(s.nextId, s.rules) && DiskOk(s)
    ensures var s' := LoadedFrom(s.disk, now);
            Sound(s'.nextId, s'.rules) && DiskOk(s') && s'.nextId == s.nextId
  {
    if s.disk.Some? {
      var p := s.disk.value;
      UnexpiredSubsequence(p.rules, now);
      SubsequenceIsSound(p.nextId, Unexpired(p.rules, now), p.rules);
      MaxIdBelow(Unexpired(p.rules, now), p.nextId);
    }
  }

  lemma StepIsSound(s: Store, op: Op, now: int)
    requires Sound(s.nextId, s.rules) && DiskOk(s)
    ensures Sound(Step(s, op, now).nextId, Step(s, op, now).rules) && DiskOk(Step(s, op, now))
    ensures Step(s, op, now).nextId == s.nextId + if Issues(op) then 1 else 0
  {
    SubsequenceRefl(Step(s, op, now).rules);
    match op
    case AddOp(input) => AddIsSound(s, input, now, true);
    case RemoveOp(id) =>
      RemoveIsSubsequence(s, id, true);
      SubsequenceIsSound(s.nextId, Removed(s, id, true).rules, s.rules);
    case ReapOp =>
      UnexpiredSubsequence(s.rules, now);
      SubsequenceIsSound(s.nextId, Unexpired(s.rules, now), s.rules);
      NothingReaped(s.rules, now);
    case SaveOp =>
    case RestartOp => RestartIsSound(s, now);
  }

  lemma {:induction false} UnexpiredLength(rules: seq<Rule>, now: int)
    ensures |Unexpired(rules, now)| + |ExpiredIds(rules, now)| == |rules|
  {
    if rules == [] {
    } else {
      UnexpiredLength(rules[1..], now);
    }
  }

  lemma {:induction false} NothingReaped(rules: seq<Rule>, now: int)
    ensures |Unexpired(rules, now)| == |rules| ==> Unexpired(rules, now) == rules
  {
    if rules == [] {
    } else {
      NothingReaped(rules[1..], now);
      UnexpiredLength(rules[1..], now);
    }
  }

  /** Over any run of add, remove, reap, save and restart with successful saves, from an empty
      store: one rule per key, rising ids below the next one, and a file that keeps up. */
  lemma {:induction false} SoundInEveryRun(ops: seq<Timed>)
    ensures Sound(Run(ops).nextId, Run(ops).rules) && DiskOk(Run(ops))
    decreases |ops|
  {
    if ops == [] {
    } else {
      var init, last := ops[..|ops| - 1], ops[|ops| - 1];
      SoundInEveryRun(init);
      StepIsSound(Run(init), last.op, last.now);
    }
  }

  /** Whenever an operation changed the rules in memory, the file matches the memory exactly. */
  lemma DiskMatchesAfterMutation(s: Store, op: Op, now: int)
    requires !op.RestartOp?
    ensures Issues(op) || op.SaveOp? || Step(s, op, now).rules != s.rules ==> Mirrored(Step(s, op, now))
  {
    if op.ReapOp? {
      NothingReaped(s.rules, now);
    }
  }

  /** No id is handed out twice, restarts included: ids rise forever. */
  lemma {:induction false} IdsNeverReused(ops: seq<Timed>)
    ensures forall i, j :: 0 <= i < j < |Issued(ops)| ==> Issued(ops)[i] < Issued(ops)[j]
    ensures forall i :: 0 <= i < |Issued(ops)| ==> Issued(ops)[i] < Run(ops).nextId
    decreases |ops|
  {
    if ops == [] {
    } else {
      var init, last := ops[..|ops| - 1], ops[|ops| - 1];
      IdsNeverReused(init);
      SoundInEveryRun(init);
      StepIsSound(Run(init), last.op, last.now);
    }
  }

  /** Restarting right after an add, its id comes back exactly when its save failed. */
  lemma IdReusedIffSaveFailed(s: Store, input: RuleInput, now: int, writes: bool, restart: int)
    requires Sound(s.nextId, s.rules) && DiskOk(s) && !Refused(input)
    ensures LoadedFrom(Added(s, input, now, writes).disk, restart).nextId == s.nextId <==> !writes
  {
    if writes {
      var s' := Added(s, input, now, true);
      AddIsSound(s, input, now, true);
      SubsequenceRefl(s'.rules);
      RestartIsSound(s', restart);
    } else {
      RestartIsSound(s, restart);
    }
  }

  // ----------------------------------------------------------- runs in which saves may fail

  datatype Attempt = Attempt(op: Op, now: int, writes: bool)

  /** The store after the first `n` attempts. */
  function TriedAt(tries: seq<Attempt>, n: nat): Store
    requires n <= |tries|
    decreases n
  {
    if n == 0 then FRESH
    else Tried(TriedAt(tries, n - 1), tries[n - 1].op, tries[n - 1].now, tries[n - 1].writes)
  }

  /** The operation makes a save. */
  predicate Saves(s: Store, op: Op, now: int) {
    match op
    case AddOp(input) => !Refused(input)
    case RemoveOp(id) => IndexOfId(s.rules, id).Some?
    case ReapOp => |Unexpired(s.rules, now)| != |s.rules|
    case SaveOp => true
    case RestartOp => false
  }

  /** The operation made a save, and it succeeded. */
  predicate SavedAt(tries: seq<Attempt>, m: nat)
    requires m < |tries|
  {
    tries[m].writes && Saves(TriedAt(tries, m), tries[m].op, tries[m].now)
  }

  /** Ids in memory and on disk are below the next id kept with them. */
  ghost predicate IdsBelow(s: Store) {
    && 1 <= s.nextId && (forall r :: r in s.rules ==> r.id < s.nextId)
    && (s.disk.Some? ==>
          var p := s.disk.value;
          1 <= p.nextId <= s.nextId && forall r :: r in p.rules ==> r.id < p.nextId)
  }

  /** The next id that a restart would find. */
  function KeptNextId(s: Store): nat {
    if s.disk.Some? then s.disk.value.nextId else 1
  }

  lemma RestartsAtKeptId(s: Store, now: int)
    requires IdsBelow(s)
    ensures LoadedFrom(s.disk, now).nextId == KeptNextId(s) && IdsBelow(LoadedFrom(s.disk, now))
  {
    if s.disk.Some? {
      MaxIdBelow(Unexpired(s.disk.value.rules, now), s.disk.value.nextId);
    }
  }

  lemma TriedEffect(s: Store, op: Op, now: int, writes: bool)
    requires IdsBelow(s) && !op.RestartOp?
    ensures var t := Tried(s, op, now, writes);
            && IdsBelow(t) && t.nextId == s.nextId + (if Issues(op) then 1 else 0)
            && t.disk == if writes && Saves(s, op, now) then Some(Persisted(t.nextId, t.rules)) else s.disk
  {
    if op.RemoveOp? {
      IndexOfIdFinds(s.rules, op.id);
    }
  }

  lemma {:induction false} IdsBelowInEveryRun(tries: seq<Attempt>, n: nat)
    requires n <= |tries|
    ensures IdsBelow(TriedAt(tries, n))
    decreases n
  {
    if n == 0 {
    } else {
      IdsBelowInEveryRun(tries, n - 1);
      if tries[n - 1].op.RestartOp? {
        RestartsAtKeptId(TriedAt(tries, n - 1), tries[n - 1].now);
      } else {
        TriedEffect(TriedAt(tries, n - 1), tries[n - 1].op, tries[n - 1].now, tries[n - 1].writes);
      }
    }
  }

  /** The ids before and after attempt `n`. */
  lemma OneMoreTry(tries: seq<Attempt>, n: nat)
    requires n < |tries|
    ensures var s, t := TriedAt(tries, n), TriedAt(tries, n + 1);
            && (if tries[n].op.RestartOp? then t.nextId == KeptNextId(s)
                else t.nextId == s.nextId + if Issues(tries[n].op) then 1 else 0)
            && KeptNextId(t) == if SavedAt(tries, n) then t.nextId else KeptNextId(s)
  {
    IdsBelowInEveryRun(tries, n);
    if tries[n].op.RestartOp? {
      RestartsAtKeptId(TriedAt(tries, n), tries[n].now);
    } else {
      TriedEffect(TriedAt(tries, n), tries[n].op, tries[n].now, tries[n].writes);
    }
  }

  /** No save of `tries[i..n]` succeeded. */
  predicate Unsaved(tries: seq<Attempt>, i: nat, n: nat)
    requires n <= |tries|
    decreases n
  {
    n <= i || (Unsaved(tries, i, n - 1) && !SavedAt(tries, n - 1))
  }

  /** Before each restart of `tries[i + 1..n]` some save had succeeded. */
  predicate SavedBeforeRestarts(tries: seq<Attempt>, i: nat, n: nat)
    requires n <= |tries|
    decreases n
  {
    n <= i + 1
    || (SavedBeforeRestarts(tries, i, n - 1) && (tries[n - 1].op.RestartOp? ==> !Unsaved(tries, i, n - 1)))
  }

  lemma {:induction false} SavedBeforeEach(tries: seq<Attempt>, i: nat, n: nat)
    requires n <= |tries|
    ensures SavedBeforeRestarts(tries, i, n) <==>
            forall r :: i < r < n && tries[r].op.RestartOp? ==> !Unsaved(tries, i, r)
    decreases n
  {
    if n <= i + 1 {
    } else {
      SavedBeforeEach(tries, i, n - 1);
    }
  }

  lemma {:induction false} UnsavedKeepsDisk(tries: seq<Attempt>, i: nat, n: nat)
    requires i <= n <= |tries| && Unsaved(tries, i, n)
    ensures KeptNextId(TriedAt(tries, n)) == KeptNextId(TriedAt(tries, i))
    decreases n - i
  {
    if n == i {
    } else {
      UnsavedKeepsDisk(tries, i, n - 1);
      OneMoreTry(tries, n - 1);
    }
  }

  /** An id that was handed out is not due again, and if a save has succeeded since, not after a
      restart either. */
  ghost predicate Keeps(tries: seq<Attempt>, i: nat, n: nat, id: nat)
    requires n <= |tries|
  {
    && TriedAt(tries, n).nextId > id
    && (!Unsaved(tries, i, n) ==> KeptNextId(TriedAt(tries, n)) > id)
  }

  lemma KeepsFirst(tries: seq<Attempt>, i: nat)
    requires i < |tries| && Issues(tries[i].op)
    ensures Keeps(tries, i, i + 1, TriedAt(tries, i).nextId)
  {
    assert Unsaved(tries, i, i);
    OneMoreTry(tries, i);
  }

  lemma KeepsNext(tries: seq<Attempt>, i: nat, n: nat, id: nat)
    requires i < n < |tries| && Keeps(tries, i, n, id)
    requires tries[n].op.RestartOp? ==> !Unsaved(tries, i, n)
    ensures Keeps(tries, i, n + 1, id)
  {
    OneMoreTry(tries, n);
  }

  lemma {:induction false} IdIsKept(tries: seq<Attempt>, i: nat, n: nat)
    requires i < n <= |tries| && Issues(tries[i].op) && SavedBeforeRestarts(tries, i, n)
    ensures Keeps(tries, i, n, TriedAt(tries, i).nextId)
    decreases n - i
  {
    if n == i + 1 {
      KeepsFirst(tries, i);
    } else {
      IdIsKept(tries, i, n - 1);
      KeepsNext(tries, i, n - 1, TriedAt(tries, i).nextId);
    }
  }

  /** Over every run, saves failing or not: an id that was handed out is some time due to be handed
      out again exactly when the daemon is restarted before any save has succeeded since. */
  lemma IdForgottenIff(tries: seq<Attempt>, i: nat)
    requires i < |tries| && Issues(tries[i].op)
    ensures (exists n :: i < n <= |tries| && TriedAt(tries, n).nextId <= TriedAt(tries, i).nextId)
            <==> exists r :: i < r < |tries| && tries[r].op.RestartOp? && Unsaved(tries, i, r)
  {
    var id := TriedAt(tries, i).nextId;
    if r :| i < r < |tries| && tries[r].op.RestartOp? && Unsaved(tries, i, r) {
      IdsBelowInEveryRun(tries, i);
      UnsavedKeepsDisk(tries, i, r);
      OneMoreTry(tries, r);
      assert TriedAt(tries, r + 1).nextId <= id;
    } else {
      forall n | i < n <= |tries| ensures TriedAt(tries, n).nextId > id {
        SavedBeforeEach(tries, i, n);
        IdIsKept(tries, i, n);
      }
    }
  }

  // ---------------------------------------------------------------------- times to live

  /** A rule is stored and expires when asked exactly if that instant is in the calendar. */
  lemma ExpiresAsAskedIff(id: nat, input: RuleInput, now: int)
    requires FIRST_INSTANT <= now <= LAST_INSTANT && input.ttlSecs.Some?
    ensures !Refused(input) && NewRule(id, input, now).expiresAt == Some(now + input.ttlSecs.value * SECOND)
            <==> now + input.ttlSecs.value * SECOND <= LAST_INSTANT
  {
  }

  /** What becomes of the others: up to the longest duration they never expire, the largest ones have
      expired before they are stored, and those in between are not stored. */
  lemma OverlongTtl(id: nat, input: RuleInput, now: int)
    requires FIRST_INSTANT <= now <= LAST_INSTANT && input.ttlSecs.Some?
    requires now + input.ttlSecs.value * SECOND > LAST_INSTANT
    ensures var ttl, rule := input.ttlSecs.value, NewRule(id, input, now);
            if ttl <= MAX_DURATION_SECS then !Refused(input) && rule.expiresAt == None
            else if ttl < 0x1_0000_0000_0000_0000 - MAX_DURATION_SECS then Refused(input)
            else !Refused(input) && (rule.expiresAt.Some? ==> IsExpired(rule, now))
  {
  }

  // ------------------------------------------------------------- reaping and restarting

  /** Reaping removes exactly the expired rules, and reports exactly the ids it removed. */
  lemma {:induction false} ReapedIdsAreExact(rules: seq<Rule>, now: int)
    ensures forall id :: id in ExpiredIds(rules, now) <==> exists r :: r in rules && IsExpired(r, now) && r.id == id
  {
    if rules == [] {
    } else {
      ReapedIdsAreExact(rules[1..], now);
      assert rules == [rules[0]] + rules[1..];
    }
  }

  lemma ReportedIffRemoved(s: Store, now: int, writes: bool, rule: Rule)
    requires Sound(s.nextId, s.rules) && rule in s.rules
    ensures rule.id in ExpiredIds(s.rules, now) <==> rule !in Reaped(s, now, writes).rules
  {
    ReapedIdsAreExact(s.rules, now);
    if rule.id in ExpiredIds(s.rules, now) {
      var r :| r in s.rules && IsExpired(r, now) && r.id == rule.id;
      SameIdSameRule(s.nextId, s.rules, r, rule);
    }
  }

  lemma SameIdSameRule(nextId: nat, rules: seq<Rule>, a: Rule, b: Rule)
    requires Sound(nextId, rules) && a in rules && b in rules && a.id == b.id
    ensures a == b
  {
    var i :| 0 <= i < |rules| && rules[i] == a;
    var j :| 0 <= j < |rules| && rules[j] == b;
    assert !(i < j) && !(j < i);
  }

  lemma DroppingExpiredIsInvisible(rules: seq<Rule>, now: int, exe: PathBuf, later: int)
    requires now <= later
    ensures IsBlocked(Unexpired(rules, now), exe, later) <==> IsBlocked(rules, exe, later)
  {
    if IsBlocked(rules, exe, later) {
      var r :| r in rules && BlocksAt(r, exe, later);
      assert r in Unexpired(rules, now);
    }
  }

  /** Reaping at `now` changes no verdict from then on. */
  lemma ReapIsTransparent(s: Store, now: int, writes: bool, exe: PathBuf, later: int)
    requires now <= later
    ensures IsBlocked(Reaped(s, now, writes).rules, exe, later) <==> IsBlocked(s.rules, exe, later)
  {
    DroppingExpiredIsInvisible(s.rules, now, exe, later);
  }

  /** Nor does a save followed by a restart at `now`, for any rules whatever. */
  lemma RestartIsTransparent(s: Store, now: int, exe: PathBuf, later: int)
    requires now <= later
    ensures IsBlocked(LoadedFrom(Saved(s, true).disk, now).rules, exe, later) <==> IsBlocked(s.rules, exe, later)
  {
    DroppingExpiredIsInvisible(s.rules, now, exe, later);
  }

  // ------------------------------------------------------ what the documentation promises

  /** The documented end of a rule: a persistent one has none, a temporary one ends at its expiry
      time, if it has one. */
  predicate EndedAsDocumented(rule: Rule, now: int) {
    !rule.persistent && IsExpired(rule, now)
  }

  /** The documented restart: persistent rules survive it, of the others those that wait for an
      expiry time still to come; without an expiry time they end with the daemon. */
  function DocumentedRestart(rules: seq<Rule>, now: int): (kept: seq<Rule>)
    ensures forall r :: r in kept <==> r in rules && (r.persistent || (r.expiresAt.Some? && !IsExpired(r, now)))
  {
    if rules == [] then []
    else
      var rest := DocumentedRestart(rules[1..], now);
      if rules[0].persistent || (rules[0].expiresAt.Some? && !IsExpired(rules[0], now)) then [rules[0]] + rest else rest
  }

  ghost predicate BlockedAsDocumented(rules: seq<Rule>, exe: PathBuf, now: int) {
    exists r :: r in rules && r.action == Block && r.exePath == exe && !EndedAsDocumented(r, now)
  }

  /** Saved, restarted at `now` and asked at `later`: what the code answers, what the documentation
      promises, and the condition under which they agree, on the rule for the path if any. */
  ghost predicate CodeBlocks(s: Store, exe: PathBuf, now: int, later: int) {
    IsBlocked(LoadedFrom(Saved(s, true).disk, now).rules, exe, later)
  }

  ghost predicate DocumentsBlock(s: Store, exe: PathBuf, now: int, later: int) {
    BlockedAsDocumented(DocumentedRestart(s.rules, now), exe, later)
  }

  predicate KeptAsDocumented(rule: Rule, later: int) {
    if rule.persistent then !IsExpired(rule, later) else rule.expiresAt.Some?
  }

  lemma OneBlockRule(nextId: nat, rules: seq<Rule>, a: Rule, b: Rule)
    requires Sound(nextId, rules) && a in rules && b in rules && KeyOf(a) == KeyOf(b)
    ensures a == b
  {
    var i :| 0 <= i < |rules| && rules[i] == a;
    var j :| 0 <= j < |rules| && rules[j] == b;
    assert !(i < j) && !(j < i);
  }

  lemma CodeBlocksIff(s: Store, rule: Rule, exe: PathBuf, now: int, later: int)
    requires Sound(s.nextId, s.rules) && now <= later
    requires rule in s.rules && rule.action == Block && rule.exePath == exe
    ensures CodeBlocks(s, exe, now, later) <==> !IsExpired(rule, later)
  {
    RestartIsTransparent(s, now, exe, later);
    if r :| r in s.rules && BlocksAt(r, exe, later) {
      OneBlockRule(s.nextId, s.rules, r, rule);
    }
    assert BlocksAt(rule, exe, later) <==> !IsExpired(rule, later);
  }

  lemma DocumentsBlockIff(s: Store, rule: Rule, exe: PathBuf, now: int, later: int)
    requires Sound(s.nextId, s.rules) && now <= later
    requires rule in s.rules && rule.action == Block && rule.exePath == exe
    ensures DocumentsBlock(s, exe, now, later) <==>
            rule.persistent || (rule.expiresAt.Some? && !IsExpired(rule, later))
  {
    var kept := DocumentedRestart(s.rules, now);
    if r :| r in kept && r.action == Block && r.exePath == exe && !EndedAsDocumented(r, later) {
      OneBlockRule(s.nextId, s.rules, r, rule);
    }
    assert rule.persistent || (rule.expiresAt.Some? && !IsExpired(rule, later)) ==> rule in kept;
  }

  /** For every path and every later time: after a restart the code's verdict is the documented one
      exactly if no Block rule for the path is temporary without an expiry time (the code keeps it)
      or persistent with an expiry time that has passed (the code lets it expire). */
  lemma RestartAsDocumentedIff(s: Store, now: int, exe: PathBuf, later: int)
    requires Sound(s.nextId, s.rules) && now <= later
    ensures (CodeBlocks(s, exe, now, later) <==> DocumentsBlock(s, exe, now, later))
            <==> forall r :: r in s.rules && r.action == Block && r.exePath == exe ==> KeptAsDocumented(r, later)
  {
    if rule :| rule in s.rules && rule.action == Block && rule.exePath == exe {
      CodeBlocksIff(s, rule, exe, now, later);
      DocumentsBlockIff(s, rule, exe, now, later);
      if KeptAsDocumented(rule, later) {
        forall r | r in s.rules && r.action == Block && r.exePath == exe ensures KeptAsDocumented(r, later) {
          OneBlockRule(s.nextId, s.rules, r, rule);
        }
      }
    }
  }

  /** A store that was given one rule at time 0. */
  function OneRule(persistent: bool, ttlSecs: Option<U64>): seq<Timed> {
    [Timed(AddOp(RuleInput("app", PathBuf("/app", []), Block, persistent, ttlSecs)), 0)]
  }

  /** Both ways of failing, on rules a user may add: a temporary rule without an expiry time blocks
      on after a restart, a persistent one with five seconds to live blocks no more after five. */
  lemma RestartIsNotAsDocumented()
    ensures var s, exe := Run(OneRule(false, None)), PathBuf("/app", []);
            CodeBlocks(s, exe, 1, 1) && !DocumentsBlock(s, exe, 1, 1)
    ensures var s, exe := Run(OneRule(true, Some(5))), PathBuf("/app", []);
            !CodeBlocks(s, exe, 1, 5 * SECOND) && DocumentsBlock(s, exe, 1, 5 * SECOND)
  {
    OneRuleDiffers(false, None, 1);
    OneRuleDiffers(true, Some(5), 5 * SECOND);
  }

  lemma OneRuleDiffers(persistent: bool, ttlSecs: Option<U64>, later: int)
    requires 1 <= later && (ttlSecs.Some? ==> ttlSecs.value <= 1_000_000)
    ensures var s, exe := Run(OneRule(persistent, ttlSecs)), PathBuf("/app", []);
            && (CodeBlocks(s, exe, 1, later) <==> ttlSecs == None || later < ttlSecs.value * SECOND)
            && (DocumentsBlock(s, exe, 1, later) <==>
                persistent || (ttlSecs.Some? && later < ttlSecs.value * SECOND))
  {
    var rule := OneRuleStored(persistent, ttlSecs);
    var s := Run(OneRule(persistent, ttlSecs));
    CodeBlocksIff(s, rule, rule.exePath, 1, later);
    DocumentsBlockIff(s, rule, rule.exePath, 1, later);
  }

  lemma OneRuleStored(persistent: bool, ttlSecs: Option<U64>) returns (rule: Rule)
    requires ttlSecs.Some? ==> ttlSecs.value <= 1_000_000
    ensures var s := Run(OneRule(persistent, ttlSecs));
            s.rules == [rule] && Sound(s.nextId, s.rules)
    ensures rule.exePath == PathBuf("/app", []) && rule.action == Block && rule.persistent == persistent
    ensures rule.expiresAt == if ttlSecs.Some? then Some(ttlSecs.value * SECOND) else None
  {
    var ops := OneRule(persistent, ttlSecs);
    rule := NewRule(1, ops[0].op.input, 0);
    SoundInEveryRun(ops);
    assert ops[..|ops| - 1] == [];
    assert Run(ops[..|ops| - 1]) == FRESH;
    assert Run(ops) == Step(FRESH, ops[0].op, 0);
    assert OtherRules([], rule.exePath, Block) + [rule] == [rule];
  }
}
