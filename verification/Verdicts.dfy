/** Per-packet verdicts (`decide` in crates/daemon/src/firewall.rs) and their bookkeeping. */
module Verdicts {
  import opened Types
  import opened Collections
  import opened Text
  import opened Conntrack
  import opened FlowTable
  import opened Packet
  import opened Rules
  import opened Throttle

  datatype Verdict = Accept | Drop

  /** An info line about blocked connections: `count` of them, from `exe` to `dst`. */
  datatype Line = Line(exe: PathBuf, dst: string, count: nat)

  /** Everything one verdict depends on besides the worker: the packet, what attribution says of
      its protocol and local port, which executables are blocked, and the clock. */
  datatype Query = Query(
    payload: Bytes,
    attribute: (Protocol, nat) -> Attributed,
    blocked: PathBuf -> bool,
    now: int)

  /** The executable a packet is dropped for, and its destination. */
  function Culprit(codec: AddrText, paused: bool, q: Query): Option<Key> {
    if paused then None
    else
      match ParsePacket(q.payload)
      case None => None
      case Some(e) =>
        var who := q.attribute(e.proto, e.localPort);
        if who.pid.Some? && who.exe.Some? && q.blocked(who.exe.value) then
          Some((who.exe.value, Endpoint(codec, e.remote, e.remotePort)))
        else None
  }

  /** Why a packet is dropped: the worker is not paused, the packet is parsed, its protocol and local
      port are attributed to a process with an exe, and that exe is blocked. */
  predicate ShouldDrop(paused: bool, q: Query) {
    && !paused && ParsePacket(q.payload).Some?
    && var e := ParsePacket(q.payload).value;
       var who := q.attribute(e.proto, e.localPort);
       who.pid.Some? && who.exe.Some? && q.blocked(who.exe.value)
  }

  /** The executable that a dropped packet is from, and the text of where it was going. */
  function ExeOf(q: Query): PathBuf
    requires ShouldDrop(false, q)
  {
    var e := ParsePacket(q.payload).value;
    q.attribute(e.proto, e.localPort).exe.value
  }

  function DestinationOf(codec: AddrText, q: Query): string
    requires ShouldDrop(false, q)
  {
    var e := ParsePacket(q.payload).value;
    codec.render(e.remote) + ":" + Decimal(e.remotePort)
  }

  lemma CulpritIff(codec: AddrText, paused: bool, q: Query)
    ensures Culprit(codec, paused, q).Some? <==> ShouldDrop(paused, q)
    ensures ShouldDrop(paused, q) ==> Culprit(codec, paused, q).value == (ExeOf(q), DestinationOf(codec, q))
  {
  }

  /** With the rules of the daemon's store at `wall` time: a packet is dropped exactly if the worker is
      not paused and some rule blocks the exe of the process that the packet is attributed to. */
  lemma DroppedIffRuleBlocks(codec: AddrText, w: Worker, q: Query, rules: seq<Rule>, wall: int)
    requires forall exe :: q.blocked(exe) <==> IsBlocked(rules, exe, wall)
    ensures Judged(w, Culprit(codec, w.paused, q), q.now).1 == Drop <==>
            && !w.paused && ParsePacket(q.payload).Some?
            && var e := ParsePacket(q.payload).value;
               var who := q.attribute(e.proto, e.localPort);
               && who.pid.Some?
               && exists r :: r in rules && r.action == Block && who.exe == Some(r.exePath)
                              && (r.expiresAt.Some? ==> wall < r.expiresAt.value)
  {
    CulpritIff(codec, w.paused, q);
    if ParsePacket(q.payload).Some? {
      var e := ParsePacket(q.payload).value;
      var exe := q.attribute(e.proto, e.localPort).exe;
      if exe.Some? && q.blocked(exe.value) {
        var r :| r in rules && BlocksAt(r, exe.value, wall);
      }
      if r :| r in rules && r.action == Block && exe == Some(r.exePath)
              && (r.expiresAt.Some? ==> wall < r.expiresAt.value) {
        assert BlocksAt(r, exe.value, wall);
      }
    }
  }

  datatype Worker = Worker(paused: bool, blockedCount: nat, window: nat, entries: map<Key, Entry>, log: seq<Line>)

  function Judged(w: Worker, key: Option<Key>, now: int): (Worker, Verdict) {
    if key == None then (w, Accept)
    else
      var (entry, action) := Touch(Get(w.entries, key.value), w.window, now);
      var line := Line(key.value.0, key.value.1, Lines(action));
      (w.(blockedCount := w.blockedCount + 1, entries := w.entries[key.value := entry],
          log := if action == Suppress then w.log else w.log + [line]),
       Drop)
  }

  class QueueWorker {
    const codec: AddrText
    const throttle: LogThrottle
    var paused: bool
    var blockedCount: nat
    /** The info lines written so far. */
    var log: seq<Line>

    function State(): Worker
      reads this, throttle
    {
      Worker(paused, blockedCount, throttle.window, throttle.entries, log)
    }

    constructor (codec: AddrText, throttle: LogThrottle)
      ensures this.codec == codec && this.throttle == throttle
      ensures !paused && blockedCount == 0 && log == []
    {
      this.codec, this.throttle := codec, throttle;
      paused, blockedCount, log := false, 0, [];
    }

    method SetPaused(p: bool)
      modifies this`paused
      ensures State() == old(State()).(paused := p)
    {
      paused := p;
    }

    method Decide(q: Query) returns (verdict: Verdict)
      modifies this, throttle
      ensures (State(), verdict) == Judged(old(State()), Culprit(codec, old(paused), q), q.now)
      ensures verdict == Drop <==> ShouldDrop(old(paused), q)
      ensures verdict == Drop ==>
                var key := (ExeOf(q), DestinationOf(codec, q));
                && blockedCount == old(blockedCount) + 1
                && key in throttle.entries && throttle.entries - {key} == old(throttle.entries) - {key}
                && log == (if key !in old(throttle.entries) then old(log) + [Line(key.0, key.1, 1)]
                           else if Elapsed(q.now, old(throttle.entries)[key].windowStart) < throttle.window then
                             old(log)
                           else old(log) + [Line(key.0, key.1, old(throttle.entries)[key].suppressed + 1)])
      ensures verdict == Accept ==> State() == old(State())
    {
      if paused {
        return Accept;
      }
      var parsed := ParsePacket(q.payload);
      if parsed == None {
        return Accept;
      }
      var e := parsed.value;
      var dst := codec.render(e.remote) + ":" + Decimal(e.remotePort);
      var who := q.attribute(e.proto, e.localPort);
      if who.pid == None || who.exe == None {
        return Accept;
      }
      var exe := who.exe.value;
      if !q.blocked(exe) {
        return Accept;
      }
      blockedCount := blockedCount + 1;
      var action := throttle.ShouldLog((exe, dst), q.now);
      match action {
        case First => log := log + [Line(exe, dst, 1)];
        case Suppress =>
        case Summary(n) => log := log + [Line(exe, dst, n)];
      }
      CulpritIff(codec, old(paused), q);
      verdict := Drop;
    }
  }

  // --------------------------------------------------------------------------- whole runs

  datatype Step = Pause(paused: bool) | Judge(query: Query)

  function WorkerAfter(codec: AddrText, window: nat, steps: seq<Step>): Worker
    decreases |steps|
  {
    if steps == [] then Worker(false, 0, window, map[], [])
    else
      var w := WorkerAfter(codec, window, steps[..|steps| - 1]);
      match steps[|steps| - 1]
      case Pause(p) => w.(paused := p)
      case Judge(q) => Judged(w, Culprit(codec, w.paused, q), q.now).0
  }

  /** The keys of the dropped packets, in order: one call of the throttle for each. */
  function Dropped(codec: AddrText, window: nat, steps: seq<Step>): seq<Call>
    decreases |steps|
  {
    if steps == [] then []
    else
      var init, last := steps[..|steps| - 1], steps[|steps| - 1];
      var before := Dropped(codec, window, init);
      if last.Pause? then before
      else
        var key := Culprit(codec, WorkerAfter(codec, window, init).paused, last.query);
        if key == None then before else before + [Call(key.value, last.query.now)]
  }

  /** The worker's loop: packets are judged one after the other, while pausing may be toggled in
      between. It counts the Drop verdicts it gives. */
  method QueueLoop(w: QueueWorker, steps: seq<Step>) returns (drops: nat)
    requires w.State() == Worker(false, 0, w.throttle.window, map[], [])
    modifies w, w.throttle
    ensures w.State() == WorkerAfter(w.codec, w.throttle.window, steps)
    ensures drops == |Dropped(w.codec, w.throttle.window, steps)|
  {
    drops := 0;
    for i := 0 to |steps|
      invariant w.State() == WorkerAfter(w.codec, w.throttle.window, steps[..i])
      invariant drops == |Dropped(w.codec, w.throttle.window, steps[..i])|
    {
      assert steps[..i + 1][..i] == steps[..i];
      match steps[i] {
        case Pause(p) => w.SetPaused(p);
        case Judge(q) =>
          var verdict := w.Decide(q);
          if verdict == Drop {
            drops := drops + 1;
          }
      }
    }
    assert steps[..|steps|] == steps;
  }

  function CountOf(line: Line): nat { line.count }

  function SuppressedOf(entry: Entry): nat { entry.suppressed }

  lemma TouchBalances(entry: Option<Entry>, window: nat, now: int)
    ensures var (after, action) := Touch(entry, window, now);
            Lines(action) + after.suppressed == 1 + if entry.Some? then entry.value.suppressed else 0
  {
  }

  /** What the log tells of and what is pending over all keys are the packets dropped. */
  predicate Balanced(logged: nat, pending: nat, drops: nat) {
    logged + pending == drops
  }

  lemma JudgedBalances(w: Worker, key: Option<Key>, now: int)
    requires Balanced(Sum(w.log, CountOf), MapSum(w.entries, SuppressedOf), w.blockedCount)
    ensures var w' := Judged(w, key, now).0;
            Balanced(Sum(w'.log, CountOf), MapSum(w'.entries, SuppressedOf), w'.blockedCount)
  {
    if key.Some? {
      var (entry, action) := Touch(Get(w.entries, key.value), w.window, now);
      TouchBalances(Get(w.entries, key.value), w.window, now);
      MapSumUpdate(w.entries, SuppressedOf, key.value, entry);
      MapSumRemove(w.entries, SuppressedOf, key.value);
      var line := Line(key.value.0, key.value.1, Lines(action));
      SumAppend(w.log, [line], CountOf);
      assert [line][1..] == [];
    }
  }

  /** Over any run of packets and pause toggles: the blocked count is the number of Drop verdicts,
      it is accounted for by the log and the pending repeats of all keys, and the throttle has
      seen exactly the dropped packets. */
  lemma {:induction false} EveryDropIsAccounted(codec: AddrText, window: nat, steps: seq<Step>)
    ensures var w := WorkerAfter(codec, window, steps);
            && w.blockedCount == |Dropped(codec, window, steps)|
            && Balanced(Sum(w.log, CountOf), MapSum(w.entries, SuppressedOf), w.blockedCount)
            && w.entries == EntriesAfter(window, Dropped(codec, window, steps))
            && w.window == window
    decreases |steps|
  {
    if steps == [] {
    } else {
      var init, last := steps[..|steps| - 1], steps[|steps| - 1];
      EveryDropIsAccounted(codec, window, init);
      if last.Judge? {
        var w := WorkerAfter(codec, window, init);
        var key := Culprit(codec, w.paused, last.query);
        JudgedBalances(w, key, last.query.now);
        var calls := Dropped(codec, window, steps);
        assert key.Some? ==> calls[..|calls| - 1] == Dropped(codec, window, init);
      }
    }
  }

  /** ... and for each key on its own. */
  lemma EveryKeyIsAccounted(codec: AddrText, window: nat, steps: seq<Step>, key: Key)
    ensures var calls := Dropped(codec, window, steps);
            Told(window, calls, key) + Pending(WorkerAfter(codec, window, steps).entries, key)
            == |TimesOf(calls, key)|
  {
    EveryDropIsAccounted(codec, window, steps);
    NothingGoesUnreported(window, Dropped(codec, window, steps), key);
  }
}
