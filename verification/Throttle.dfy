/** Rate limiting of blocked-connection log lines (`LogThrottle` in crates/daemon/src/firewall.rs). */
module Throttle {
  import opened Types

  /** Executable and destination. */
  type Key = (PathBuf, string)

  datatype Entry = Entry(windowStart: int, suppressed: nat)

  datatype LogAction = First | Suppress | Summary(count: nat)

  datatype Call = Call(key: Key, now: int)

  /** `Instant::duration_since`, which is zero for an earlier instant. */
  function Elapsed(now: int, start: int): nat {
    if now >= start then now - start else 0
  }

  /** What becomes of one key's entry, and the answer. */
  function Touch(entry: Option<Entry>, window: nat, now: int): (Entry, LogAction) {
    if entry == None then (Entry(now, 0), First)
    else if Elapsed(now, entry.value.windowStart) < window then
      (Entry(entry.value.windowStart, entry.value.suppressed + 1), Suppress)
    else (Entry(now, 0), Summary(entry.value.suppressed + 1))
  }

  class LogThrottle {
    const window: nat
    var entries: map<Key, Entry>

    constructor (window: nat)
      ensures this.window == window && entries == map[]
    {
      this.window := window;
      entries := map[];
    }

    method ShouldLog(key: Key, now: int) returns (action: LogAction)
      modifies this
      ensures entries == old(entries)[key := Touch(Get(old(entries), key), window, now).0]
      ensures action == Touch(Get(old(entries), key), window, now).1
    {
      if key !in entries {
        entries := entries[key := Entry(now, 0)];
        action := First;
      } else if Elapsed(now, entries[key].windowStart) < window {
        entries := entries[key := entries[key].(suppressed := entries[key].suppressed + 1)];
        action := Suppress;
      } else {
        var n := entries[key].suppressed + 1;
        entries := entries[key := Entry(now, 0)];
        action := Summary(n);
      }
    }
  }

  /** The entries after a sequence of calls, and the answers to the calls. */
  function EntriesAfter(window: nat, calls: seq<Call>): map<Key, Entry>
    decreases |calls|
  {
    if calls == [] then map[]
    else
      var m, last := EntriesAfter(window, calls[..|calls| - 1]), calls[|calls| - 1];
      m[last.key := Touch(Get(m, last.key), window, last.now).0]
  }

  function Answer(window: nat, calls: seq<Call>): LogAction
    requires calls != []
  {
    var last := calls[|calls| - 1];
    Touch(Get(EntriesAfter(window, calls[..|calls| - 1]), last.key), window, last.now).1
  }

  /** How many blocks a log line tells of. */
  function Lines(action: LogAction): nat {
    match action
    case First => 1
    case Suppress => 0
    case Summary(n) => n
  }

  function Told(window: nat, calls: seq<Call>, key: Key): nat
    decreases |calls|
  {
    if calls == [] then 0
    else
      Told(window, calls[..|calls| - 1], key)
      + if calls[|calls| - 1].key == key then Lines(Answer(window, calls)) else 0
  }

  function TimesOf(calls: seq<Call>, key: Key): seq<int> {
    if calls == [] then []
    else
      TimesOf(calls[..|calls| - 1], key)
      + if calls[|calls| - 1].key == key then [calls[|calls| - 1].now] else []
  }

  function Pending(entries: map<Key, Entry>, key: Key): nat {
    if key in entries then entries[key].suppressed else 0
  }

  /** In any sequence of calls, what was logged about a key plus what is pending for it are the
      calls made for it. */
  lemma {:induction false} NothingGoesUnreported(window: nat, calls: seq<Call>, key: Key)
    ensures Told(window, calls, key) + Pending(EntriesAfter(window, calls), key) == |TimesOf(calls, key)|
    decreases |calls|
  {
    if calls == [] {
    } else {
      NothingGoesUnreported(window, calls[..|calls| - 1], key);
    }
  }

  // ------------------------------------------------------------------- when a line is logged

  /** The times at which a line was logged for the key. */
  function LogTimes(window: nat, calls: seq<Call>, key: Key): seq<int>
    decreases |calls|
  {
    if calls == [] then []
    else
      LogTimes(window, calls[..|calls| - 1], key)
      + if calls[|calls| - 1].key == key && Answer(window, calls) != Suppress then [calls[|calls| - 1].now] else []
  }

  /** How many calls of the key have been made since its last line. */
  function SinceLog(window: nat, calls: seq<Call>, key: Key): nat
    decreases |calls|
  {
    if calls == [] then 0
    else
      var before := SinceLog(window, calls[..|calls| - 1], key);
      if calls[|calls| - 1].key != key then before
      else if Answer(window, calls) == Suppress then before + 1
      else 0
  }

  lemma {:induction false} EntryIsLastLog(window: nat, calls: seq<Call>, key: Key)
    ensures LogTimes(window, calls, key) == [] <==> TimesOf(calls, key) == []
    ensures Get(EntriesAfter(window, calls), key) ==
            var logs := LogTimes(window, calls, key);
            if logs == [] then None else Some(Entry(logs[|logs| - 1], SinceLog(window, calls, key)))
    decreases |calls|
  {
    if calls == [] {
    } else {
      EntryIsLastLog(window, calls[..|calls| - 1], key);
    }
  }

  /** Over every sequence of calls, the answer to the last one: First if its key was never called
      before; Suppress if less than a window has passed since the key's last line; and otherwise a
      summary of the calls made since that line, this one included. */
  lemma AnswerIs(window: nat, calls: seq<Call>)
    requires calls != []
    ensures var init, last := calls[..|calls| - 1], calls[|calls| - 1];
            var logs := LogTimes(window, init, last.key);
            && (logs == [] <==> forall c :: c in init ==> c.key != last.key)
            && Answer(window, calls) ==
               if logs == [] then First
               else if (if last.now <= logs[|logs| - 1] then 0 < window else last.now - logs[|logs| - 1] < window)
               then Suppress
               else Summary(SinceLog(window, init, last.key) + 1)
  {
    var init, last := calls[..|calls| - 1], calls[|calls| - 1];
    EntryIsLastLog(window, init, last.key);
    NeverCalled(init, last.key);
  }

  lemma {:induction false} NeverCalled(calls: seq<Call>, key: Key)
    ensures TimesOf(calls, key) == [] <==> forall c :: c in calls ==> c.key != key
    decreases |calls|
  {
    if calls == [] {
    } else {
      assert calls == calls[..|calls| - 1] + [calls[|calls| - 1]];
      NeverCalled(calls[..|calls| - 1], key);
    }
  }

  // ------------------------------------------------------------------- keys do not interact

  /** A throttle for a single key, as a reference. */
  function Alone(window: nat, times: seq<int>): Option<Entry>
    decreases |times|
  {
    if times == [] then None
    else Some(Touch(Alone(window, times[..|times| - 1]), window, times[|times| - 1]).0)
  }

  function AloneAnswers(window: nat, times: seq<int>): seq<LogAction>
    decreases |times|
  {
    if times == [] then []
    else
      AloneAnswers(window, times[..|times| - 1])
      + [Touch(Alone(window, times[..|times| - 1]), window, times[|times| - 1]).1]
  }

  function AnswersFor(window: nat, calls: seq<Call>, key: Key): seq<LogAction>
    decreases |calls|
  {
    if calls == [] then []
    else
      AnswersFor(window, calls[..|calls| - 1], key)
      + if calls[|calls| - 1].key == key then [Answer(window, calls)] else []
  }

  /** Each key is answered as if it had a throttle of its own. */
  lemma {:induction false} KeysAreIndependent(window: nat, calls: seq<Call>, key: Key)
    ensures Get(EntriesAfter(window, calls), key) == Alone(window, TimesOf(calls, key))
    ensures AnswersFor(window, calls, key) == AloneAnswers(window, TimesOf(calls, key))
    decreases |calls|
  {
    if calls == [] {
    } else {
      var init, last := calls[..|calls| - 1], calls[|calls| - 1];
      KeysAreIndependent(window, init, key);
      var times := TimesOf(init, key);
      if last.key == key {
        assert TimesOf(calls, key) == times + [last.now];
        assert (times + [last.now])[..|times|] == times;
      } else {
        assert TimesOf(calls, key) == times;
      }
    }
  }

  // --------------------------------------------------------------------------- rate bound

  predicate Spaced(times: seq<int>, gap: nat) {
    forall i :: 0 < i < |times| ==> Apart(times, i, gap)
  }

  predicate Apart(times: seq<int>, i: nat, gap: nat)
    requires 0 < i < |times|
  {
    times[i] - times[i - 1] >= gap
  }

  lemma SpacedMore(times: seq<int>, gap: nat, t: int)
    requires Spaced(times, gap) && (times != [] ==> t - times[|times| - 1] >= gap)
    ensures Spaced(times + [t], gap)
  {
    var more := times + [t];
    forall i | 0 < i < |more| ensures Apart(more, i, gap) {
      if i < |times| {
        assert Apart(times, i, gap);
      }
    }
  }

  /** Log times of one key are at least a window apart, for any clock readings at all. */
  lemma {:induction false} LogTimesAreSpaced(window: nat, calls: seq<Call>, key: Key)
    requires window > 0
    ensures var times := LogTimes(window, calls, key);
            && Spaced(times, window)
            && (key in EntriesAfter(window, calls) <==> times != [])
            && (times != [] ==> EntriesAfter(window, calls)[key].windowStart == times[|times| - 1])
    decreases |calls|
  {
    if calls == [] {
    } else {
      var init, last := calls[..|calls| - 1], calls[|calls| - 1];
      LogTimesAreSpaced(window, init, key);
      if last.key == key && Answer(window, calls) != Suppress {
        SpacedMore(LogTimes(window, init, key), window, last.now);
      } else {
        assert LogTimes(window, calls, key) == LogTimes(window, init, key);
      }
    }
  }

  function CountWithin(times: seq<int>, t0: int, t1: int): nat {
    if times == [] then 0
    else CountWithin(times[..|times| - 1], t0, t1) + if t0 <= times[|times| - 1] <= t1 then 1 else 0
  }

  lemma {:induction false} CountBound(times: seq<int>, gap: nat, t0: int, t1: int)
    requires Spaced(times, gap) && times != []
    ensures var c, last := CountWithin(times, t0, t1), times[|times| - 1];
            c == 0 || (t0 <= last && (c - 1) * gap <= (if last <= t1 then last else t1) - t0)
    decreases |times|
  {
    var init, last := times[..|times| - 1], times[|times| - 1];
    if init == [] {
    } else {
      assert Spaced(init, gap) by {
        forall i | 0 < i < |init| ensures Apart(init, i, gap) {
          assert Apart(times, i, gap);
        }
      }
      CountBound(init, gap, t0, t1);
      assert Apart(times, |times| - 1, gap);
      var c := CountWithin(init, t0, t1);
      assert c > 0 ==> (c - 1) * gap + gap == c * gap;
    }
  }

  lemma MultiplesGrow(a: nat, b: nat, gap: nat)
    requires a <= b
    ensures a * gap <= b * gap
  {
    assert b * gap == a * gap + (b - a) * gap;
  }

  lemma DivisionBound(n: nat, gap: nat, span: nat)
    requires gap > 0 && n * gap <= span
    ensures n <= span / gap
  {
    var q := span / gap;
    if q + 1 <= n {
      MultiplesGrow(q + 1, n, gap);
    }
    assert q * gap + span % gap == span;
    assert (q + 1) * gap == q * gap + gap;
  }

  /** Within any span of time a key gets at most one line, plus one per whole window. */
  lemma LogRateIsBounded(window: nat, calls: seq<Call>, key: Key, t0: int, t1: int)
    requires window > 0 && t0 <= t1
    ensures CountWithin(LogTimes(window, calls, key), t0, t1) <= 1 + (t1 - t0) / window
  {
    var times := LogTimes(window, calls, key);
    LogTimesAreSpaced(window, calls, key);
    var c := CountWithin(times, t0, t1);
    if c > 0 {
      CountBound(times, window, t0, t1);
      DivisionBound(c - 1, window, t1 - t0);
    }
  }
}
