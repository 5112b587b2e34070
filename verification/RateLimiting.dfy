/** The sliding-window-log limiter (src/rate-limiter.ts).

    `RateLimiter` is the class of the source. Its answers are compared with a reference that keeps, per
    key, the whole list of admission times and never forgets anything. */
module RateLimiting {

  datatype Config = Config(maxRequests: int, windowMs: int, blockOnLimit: bool)

  datatype Verdict = Verdict(allowed: bool, remaining: int, resetIn: int, blocked: bool)

  datatype Usage = NoUsage | Usage(count: nat, remaining: int, resetIn: int)

  /** Admission times of one key, oldest first. */
  type Log = seq<int>

  type Logs = map<string, Log>

  function Max(a: int, b: int): int { if a < b then b else a }

  /** The entries of `log` in the half-open interval (low, high]. */
  function Between(log: Log, low: int, high: int): (r: Log)
    ensures |r| <= |log|
  {
    if log == [] then []
    else (if low < log[0] <= high then [log[0]] else []) + Between(log[1..], low, high)
  }

  /** `log.filter((timestamp) => timestamp > cutoff)`. */
  function Active(log: Log, cutoff: int): (r: Log)
    ensures |r| <= |log|
  {
    if log == [] then []
    else (if cutoff < log[0] then [log[0]] else []) + Active(log[1..], cutoff)
  }

  /** `log` without its leading entries at or before the cutoff, as `splice(0, index)` leaves it. */
  function Unexpired(log: Log, cutoff: int): Log {
    if log != [] && log[0] <= cutoff then Unexpired(log[1..], cutoff) else log
  }

  predicate Sorted(log: Log) { forall i, j :: 0 <= i < j < |log| ==> log[i] <= log[j] }

  predicate UpTo(log: Log, now: int) { forall i :: 0 <= i < |log| ==> log[i] <= now }

  function LogOf(logs: Logs, key: string): Log { if key in logs then logs[key] else [] }

  /** The answer to a check when `active` are the admissions still in the window. */
  function Answer(c: Config, active: Log, now: int): Verdict {
    if |active| >= c.maxRequests then
      Verdict(!c.blockOnLimit, 0, (if active == [] then now else active[0]) + c.windowMs - now, c.blockOnLimit)
    else
      Verdict(true, Max(0, c.maxRequests - |active| - 1), c.windowMs, false)
  }

  function Admits(c: Config, active: Log): bool { |active| < c.maxRequests }

  function UsageOf(c: Config, active: Log, now: int): Usage {
    if active == [] then NoUsage
    else Usage(|active|, Max(0, c.maxRequests - |active|), active[0] + c.windowMs - now)
  }

  function AfterCheck(c: Config, active: Log, now: int): Log {
    if Admits(c, active) then active + [now] else active
  }

  /** Every key keeps its unexpired entries; a key left with none disappears. */
  function Pruned(logs: Logs, cutoff: int): Logs {
    map key | key in logs && Active(logs[key], cutoff) != [] :: Active(logs[key], cutoff)
  }

  datatype Event = Check(key: string, now: int) | GetUsage(key: string, now: int) | Prune(now: int)

  datatype Reply = Checked(verdict: Verdict) | Used(usage: Usage) | Silent

  /** What one call does to the logs. */
  function Step(c: Config, logs: Logs, e: Event): Logs {
    match e
    case Check(key, now) => logs[key := AfterCheck(c, Unexpired(LogOf(logs, key), now - c.windowMs), now)]
    case GetUsage(_, _) => logs
    case Prune(now) => Pruned(logs, now - c.windowMs)
  }

  /** What one call answers. */
  function ReplyTo(c: Config, log: Log, e: Event): Reply {
    match e
    case Check(_, now) => Checked(Answer(c, Unexpired(log, now - c.windowMs), now))
    case GetUsage(_, now) => Used(UsageOf(c, Active(log, now - c.windowMs), now))
    case Prune(_) => Silent
  }

  class RateLimiter {
    const config: Config
    var logs: Logs

    constructor (config: Config)
      ensures this.config == config && logs == map[]
    {
      this.config := config;
      logs := map[];
    }

    method Check(key: string, now: int) returns (v: Verdict)
      modifies this
      ensures Checked(v) == ReplyTo(config, LogOf(old(logs), key), Event.Check(key, now))
      ensures logs == Step(config, old(logs), Event.Check(key, now))
    {
      var cutoff := now - config.windowMs;
      var log := [];
      if key in logs {
        log := logs[key];
      }
      var index := 0;
      while index < |log| && log[index] <= cutoff
        invariant 0 <= index <= |log|
        invariant Unexpired(log, cutoff) == Unexpired(log[index..], cutoff)
      {
        index := index + 1;
      }
      log := log[index..];
      logs := logs[key := log];
      if |log| >= config.maxRequests {
        var oldest := if |log| > 0 then log[0] else now;
        return Verdict(!config.blockOnLimit, 0, oldest + config.windowMs - now, config.blockOnLimit);
      }
      log := log + [now];
      logs := logs[key := log];
      return Verdict(true, Max(0, config.maxRequests - |log|), config.windowMs, false);
    }

    method Reset(key: string)
      modifies this
      ensures logs == old(logs) - {key}
    {
      logs := logs - {key};
    }

    method GetUsage(key: string, now: int) returns (u: Usage)
      ensures Used(u) == ReplyTo(config, LogOf(logs, key), Event.GetUsage(key, now))
    {
      if key !in logs {
        return NoUsage;
      }
      var active := Active(logs[key], now - config.windowMs);
      if |active| == 0 {
        return NoUsage;
      }
      return Usage(|active|, Max(0, config.maxRequests - |active|), active[0] + config.windowMs - now);
    }

    method PruneExpiredLogs(now: int)
      modifies this
      ensures logs == Step(config, old(logs), Prune(now))
    {
      var cutoff := now - config.windowMs;
      var todo := logs.Keys;
      while todo != {}
        invariant todo <= old(logs).Keys
        invariant logs == PrunedBut(old(logs), todo, cutoff)
        decreases |todo|
      {
        var key :| key in todo;
        PruneOne(old(logs), todo, key, cutoff);
        var active := Active(logs[key], cutoff);
        if |active| == 0 {
          logs := logs - {key};
        } else {
          logs := logs[key := active];
        }
        todo := todo - {key};
      }
    }
  }

  /** The logs while pruning is under way: the keys in `todo` are still untouched. */
  function PrunedBut(logs: Logs, todo: set<string>, cutoff: int): Logs {
    map key | key in logs && (key in todo || Active(logs[key], cutoff) != []) ::
      if key in todo then logs[key] else Active(logs[key], cutoff)
  }

  lemma PruneOne(logs: Logs, todo: set<string>, key: string, cutoff: int)
    requires key in todo && todo <= logs.Keys
    ensures var now, active := PrunedBut(logs, todo, cutoff), Active(logs[key], cutoff);
            && key in now && now[key] == logs[key]
            && PrunedBut(logs, todo - {key}, cutoff) == if active == [] then now - {key} else now[key := active]
  {}

  // ---- Filters on logs ----

  lemma {:induction false} SortedTailIsActive(log: Log, cutoff: int)
    requires Sorted(log) && (log != [] ==> cutoff < log[0])
    ensures Active(log, cutoff) == log
  {
    if log != [] {
      SortedTailIsActive(log[1..], cutoff);
    }
  }

  lemma {:induction false} ActiveOfSum(a: Log, b: Log, cutoff: int)
    ensures Active(a + b, cutoff) == Active(a, cutoff) + Active(b, cutoff)
  {
    if a == [] {
      assert a + b == b;
    } else {
      assert (a + b)[1..] == a[1..] + b;
      ActiveOfSum(a[1..], b, cutoff);
    }
  }

  lemma {:induction false} ActiveTwice(log: Log, early: int, late: int)
    requires early <= late
    ensures Active(Active(log, early), late) == Active(log, late)
  {
    if log != [] {
      ActiveTwice(log[1..], early, late);
      ActiveOfSum(if early < log[0] then [log[0]] else [], Active(log[1..], early), late);
    }
  }

  lemma {:induction false} ActiveKeepsOrder(log: Log, cutoff: int)
    requires Sorted(log)
    ensures Sorted(Active(log, cutoff))
    ensures Active(log, cutoff) == log[|log| - |Active(log, cutoff)|..]
  {
    if log != [] {
      if cutoff < log[0] {
        SortedTailIsActive(log, cutoff);
      } else {
        ActiveKeepsOrder(log[1..], cutoff);
      }
    }
  }

  lemma {:induction false} BetweenOfSum(a: Log, b: Log, low: int, high: int)
    ensures Between(a + b, low, high) == Between(a, low, high) + Between(b, low, high)
  {
    if a == [] {
      assert a + b == b;
    } else {
      assert (a + b)[1..] == a[1..] + b;
      BetweenOfSum(a[1..], b, low, high);
    }
  }

  lemma {:induction false} BetweenWithinActive(log: Log, low: int, high: int, cutoff: int)
    requires cutoff <= low
    ensures |Between(log, low, high)| <= |Active(log, cutoff)|
  {
    if log != [] {
      BetweenWithinActive(log[1..], low, high, cutoff);
    }
  }

  lemma {:induction false} UnexpiredIsActive(log: Log, cutoff: int)
    requires Sorted(log)
    ensures Unexpired(log, cutoff) == Active(log, cutoff)
  {
    if log != [] {
      if log[0] <= cutoff {
        UnexpiredIsActive(log[1..], cutoff);
      } else {
        SortedTailIsActive(log, cutoff);
      }
    }
  }

  lemma {:induction false} ActiveIsBetween(log: Log, low: int, high: int)
    requires UpTo(log, high)
    ensures Active(log, low) == Between(log, low, high)
  {
    if log != [] {
      ActiveIsBetween(log[1..], low, high);
    }
  }

  /** In an ordered log, `n` entries are after the cutoff exactly when the n-th from the end is. */
  lemma CountFromOldest(log: Log, n: nat, cutoff: int)
    requires Sorted(log) && 1 <= n <= |log|
    ensures |Active(log, cutoff)| >= n <==> cutoff < log[|log| - n]
    ensures |Active(log, cutoff)| == n ==> Active(log, cutoff)[0] == log[|log| - n]
  {
    var a := Active(log, cutoff);
    ActiveKeepsOrder(log, cutoff);
    if |a| >= n {
      ActiveIsLater(log, cutoff, |a| - n);
    } else if cutoff < log[|log| - n] {
      ActiveOfSum(log[..|log| - n], log[|log| - n..], cutoff);
      assert log == log[..|log| - n] + log[|log| - n..];
      SortedTailIsActive(log[|log| - n..], cutoff);
    }
  }

  lemma {:induction false} ActiveIsLater(log: Log, cutoff: int, i: nat)
    requires i < |Active(log, cutoff)|
    ensures cutoff < Active(log, cutoff)[i]
  {
    if cutoff >= log[0] {
      ActiveIsLater(log[1..], cutoff, i);
    } else if i > 0 {
      ActiveIsLater(log[1..], cutoff, i - 1);
    }
  }

  // ---- Runs ----

  predicate Nondecreasing(events: seq<Event>) {
    forall i, j :: 0 <= i < j < |events| ==> events[i].now <= events[j].now
  }

  predicate NoLater(events: seq<Event>, now: int) { forall e :: e in events ==> e.now <= now }

  lemma Split(events: seq<Event>)
    requires Nondecreasing(events) && events != []
    ensures var prefix, last := events[..|events| - 1], events[|events| - 1];
            events == prefix + [last] && Nondecreasing(prefix) && NoLater(prefix, last.now)
  {}

  function LogsAfter(c: Config, events: seq<Event>): Logs {
    if events == [] then map[] else Step(c, LogsAfter(c, events[..|events| - 1]), events[|events| - 1])
  }

  /** The answer to call `e` after the calls `events`. */
  function ReplyAfter(c: Config, events: seq<Event>, e: Event): Reply {
    ReplyTo(c, if e.Prune? then [] else LogOf(LogsAfter(c, events), e.key), e)
  }

  /** The reference: every admission of `key` so far. Nothing is ever dropped. */
  function Admitted(c: Config, events: seq<Event>, key: string): Log {
    if events == [] then []
    else
      HistoryAfter(c, Admitted(c, events[..|events| - 1], key), events[|events| - 1], key)
  }

  function HistoryAfter(c: Config, before: Log, e: Event, key: string): Log {
    if e.Check? && e.key == key && Admits(c, Active(before, e.now - c.windowMs)) then before + [e.now] else before
  }

  lemma AdmittedNext(c: Config, events: seq<Event>, e: Event, key: string)
    ensures Admitted(c, events + [e], key) == HistoryAfter(c, Admitted(c, events, key), e, key)
  {
    assert (events + [e])[..|events|] == events;
  }

  lemma AppendKeepsOrder(log: Log, now: int)
    requires Sorted(log) && UpTo(log, now)
    ensures Sorted(log + [now]) && UpTo(log + [now], now)
  {}

  /** What one call does to the log of one key. */
  lemma StepOnKey(c: Config, logs: Logs, e: Event, key: string)
    ensures LogOf(Step(c, logs, e), key) == LogAfter(c, LogOf(logs, key), e, key)
  {}

  function LogAfter(c: Config, log: Log, e: Event, key: string): Log {
    match e
    case Check(k, now) => if k == key then AfterCheck(c, Unexpired(log, now - c.windowMs), now) else log
    case GetUsage(_, _) => log
    case Prune(now) => Active(log, now - c.windowMs)
  }

  lemma {:induction false} AdmittedIsOrdered(c: Config, events: seq<Event>, key: string, now: int)
    requires Nondecreasing(events) && NoLater(events, now)
    ensures Sorted(Admitted(c, events, key)) && UpTo(Admitted(c, events, key), now)
  {
    if events != [] {
      Split(events);
      var before, last := Admitted(c, events[..|events| - 1], key), events[|events| - 1];
      AdmittedIsOrdered(c, events[..|events| - 1], key, last.now);
      AppendKeepsOrder(before, last.now);
      assert last in events;
    }
  }

  /** The log of one key after the calls `events`. */
  function KeyLog(c: Config, events: seq<Event>, key: string): Log {
    if events == [] then [] else LogAfter(c, KeyLog(c, events[..|events| - 1], key), events[|events| - 1], key)
  }

  lemma {:induction false} KeysAreIndependent(c: Config, events: seq<Event>, key: string)
    ensures LogOf(LogsAfter(c, events), key) == KeyLog(c, events, key)
  {
    if events != [] {
      KeysAreIndependent(c, events[..|events| - 1], key);
      StepOnKey(c, LogsAfter(c, events[..|events| - 1]), events[|events| - 1], key);
    }
  }

  lemma OneCallKeepsOrder(c: Config, log: Log, e: Event, key: string)
    requires Sorted(log) && UpTo(log, e.now)
    ensures Sorted(LogAfter(c, log, e, key)) && UpTo(LogAfter(c, log, e, key), e.now)
  {
    UnexpiredIsActive(log, e.now - c.windowMs);
    ActiveKeepsOrder(log, e.now - c.windowMs);
    AppendKeepsOrder(Active(log, e.now - c.windowMs), e.now);
  }

  lemma {:induction false} KeyLogIsOrdered(c: Config, events: seq<Event>, key: string, now: int)
    requires Nondecreasing(events) && NoLater(events, now)
    ensures Sorted(KeyLog(c, events, key)) && UpTo(KeyLog(c, events, key), now)
  {
    if events != [] {
      Split(events);
      var prefix, last := events[..|events| - 1], events[|events| - 1];
      KeyLogIsOrdered(c, prefix, key, last.now);
      OneCallKeepsOrder(c, KeyLog(c, prefix, key), last, key);
      assert last in events;
    }
  }

  lemma OneCallRefines(c: Config, log: Log, history: Log, e: Event, key: string, now: int)
    requires Sorted(log) && e.now <= now
    requires Active(log, e.now - c.windowMs) == Active(history, e.now - c.windowMs)
    requires Active(log, now - c.windowMs) == Active(history, now - c.windowMs)
    ensures Active(LogAfter(c, log, e, key), now - c.windowMs)
         == Active(HistoryAfter(c, history, e, key), now - c.windowMs)
  {
    var early, late := e.now - c.windowMs, now - c.windowMs;
    UnexpiredIsActive(log, early);
    ActiveTwice(log, early, late);
    ActiveOfSum(Active(log, early), [e.now], late);
    ActiveOfSum(history, [e.now], late);
  }

  /** The pruned log and the full history agree on everything still in the window. */
  lemma {:induction false} LogRefinesHistory(c: Config, events: seq<Event>, key: string, now: int)
    requires Nondecreasing(events) && NoLater(events, now)
    ensures Active(KeyLog(c, events, key), now - c.windowMs) == Active(Admitted(c, events, key), now - c.windowMs)
  {
    if events != [] {
      Split(events);
      var prefix, last := events[..|events| - 1], events[|events| - 1];
      assert last in events;
      LogRefinesHistory(c, prefix, key, last.now);
      LogRefinesHistory(c, prefix, key, now);
      KeyLogIsOrdered(c, prefix, key, last.now);
      OneCallRefines(c, KeyLog(c, prefix, key), Admitted(c, prefix, key), last, key, now);
    }
  }

  /** The class answers every call as the reference that never forgets would. */
  lemma AnswersComeFromHistory(c: Config, events: seq<Event>, e: Event)
    requires Nondecreasing(events) && NoLater(events, e.now)
    ensures ReplyAfter(c, events, e) == Reference(c, events, e)
  {
    hide Active, Unexpired, Admitted, KeyLog, LogsAfter;
    if !e.Prune? {
      KeysAreIndependent(c, events, e.key);
      LogRefinesHistory(c, events, e.key, e.now);
      KeyLogIsOrdered(c, events, e.key, e.now);
      UnexpiredIsActive(KeyLog(c, events, e.key), e.now - c.windowMs);
    }
  }

  /** The answer computed from the full history. */
  function Reference(c: Config, events: seq<Event>, e: Event): Reply {
    match e
    case Check(key, now) => Checked(Answer(c, Active(Admitted(c, events, key), now - c.windowMs), now))
    case GetUsage(key, now) => Used(UsageOf(c, Active(Admitted(c, events, key), now - c.windowMs), now))
    case Prune(_) => Silent
  }

  function WithoutPrunes(events: seq<Event>): seq<Event> {
    if events == [] then []
    else if events[|events| - 1].Prune? then WithoutPrunes(events[..|events| - 1])
    else WithoutPrunes(events[..|events| - 1]) + [events[|events| - 1]]
  }

  lemma {:induction false} PrunesAdmitNothing(c: Config, events: seq<Event>, key: string, now: int)
    requires Nondecreasing(events) && NoLater(events, now)
    ensures Nondecreasing(WithoutPrunes(events)) && NoLater(WithoutPrunes(events), now)
    ensures Admitted(c, WithoutPrunes(events), key) == Admitted(c, events, key)
  {
    if events != [] {
      Split(events);
      var prefix, last := events[..|events| - 1], events[|events| - 1];
      PrunesAdmitNothing(c, prefix, key, last.now);
      AdmittedNext(c, WithoutPrunes(prefix), last, key);
    }
  }

  /** Background pruning, at any times and any number of times, never changes a later answer. */
  lemma PruningIsInvisible(c: Config, events: seq<Event>, e: Event)
    requires Nondecreasing(events) && NoLater(events, e.now)
    ensures ReplyAfter(c, events, e) == ReplyAfter(c, WithoutPrunes(events), e)
  {
    if !e.Prune? {
      PrunesAdmitNothing(c, events, e.key, e.now);
      AnswersComeFromHistory(c, events, e);
      AnswersComeFromHistory(c, WithoutPrunes(events), e);
    }
  }

  /** At most `maxRequests` admissions of a key lie in any window (t - windowMs, t]. */
  lemma {:induction false} WindowBound(c: Config, events: seq<Event>, key: string, t: int)
    requires Nondecreasing(events)
    ensures |Between(Admitted(c, events, key), t - c.windowMs, t)| <= Max(0, c.maxRequests)
  {
    if events != [] {
      Split(events);
      var prefix, last := events[..|events| - 1], events[|events| - 1];
      WindowBound(c, prefix, key, t);
      var before := Admitted(c, prefix, key);
      BetweenOfSum(before, [last.now], t - c.windowMs, t);
      if last.now <= t {
        BetweenWithinActive(before, t - c.windowMs, t, last.now - c.windowMs);
      }
    }
  }

  /** A blocking limiter says "allowed" exactly when it records an admission, so the bound above is a
      bound on what it lets through; a limiter that only observes lets everything through. */
  lemma AllowedMeansRecorded(c: Config, events: seq<Event>, key: string, now: int)
    requires Nondecreasing(events) && NoLater(events, now)
    ensures var verdict := ReplyAfter(c, events, Check(key, now)).verdict;
            var recorded := Admitted(c, events + [Check(key, now)], key) == Admitted(c, events, key) + [now];
            && (c.blockOnLimit ==> (verdict.allowed <==> recorded))
            && (!c.blockOnLimit ==> verdict.allowed)
            && (verdict.blocked <==> c.blockOnLimit && !recorded)
  {
    AnswersComeFromHistory(c, events, Check(key, now));
    AdmittedNext(c, events, Check(key, now), key);
  }

  predicate ChecksBefore(events: seq<Event>, key: string, t: int) {
    forall e :: e in events && e.Check? && e.key == key ==> e.now < t
  }

  lemma OneRefusal(c: Config, log: Log, e: Event, key: string, oldest: int)
    requires Sorted(log) && c.maxRequests >= 1 && NthFromEnd(log, c.maxRequests, oldest)
    requires e.Check? && e.key == key ==> e.now < oldest + c.windowMs
    ensures HistoryAfter(c, log, e, key) == log
  {
    CountFromOldest(log, c.maxRequests, e.now - c.windowMs);
  }

  /** While the `maxRequests` newest admissions all stay in the window, nothing is admitted. */
  lemma {:induction false} RefusedWhileFull(c: Config, events: seq<Event>, later: seq<Event>, key: string, oldest: int)
    requires Sorted(Admitted(c, events, key))
    requires c.maxRequests >= 1 && NthFromEnd(Admitted(c, events, key), c.maxRequests, oldest)
    requires ChecksBefore(later, key, oldest + c.windowMs)
    ensures Admitted(c, events + later, key) == Admitted(c, events, key)
  {
    if later == [] {
      assert events + later == events;
    } else {
      var prefix, last := later[..|later| - 1], later[|later| - 1];
      assert later == prefix + [last];
      assert events + later == (events + prefix) + [last];
      assert last in later;
      RefusedWhileFull(c, events, prefix, key, oldest);
      AdmittedNext(c, events + prefix, last, key);
      OneRefusal(c, Admitted(c, events, key), last, key, oldest);
    }
  }

  predicate NthFromEnd(log: Log, n: int, x: int) { 1 <= n <= |log| && log[|log| - n] == x }

  /** A refusal happens with exactly `maxRequests` admissions in the window, and announces the instant
      at which the oldest of them leaves it. */
  lemma RefusalNamesOldest(c: Config, events: seq<Event>, key: string, now: int)
    requires c.maxRequests >= 1 && Nondecreasing(events) && NoLater(events, now)
    requires !Admits(c, Active(Admitted(c, events, key), now - c.windowMs))
    ensures var resetIn := ReplyAfter(c, events, Check(key, now)).verdict.resetIn;
            && NthFromEnd(Admitted(c, events, key), c.maxRequests, now + resetIn - c.windowMs)
            && 0 < resetIn <= c.windowMs
  {
    hide Between, Active, Admitted, Unexpired, LogsAfter;
    AnswersComeFromHistory(c, events, Check(key, now));
    AdmittedIsOrdered(c, events, key, now);
    WindowBound(c, events, key, now);
    FullWindow(c, Admitted(c, events, key), now);
  }

  lemma FullWindow(c: Config, log: Log, now: int)
    requires c.maxRequests >= 1 && Sorted(log) && UpTo(log, now)
    requires |Between(log, now - c.windowMs, now)| <= c.maxRequests <= |Active(log, now - c.windowMs)|
    ensures NthFromEnd(log, c.maxRequests, Active(log, now - c.windowMs)[0])
    ensures now - c.windowMs < Active(log, now - c.windowMs)[0] <= now
  {
    ActiveIsBetween(log, now - c.windowMs, now);
    CountFromOldest(log, c.maxRequests, now - c.windowMs);
  }

  /** After a refusal the announced wait is exact: it is positive and at most one window, every check of
      the key before it has passed (the refused one is the first call of `later`) is refused too, and
      the first one at or after it is admitted. */
  lemma ResetIsExact(c: Config, events: seq<Event>, key: string, now: int, later: seq<Event>, t: int)
    requires c.maxRequests >= 1
    requires Nondecreasing(events) && NoLater(events, now)
    requires !Admits(c, Active(Admitted(c, events, key), now - c.windowMs))
    requires ChecksBefore(later, key, now + ReplyAfter(c, events, Check(key, now)).verdict.resetIn)
    ensures var resetIn := ReplyAfter(c, events, Check(key, now)).verdict.resetIn;
            && 0 < resetIn <= c.windowMs
            && Admitted(c, events + later, key) == Admitted(c, events, key)
            && Admitted(c, events + later + [Check(key, t)], key)
               == Admitted(c, events, key) + if t < now + resetIn then [] else [t]
  {
    hide Between, Active, Admitted, Unexpired, LogsAfter, Nondecreasing, NoLater, ChecksBefore;
    var h := Admitted(c, events, key);
    var resetIn := ReplyAfter(c, events, Check(key, now)).verdict.resetIn;
    RefusalNamesOldest(c, events, key, now);
    AdmittedIsOrdered(c, events, key, now);
    RefusedWhileFull(c, events, later, key, now + resetIn - c.windowMs);
    AdmittedNext(c, events + later, Check(key, t), key);
    CountFromOldest(h, c.maxRequests, t - c.windowMs);
  }

  // ---- What the numbers say ----

  /** The admissions of the key in the window that ends now. */
  function InWindow(c: Config, events: seq<Event>, key: string, now: int): Log {
    Between(Admitted(c, events, key), now - c.windowMs, now)
  }

  /** What a check answers: it is let through and counted while there are fewer than `maxRequests` admissions in the
      window, and otherwise let through only by a limiter that does not block. */
  lemma VerdictMeans(c: Config, events: seq<Event>, key: string, now: int)
    requires Nondecreasing(events) && NoLater(events, now)
    ensures var verdict, count := ReplyAfter(c, events, Check(key, now)).verdict, |InWindow(c, events, key, now)|;
            if count < c.maxRequests then verdict == Verdict(true, c.maxRequests - count - 1, c.windowMs, false)
            else
              verdict.allowed == !c.blockOnLimit && verdict.blocked == c.blockOnLimit && verdict.remaining == 0
              && (c.maxRequests < 1 ==> verdict.resetIn == c.windowMs)
  {
    hide Between, Active, Admitted, Unexpired, LogsAfter;
    AnswersComeFromHistory(c, events, Check(key, now));
    AdmittedIsOrdered(c, events, key, now);
    ActiveIsBetween(Admitted(c, events, key), now - c.windowMs, now);
    WindowBound(c, events, key, now);
  }

  /** What a query answers: nothing while nothing is in the window, and otherwise how many admissions are, how many more
      fit, and when the oldest of them leaves. */
  lemma UsageMeans(c: Config, events: seq<Event>, key: string, now: int)
    requires Nondecreasing(events) && NoLater(events, now)
    ensures var usage, window := ReplyAfter(c, events, GetUsage(key, now)).usage, InWindow(c, events, key, now);
            usage == if window == [] then NoUsage
                     else Usage(|window|, if |window| < c.maxRequests then c.maxRequests - |window| else 0,
                                window[0] + c.windowMs - now)
  {
    hide Between, Active, Admitted, Unexpired, LogsAfter;
    AnswersComeFromHistory(c, events, GetUsage(key, now));
    AdmittedIsOrdered(c, events, key, now);
    ActiveIsBetween(Admitted(c, events, key), now - c.windowMs, now);
  }

  /** The same check again and again. */
  function Again(key: string, now: int, n: nat): seq<Event> { seq(n, _ => Check(key, now)) }

  /** How many more fit is exact: of n further checks in this very instant that many are admitted, or all n. */
  lemma {:induction false} RemainingIsExact(c: Config, events: seq<Event>, key: string, now: int, n: nat)
    requires c.windowMs >= 1 && Nondecreasing(events) && NoLater(events, now)
    ensures var count := |InWindow(c, events, key, now)|;
            var fit := if count < c.maxRequests then c.maxRequests - count else 0;
            |Admitted(c, events + Again(key, now, n), key)|
            == |Admitted(c, events, key)| + if n < fit then n else fit
  {
    hide Between, Admitted;
    AdmittedIsOrdered(c, events, key, now);
    ActiveIsBetween(Admitted(c, events, key), now - c.windowMs, now);
    AgainAdmits(c, events, key, now, n);
  }

  lemma {:induction false} AgainAdmits(c: Config, events: seq<Event>, key: string, now: int, n: nat)
    requires c.windowMs >= 1
    ensures var before, after := Admitted(c, events, key), Admitted(c, events + Again(key, now, n), key);
            var count := |Active(before, now - c.windowMs)|;
            var fit := if count < c.maxRequests then c.maxRequests - count else 0;
            var more := if n < fit then n else fit;
            |after| == |before| + more && |Active(after, now - c.windowMs)| == count + more
  {
    hide Admitted;
    if n == 0 {
      assert events + Again(key, now, 0) == events;
    } else {
      AgainAdmits(c, events, key, now, n - 1);
      var shorter := events + Again(key, now, n - 1);
      assert events + Again(key, now, n) == shorter + [Check(key, now)];
      AdmittedNext(c, shorter, Check(key, now), key);
      ActiveOfSum(Admitted(c, shorter, key), [now], now - c.windowMs);
    }
  }
}
