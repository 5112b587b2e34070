/** The capped and pruned window of nonces, compared with the full history of what was remembered. */
module NonceHistory {
  import opened JsText
  import opened NonceWindows

  /** Entries in the order of their expiry. */
  predicate Ordered(w: Window) { forall i, j :: 0 <= i < j < |w| ==> w[i].expiresAt <= w[j].expiresAt }

  /** What happens to a window: nonces found unseen are remembered, and it is pruned now and then. */
  datatype Event = Remember(value: Text, now: int) | Prune(now: int)

  /** The window and, beside it, every nonce ever remembered. */
  datatype State = State(window: Window, history: seq<Entry>, clock: int)

  /** The clock never goes back, and only a nonce that has just been found unseen is remembered. */
  predicate Enabled(s: State, e: Event) {
    s.clock <= e.now && (e.Remember? ==> !Has(Pruned(s.window, e.now), e.value))
  }

  function Next(s: State, e: Event): State {
    match e
    case Remember(value, now) =>
      State(Remembered(s.window, value, now), s.history + [Entry(value, now + 300_000)], now)
    case Prune(now) => State(Pruned(s.window, now), s.history, now)
  }

  ghost predicate Reaches(events: seq<Event>, s: State)
    decreases |events|
  {
    if events == [] then s == State([], [], s.clock)
    else
      var init, last := events[..|events| - 1], events[|events| - 1];
      exists before: State :: Reaches(init, before) && Enabled(before, last) && s == Next(before, last)
  }

  /** The window is the end of the history, and what it lacks among the last 4096 has expired. */
  predicate Refines(s: State) {
    Ordered(s.history)
    && (forall i :: 0 <= i < |s.history| ==> s.history[i].expiresAt <= s.clock + 300_000)
    && |s.window| <= |s.history| && |s.window| <= 4096
    && s.window == s.history[|s.history| - |s.window|..]
    && forall i :: 0 <= i < |s.history| - |s.window| && |s.history| - 4096 <= i ==>
         s.history[i].expiresAt <= s.clock
  }

  /** The answer the full history gives: remembered less than 300,000 ms ago and among the last 4096. */
  predicate SeenInHistory(history: seq<Entry>, value: Text, now: int) {
    exists i :: 0 <= i < |history| && |history| - 4096 <= i
      && history[i].value == value && now < history[i].expiresAt
  }

  lemma {:induction false} NothingToPrune(w: Window, now: int)
    requires forall i :: 0 <= i < |w| ==> now < w[i].expiresAt
    ensures Pruned(w, now) == w
  {
    if w != [] {
      NothingToPrune(w[1..], now);
      assert w == [w[0]] + w[1..];
    }
  }

  lemma {:induction false} PrunedIsSuffix(w: Window, now: int)
    requires Ordered(w)
    ensures Pruned(w, now) == w[|w| - |Pruned(w, now)|..]
    ensures forall i :: 0 <= i < |w| ==> (w[i].expiresAt <= now <==> i < |w| - |Pruned(w, now)|)
  {
    if w != [] {
      if w[0].expiresAt > now {
        NothingToPrune(w, now);
      } else {
        var rest := w[1..];
        assert forall i :: 0 <= i < |rest| ==> rest[i] == w[i + 1];
        PrunedIsSuffix(rest, now);
      }
    }
  }

  lemma SuffixIsOrdered(h: Window, k: nat)
    requires Ordered(h) && k <= |h|
    ensures Ordered(h[k..]) && forall i :: 0 <= i < |h[k..]| ==> h[k..][i] == h[k + i]
  {}

  lemma PruneKeeps(s: State, now: int)
    requires Refines(s) && s.clock <= now
    ensures Refines(State(Pruned(s.window, now), s.history, now))
  {
    hide Pruned, Ordered;
    var h, w := s.history, s.window;
    var k := |h| - |w|;
    SuffixIsOrdered(h, k);
    PrunedIsSuffix(w, now);
    var p := Pruned(w, now);
    DropTwice(h, k, |w| - |p|);
    forall i | 0 <= i < |h| - |p| && |h| - 4096 <= i ensures h[i].expiresAt <= now {
      if i >= k {
        assert w[i - k].expiresAt <= now;
      }
    }
  }

  lemma OrderedAppend(h: Window, n: Entry)
    requires Ordered(h) && forall i :: 0 <= i < |h| ==> h[i].expiresAt <= n.expiresAt
    ensures Ordered(h + [n])
  {}

  lemma RememberKeeps(s: State, n: Entry)
    requires Refines(s) && n.expiresAt == s.clock + 300_000
    ensures Refines(State(LastOf(s.window + [n], 4096), s.history + [n], s.clock))
  {
    hide Ordered;
    var h, k := s.history + [n], |s.history| - |s.window|;
    DropAppend(s.history, k, n);
    if |s.window| == 4096 {
      DropAgain(h, k);
    }
    OrderedAppend(s.history, n);
  }

  lemma StepKeeps(s: State, e: Event)
    requires Refines(s) && Enabled(s, e)
    ensures Refines(Next(s, e))
  {
    hide Refines;
    PruneKeeps(s, e.now);
    if e.Remember? {
      var n := Entry(e.value, e.now + 300_000);
      SetOfAbsent(Pruned(s.window, e.now), n);
      RememberKeeps(State(Pruned(s.window, e.now), s.history, e.now), n);
    }
  }

  /** However remembering and pruning are interleaved, the window stays the end of the history. */
  lemma {:induction false} RunsRefine(events: seq<Event>, s: State)
    requires Reaches(events, s)
    ensures Refines(s)
    decreases |events|
  {
    if events != [] {
      var init, last := events[..|events| - 1], events[|events| - 1];
      var before: State :| Reaches(init, before) && Enabled(before, last) && s == Next(before, last);
      RunsRefine(init, before);
      StepKeeps(before, last);
    }
  }

  lemma RefinedAnswer(s: State, value: Text, now: int)
    requires Refines(s) && s.clock <= now
    ensures Has(Pruned(s.window, now), value) <==> SeenInHistory(s.history, value, now)
  {
    PrunedHas(s.window, value, now);
    var h, w := s.history, s.window;
    var k := |h| - |w|;
    assert forall i :: 0 <= i < |w| ==> w[i] == h[k + i];
    if i :| 0 <= i < |w| && w[i].value == value && now < w[i].expiresAt {
      assert h[k + i] == w[i];
    }
    if i :| 0 <= i < |h| && |h| - 4096 <= i && h[i].value == value && now < h[i].expiresAt {
      assert i >= k;
      assert w[i - k] == h[i];
    }
  }

  /** In every run the capped, pruned window answers as the full history does, and it is ordered by expiry. */
  lemma WindowAnswersForHistory(events: seq<Event>, s: State, value: Text, now: int)
    requires Reaches(events, s) && s.clock <= now
    ensures Has(Pruned(s.window, now), value) <==> SeenInHistory(s.history, value, now)
    ensures Ordered(s.window) && |s.window| <= 4096
  {
    RunsRefine(events, s);
    RefinedAnswer(s, value, now);
  }
}
