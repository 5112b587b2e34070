/** What becomes of a dispatched action: it is pending until it is settled, and it is settled once. */
module ActionSettlement {
  import opened JsText
  import opened CanonicalJson
  import opened RemoteTypes
  import opened Envelopes
  import opened NonceWindows
  import opened Planes
  import opened PlaneRuns
  import opened AgentLifecycle

  // ---- Pending or settled ----

  /** A row is completed exactly by an ok result, timed out exactly by the timer, and otherwise in error. */
  ghost predicate Tells(status: RowStatus, outcome: Outcome) {
    (status == Completed <==> outcome.Resolved? && outcome.result.message.Result? && outcome.result.message.ok)
    && (status == TimedOut <==> outcome == Rejected(AgentTimeout))
    && status != Sent
  }

  /** The row of an action says what has become of it, once the dispatching call has resumed. */
  ghost predicate RowSound(p: Plane, id: Text)
    requires id in p.rows
  {
    var row := p.rows[id];
    if id in p.finished then
      id in p.outcomes && row.outcome == Some(p.outcomes[id]) && Tells(row.status, p.outcomes[id])
    else row.status == Sent && row.outcome.None?
  }

  /** Each action is pending or settled and never both; it was settled exactly once if it is settled, and not at all
      while it is pending; its timer runs exactly while it is pending. */
  ghost predicate Booked(p: Plane) {
    p.timers == p.pending.Keys
    && p.pending.Keys !! p.outcomes.Keys
    && p.finished <= p.outcomes.Keys
    && p.rows.Keys == p.pending.Keys + p.outcomes.Keys
    && (forall id :: p.settlements[id] == if id in p.outcomes then 1 else 0)
    && (forall id :: id in p.pending ==> p.rows[id].action == p.pending[id])
    && (forall id :: id in p.rows ==> RowSound(p, id))
  }

  lemma SettledBooks(p: Plane, id: Text, outcome: Outcome)
    requires Booked(p) && id in p.pending
    ensures var q := Settled(p, id, outcome);
            Booked(q) && q.outcomes == p.outcomes[id := outcome] && id !in q.pending
  {
    var q := Settled(p, id, outcome);
    forall x ensures q.settlements[x] == if x in q.outcomes then 1 else 0 {
      assert q.settlements[x] == p.settlements[x] + if x == id then 1 else 0;
    }
    forall x | x in q.rows ensures RowSound(q, x) {
      assert RowSound(p, x);
    }
  }

  lemma FinishedBooks(p: Plane, id: Text)
    requires Booked(p) && id in p.outcomes && id !in p.finished
    ensures Booked(Finished(p, id))
  {
    var q := Finished(p, id);
    forall x | x in q.rows ensures RowSound(q, x) {
      assert x != id ==> RowSound(p, x);
    }
  }

  lemma SameBooksBooked(p: Plane, q: Plane)
    requires Booked(p) && SameBooks(p, q)
    ensures Booked(q)
  {
    forall x | x in q.rows ensures RowSound(q, x) {
      assert RowSound(p, x);
    }
  }

  /** A new action is kept: its row, its timer and its promise. */
  ghost predicate Opens(p: Plane, q: Plane, id: Text, action: Action) {
    id !in p.rows && q.rows == p.rows[id := Row(action, Sent, None)] && q.pending == p.pending[id := action]
    && q.timers == p.timers + {id} && q.outcomes == p.outcomes && q.finished == p.finished
    && q.settlements == p.settlements
  }

  lemma OpenedBooks(p: Plane, q: Plane, id: Text, action: Action)
    requires Booked(p) && Opens(p, q, id, action)
    ensures Booked(q)
  {
    forall x | x in q.rows ensures RowSound(q, x) {
      assert x != id ==> RowSound(p, x);
    }
  }

  function ActionOf(m: Message): Action
    requires m.Request?
  {
    Action(m.userId, m.agentId, m.tool, m.capability, m.args, m.issuedAt, m.deadline)
  }

  /** A dispatch that is not refused opens an action for the request it sends, and one that is opens none. */
  lemma DispatchOpens(
    p: Plane, config: Config, principal: Principal, name: Text, tool: Tool, args: map<Text, Doc>,
    requested: Requested, actionId: Text, nonce: Text, signature: Text, now: int)
    ensures var (q, reply) :=
              Dispatch(p, config, principal, name, tool, args, requested, actionId, nonce, signature, now);
            if reply.Done? then
              reply.value.Request? && reply.value.actionId == actionId && Opens(p, q, actionId, ActionOf(reply.value))
            else SameBooks(p, q)
  {
    hide DispatchProblem, Resolve;
  }

  /** What a step does to the outcome of actions: none of them changes once it is there. */
  ghost predicate OutcomesStay(p: Plane, q: Plane) {
    p.rows.Keys <= q.rows.Keys
    && (forall id :: id in p.rows ==> q.rows[id].action == p.rows[id].action)
    && forall id :: id in p.outcomes ==> id in q.outcomes && q.outcomes[id] == p.outcomes[id]
  }

  lemma ReportedBooks(p: Plane, verifies: Verifier, s: nat, result: Sealed, now: int)
    requires Booked(p) && result.message.Result?
    ensures var q := Reported(p, verifies, s, result, now); Booked(q) && OutcomesStay(p, q)
  {
    hide Judged, Settled, RowSound;
    var id := result.message.actionId;
    if id in p.pending {
      var judged := Judged(p, verifies, s, result, now);
      var reconnected := p.(connections := judged.0);
      SameBooksBooked(p, reconnected);
      SettledBooks(reconnected, id, judged.1);
      SettledFrame(reconnected, id, judged.1);
    }
  }

  lemma SameOutcomes(p: Plane, q: Plane)
    requires SameBooks(p, q)
    ensures OutcomesStay(p, q)
  {}

  lemma ReceiveBooks(p: Plane, verifies: Verifier, s: nat, incoming: Option<Sealed>, now: int)
    requires Booked(p)
    ensures var q := Received(p, verifies, s, incoming, now); Booked(q) && OutcomesStay(p, q)
  {
    hide Booked, OutcomesStay, SameBooks, Refused, Greeted, Reported, Parses;
    if incoming.Some? && incoming.value.message.Result? {
      ReportedBooks(p, verifies, s, incoming.value, now);
      RefusedFrame(p, s, InternalError);
      SameBooksBooked(p, Refused(p, s, InternalError));
      SameOutcomes(p, Refused(p, s, InternalError));
    } else {
      ReceivedFrame(p, verifies, s, incoming, now);
      SameBooksBooked(p, Received(p, verifies, s, incoming, now));
      SameOutcomes(p, Received(p, verifies, s, incoming, now));
    }
  }

  lemma DispatchBooks(p: Plane, config: Config, verifies: Verifier, e: Event)
    requires Booked(p) && e.op.DispatchOp?
    ensures var q := Effect(p, config, verifies, e); Booked(q) && OutcomesStay(p, q)
  {
    hide Booked, Dispatch, SameBooks, RowSound;
    var q, o := Effect(p, config, verifies, e), e.op;
    DispatchOpens(
      p, config, o.principal, o.name, o.tool, o.args, o.requested, o.actionId, o.nonce, o.signature, e.now);
    var reply := Dispatch(
      p, config, o.principal, o.name, o.tool, o.args, o.requested, o.actionId, o.nonce, o.signature, e.now).1;
    if reply.Done? {
      OpenedBooks(p, q, o.actionId, ActionOf(reply.value));
    } else {
      SameBooksBooked(p, q);
      SameOutcomes(p, q);
    }
  }

  /** Every step keeps the books, and no outcome changes. */
  lemma EffectBooks(sys: System, config: Config, verifies: Verifier, e: Event)
    requires Booked(sys.plane) && Enabled(sys, e)
    ensures var q := Effect(sys.plane, config, verifies, e); Booked(q) && OutcomesStay(sys.plane, q)
  {
    hide RowSound, CreateToken, Enroll, Received, SocketLost, UpdatePolicy, Revoke, Dispatch, Settled, Finished,
      Cleaned, Resolve;
    var p, q := sys.plane, Effect(sys.plane, config, verifies, e);
    match e.op
    case ReceiveOp(s, incoming) => ReceiveBooks(p, verifies, s, incoming, e.now);
    case DispatchOp(_, _, _, _, _, _, _, _) => DispatchBooks(p, config, verifies, e);
    case TimeoutOp(id) =>
      SettledBooks(p, id, Rejected(AgentTimeout));
      SettledFrame(p, id, Rejected(AgentTimeout));
    case FinishOp(id) =>
      FinishedBooks(p, id);
      FinishedActions(p, id);
    case _ =>
      EffectFrame(p, config, verifies, e);
      SameBooksBooked(p, q);
      SameOutcomes(p, q);
  }

  lemma FinishedActions(p: Plane, id: Text)
    requires id in p.outcomes
    ensures OutcomesStay(p, Finished(p, id))
  {}

  lemma NextBooks(sys: System, config: Config, verifies: Verifier, e: Event)
    requires Booked(sys.plane) && Enabled(sys, e)
    ensures var next := Next(sys, config, verifies, e); Booked(next.plane) && OutcomesStay(sys.plane, next.plane)
  {
    hide Booked, OutcomesStay, Effect, UpdatePolicy, Resolve, SameBooks;
    var p, next := sys.plane, Next(sys, config, verifies, e);
    EffectBooks(sys, config, verifies, e);
    SameIsSame(p);
    SameOutcomes(p, p);
    if e.op.WritePatchOp? && e.op.edit in sys.edits {
      var x := sys.edits[e.op.edit];
      UpdatePolicyFrame(p, config, x.principal, x.a, x.agent, e.op.patch, e.op.nonce, e.op.signature, e.now);
      SameBooksBooked(p, next.plane);
      SameOutcomes(p, next.plane);
    }
  }

  lemma StayingIsTransitive(p: Plane, q: Plane, r: Plane)
    requires OutcomesStay(p, q) && OutcomesStay(q, r)
    ensures OutcomesStay(p, r)
  {}

  /** In every run, with atomic policy updates or not: an action is pending or settled, it is settled exactly once,
      and its outcome is final. */
  lemma {:induction false} SettledExactlyOnce(
    sys: System, config: Config, verifies: Verifier, events: seq<Event>, last: System)
    requires Booked(sys.plane) && Runs(sys, config, verifies, events, last)
    ensures Booked(last.plane) && OutcomesStay(sys.plane, last.plane)
    decreases |events|
  {
    hide Booked, OutcomesStay, Next, Enabled, SameBooks;
    if events == [] {
      SameIsSame(sys.plane);
      SameOutcomes(sys.plane, sys.plane);
    } else {
      NextBooks(sys, config, verifies, events[0]);
      var next := Next(sys, config, verifies, events[0]);
      SettledExactlyOnce(next, config, verifies, events[1..], last);
      StayingIsTransitive(sys.plane, next.plane, last.plane);
    }
  }

  lemma StartIsBooked()
    ensures Booked(START.plane)
  {}

  // ---- Which results are believed ----

  /** The result verifies under the key of the agent the action was sent to, it came on the connection that is
      registered for this agent now, and its nonce is new on this connection. */
  ghost predicate Believed(p: Plane, verifies: Verifier, s: nat, result: Sealed, now: int)
    requires result.message.Result? && result.message.actionId in p.pending
  {
    var m := result.message;
    m.agentId == p.pending[m.actionId].agentId
    && m.agentId in p.agents && p.agents[m.agentId].publicKey.Some?
    && verifies(p.agents[m.agentId].publicKey.value, result)
    && m.agentId in p.connections && p.connections[m.agentId].socket == s
    && forall n :: n in p.connections[m.agentId].seenNonces && n.value == m.nonce ==> n.expiresAt <= now
  }

  lemma JudgedIsBelieved(p: Plane, verifies: Verifier, s: nat, result: Sealed, now: int)
    requires result.message.Result? && result.message.actionId in p.pending
    ensures var outcome := Judged(p, verifies, s, result, now).1;
            if Believed(p, verifies, s, result, now) then outcome == Resolved(result) else outcome.Rejected?
  {
    hide Pruned, Remembered;
    var a := result.message.agentId;
    if a in p.connections {
      PrunedHas(p.connections[a].seenNonces, result.message.nonce, now);
    }
  }

  /** The event is a result for this action, whatever becomes of it. */
  ghost predicate ReportsOn(e: Event, id: Text) {
    e.op.ReceiveOp? && e.op.incoming.Some? && Parses(e.op.incoming.value.message)
    && e.op.incoming.value.message.Result? && e.op.incoming.value.message.actionId == id
  }

  /** An action that was known before is pending, or settled, as it was. */
  ghost predicate Untouched(p: Plane, q: Plane, id: Text) {
    (id in p.outcomes <==> id in q.outcomes) && (id in p.pending ==> id in q.pending)
  }

  lemma SameIsUntouched(p: Plane, q: Plane, id: Text)
    requires SameBooks(p, q)
    ensures Untouched(p, q, id)
  {}

  lemma ReportOnAnother(p: Plane, verifies: Verifier, s: nat, incoming: Option<Sealed>, now: int, id: Text)
    requires id !in p.pending || !ReportsOn(Event(ReceiveOp(s, incoming), now), id)
    ensures Untouched(p, Received(p, verifies, s, incoming, now), id)
  {
    hide Greeted, Refused, Reported, Parses, SameBooks, Untouched;
    RefusedFrame(p, s, InternalError);
    SameIsUntouched(p, Refused(p, s, InternalError), id);
    if incoming.Some? && incoming.value.message.Hello? {
      GreetedFrame(p, verifies, s, incoming.value, now);
      SameIsUntouched(p, Greeted(p, verifies, s, incoming.value, now), id);
    } else if incoming.Some? && incoming.value.message.Result? && Parses(incoming.value.message) {
      ResultOnAnother(p, verifies, s, incoming.value, now, id);
    }
  }

  lemma ResultOnAnother(p: Plane, verifies: Verifier, s: nat, result: Sealed, now: int, id: Text)
    requires result.message.Result? && (id !in p.pending || result.message.actionId != id)
    ensures Untouched(p, Reported(p, verifies, s, result, now), id)
  {
    hide Judged;
  }

  lemma DispatchOfAnother(p: Plane, config: Config, verifies: Verifier, e: Event, id: Text)
    requires Booked(p) && e.op.DispatchOp?
    ensures Untouched(p, Effect(p, config, verifies, e), id)
  {
    hide Dispatch, RowSound;
    var o := e.op;
    DispatchOpens(p, config, o.principal, o.name, o.tool, o.args, o.requested, o.actionId, o.nonce, o.signature, e.now);
  }

  lemma OtherStep(sys: System, config: Config, verifies: Verifier, e: Event, id: Text)
    requires Booked(sys.plane) && Enabled(sys, e)
    requires id !in sys.plane.pending || (!ReportsOn(e, id) && e.op != TimeoutOp(id))
    ensures Untouched(sys.plane, Next(sys, config, verifies, e).plane, id)
  {
    hide CreateToken, Enroll, Received, SocketLost, UpdatePolicy, Revoke, Dispatch, Finished, Cleaned, Resolve,
      RowSound, ReportsOn, SameBooks, Untouched, Settled;
    var p, q := sys.plane, Next(sys, config, verifies, e).plane;
    match e.op
    case ReceiveOp(s, incoming) => ReportOnAnother(p, verifies, s, incoming, e.now, id);
    case DispatchOp(_, _, _, _, _, _, _, _) => DispatchOfAnother(p, config, verifies, e, id);
    case WritePatchOp(edit, patch, nonce, signature) =>
      var x := sys.edits[edit];
      UpdatePolicyFrame(p, config, x.principal, x.a, x.agent, patch, nonce, signature, e.now);
      SameIsUntouched(p, q, id);
    case FinishOp(other) => FinishIsUntouched(p, other, id);
    case TimeoutOp(other) => TimeoutOfAnother(p, other, id);
    case ReadForPatchOp(_, _, _) =>
      SameIsSame(p);
      SameIsUntouched(p, q, id);
    case _ =>
      EffectFrame(p, config, verifies, e);
      SameIsUntouched(p, q, id);
  }

  lemma FinishIsUntouched(p: Plane, other: Text, id: Text)
    requires other in p.outcomes
    ensures Untouched(p, Finished(p, other), id)
  {}

  lemma TimeoutOfAnother(p: Plane, other: Text, id: Text)
    requires Booked(p) && other in p.pending && (id !in p.pending || id != other)
    ensures Untouched(p, Expired(p, other), id)
  {
    hide RowSound;
  }

  lemma ReportSettles(p: Plane, verifies: Verifier, s: nat, result: Sealed, now: int)
    requires result.message.Result? && result.message.actionId in p.pending && result.message.actionId !in p.outcomes
    requires Parses(result.message)
    ensures var id, q := result.message.actionId, Received(p, verifies, s, Some(result), now);
            id in q.outcomes
            && if Believed(p, verifies, s, result, now) then q.outcomes[id] == Resolved(result)
               else q.outcomes[id].Rejected?
  {
    hide Judged, Parses, Believed;
    JudgedIsBelieved(p, verifies, s, result, now);
  }

  /** A pending action is settled by a result for it or by its timer and by nothing else, and it is resolved exactly
      when the result is one that is believed. */
  lemma WhatSettles(sys: System, config: Config, verifies: Verifier, e: Event, id: Text)
    requires Booked(sys.plane) && Enabled(sys, e) && id in sys.plane.pending
    ensures var p, q := sys.plane, Next(sys, config, verifies, e).plane;
            if ReportsOn(e, id) then
              id in q.outcomes
              && if Believed(p, verifies, e.op.s, e.op.incoming.value, e.now) then
                   q.outcomes[id] == Resolved(e.op.incoming.value)
                 else q.outcomes[id].Rejected?
            else if e.op == TimeoutOp(id) then id in q.outcomes && q.outcomes[id] == Rejected(AgentTimeout)
            else id in q.pending
  {
    hide Believed, Received, RowSound, Parses;
    if ReportsOn(e, id) {
      ReportSettles(sys.plane, verifies, e.op.s, e.op.incoming.value, e.now);
    } else if e.op != TimeoutOp(id) {
      hide Next;
      OtherStep(sys, config, verifies, e, id);
    }
  }

  /** At some step of the run the action was pending and this result was believed. */
  ghost predicate BelievedInRun(
    sys: System, config: Config, verifies: Verifier, events: seq<Event>, id: Text, result: Sealed)
    decreases |events|
  {
    events != []
    && ((id in sys.plane.pending && ReportsOn(events[0], id) && events[0].op.incoming.value == result
         && Believed(sys.plane, verifies, events[0].op.s, result, events[0].now))
        || BelievedInRun(Next(sys, config, verifies, events[0]), config, verifies, events[1..], id, result))
  }

  /** An action that had no outcome before the run has this result as its outcome afterwards exactly when the result
      was believed on the way. */
  lemma {:induction false} ResolvedMeansBelieved(
    sys: System, config: Config, verifies: Verifier, events: seq<Event>, last: System, id: Text, result: Sealed)
    requires Booked(sys.plane) && Runs(sys, config, verifies, events, last) && id !in sys.plane.outcomes
    ensures id in last.plane.outcomes && last.plane.outcomes[id] == Resolved(result)
            <==> BelievedInRun(sys, config, verifies, events, id, result)
    decreases |events|
  {
    if events != [] {
      hide Booked, Believed, ReportsOn, Next, Enabled;
      var e, next := events[0], Next(sys, config, verifies, events[0]);
      NextBooks(sys, config, verifies, e);
      StepOutcome(sys, config, verifies, e, id);
      if id in next.plane.outcomes {
        SettledExactlyOnce(next, config, verifies, events[1..], last);
        NeverBelievedAgain(next, config, verifies, events[1..], last, id, result);
      } else {
        ResolvedMeansBelieved(next, config, verifies, events[1..], last, id, result);
      }
    }
  }

  lemma StepOutcome(sys: System, config: Config, verifies: Verifier, e: Event, id: Text)
    requires Booked(sys.plane) && Enabled(sys, e) && id !in sys.plane.outcomes
    ensures var q := Next(sys, config, verifies, e).plane;
            id in q.outcomes ==> id in sys.plane.pending
    ensures var p, q := sys.plane, Next(sys, config, verifies, e).plane;
            id in p.pending && ReportsOn(e, id) ==>
              id in q.outcomes
              && if Believed(p, verifies, e.op.s, e.op.incoming.value, e.now) then
                   q.outcomes[id] == Resolved(e.op.incoming.value)
                 else q.outcomes[id].Rejected?
    ensures var q := Next(sys, config, verifies, e).plane;
            id in q.outcomes && !ReportsOn(e, id) ==> q.outcomes[id].Rejected?
  {
    hide Believed, Next, RowSound, ReportsOn;
    NextBooks(sys, config, verifies, e);
    if id in sys.plane.pending {
      WhatSettles(sys, config, verifies, e, id);
    } else {
      OtherStep(sys, config, verifies, e, id);
    }
  }

  lemma {:induction false} NeverBelievedAgain(
    sys: System, config: Config, verifies: Verifier, events: seq<Event>, last: System, id: Text, result: Sealed)
    requires Booked(sys.plane) && Runs(sys, config, verifies, events, last) && id in sys.plane.outcomes
    ensures !BelievedInRun(sys, config, verifies, events, id, result)
    decreases |events|
  {
    if events != [] {
      hide Booked, Believed, ReportsOn, Next, Enabled;
      NextBooks(sys, config, verifies, events[0]);
      SettledIsNotPending(sys.plane, id);
      NeverBelievedAgain(Next(sys, config, verifies, events[0]), config, verifies, events[1..], last, id, result);
    }
  }

  lemma SettledIsNotPending(p: Plane, id: Text)
    requires Booked(p) && id in p.outcomes
    ensures id !in p.pending
  {}
}
