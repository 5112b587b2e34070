/** A signed hello is accepted at most once, unless it is dated no earlier than the clock that first accepts it. */
module HelloReplay {
  import opened JsText
  import opened CanonicalJson
  import opened RemoteTypes
  import opened Envelopes
  import opened NonceWindows
  import opened Planes
  import opened PlaneRuns

  /** The nonce is remembered for longer than a hello dated `timestamp` can pass as fresh, or that time is over. */
  ghost predicate Spent(p: Plane, clock: int, a: Text, nonce: Text, timestamp: int) {
    clock > timestamp + 300_000 || Holds(HelloNonces(p, a), nonce, timestamp + 300_000)
  }

  lemma CleanedNonces(p: Plane, now: int, a: Text)
    ensures HelloNonces(Cleaned(p, now), a) == Pruned(HelloNonces(p, a), now)
  {}

  lemma SpentIsRefused(p: Plane, verifies: Verifier, s: nat, hello: Sealed, now: int)
    requires hello.message.Hello? && Spent(p, now, hello.message.agentId, hello.message.nonce, hello.message.timestamp)
    ensures HelloProblem(p, verifies, s, hello, now).Some?
  {
    hide Pruned, Cleaned;
    var m := hello.message;
    CleanedNonces(p, now, m.agentId);
    PrunedHas(HelloNonces(p, m.agentId), m.nonce, now);
  }

  lemma CleaningKeepsSpent(p: Plane, clock: int, now: int, a: Text, nonce: Text, timestamp: int)
    requires Spent(p, clock, a, nonce, timestamp) && clock <= now
    ensures Spent(Cleaned(p, now), now, a, nonce, timestamp)
  {
    hide Pruned, Cleaned;
    CleanedNonces(p, now, a);
    if now <= timestamp + 300_000 {
      PrunedHolds(HelloNonces(p, a), nonce, now, timestamp + 300_000);
    }
  }

  lemma SetHolds(w: Window, n: Entry, value: Text, now: int)
    requires !Has(w, n.value)
    ensures Holds(Set(w, n), value, now) <==> Holds(w, value, now) || (n.value == value && now < n.expiresAt)
  {
    hide Set;
    SetOfAbsent(w, n);
    assert n in w + [n];
  }

  /** The nonces after a hello has been accepted. */
  lemma RegisteredNonces(p: Plane, s: nat, m: Message, now: int)
    requires m.Hello? && m.agentId in p.agents
    ensures Registered(p, s, m, now).helloNonces
            == p.helloNonces[m.agentId := Set(HelloNonces(p, m.agentId), Entry(m.nonce, now + AGENT_NONCE_TTL_MS))]
  {
    hide Closed, Send, Remembered, Set;
    var a, agent := m.agentId, p.agents[m.agentId];
    var p1 := p.(helloNonces := p.helloNonces[a := Set(HelloNonces(p, a), Entry(m.nonce, now + AGENT_NONCE_TTL_MS))]);
    var p2 := if a in p.connections then Closed(p1, p.connections[a].socket) else p1;
    if a in p.connections {
      ClosedFrame(p1, p.connections[a].socket);
    }
    var p3 := p2.(connections := p2.connections[a := Live(s, Remembered([], m.nonce, now))],
                  agents := p2.agents[a := agent.(status := Online, host := Some(m.host))]);
    var socket := SocketAt(p3.sockets, s);
    SendFrame(p3.(sockets := p3.sockets[s := socket.(handlers := socket.handlers + [a])]), s, Ready(a, agent.policy));
  }

  lemma AcceptedIsFresh(p: Plane, verifies: Verifier, s: nat, hello: Sealed, now: int)
    requires hello.message.Hello? && HelloProblem(p, verifies, s, hello, now).None?
    ensures !Has(HelloNonces(Cleaned(p, now), hello.message.agentId), hello.message.nonce)
    ensures Enrolled(p, hello.message.agentId) && verifies(p.agents[hello.message.agentId].publicKey.value, hello)
    ensures Abs(now - hello.message.timestamp) <= 300_000
  {
    hide Cleaned;
  }

  lemma GreetingKeepsSpent(
    p: Plane, verifies: Verifier, s: nat, hello: Sealed, clock: int, now: int, a: Text, nonce: Text, timestamp: int)
    requires hello.message.Hello? && Spent(p, clock, a, nonce, timestamp) && clock <= now
    ensures Spent(Greeted(p, verifies, s, hello, now), now, a, nonce, timestamp)
  {
    hide Registered, Refused, Cleaned, Set, Spent;
    var cleaned, m := Cleaned(p, now), hello.message;
    var problem := HelloProblem(p, verifies, s, hello, now);
    CleaningKeepsSpent(p, clock, now, a, nonce, timestamp);
    if problem.Some? {
      RefusedFrame(p, s, problem.value);
      RefusedFrame(cleaned, s, problem.value);
      SpentElsewhere(p, Refused(p, s, problem.value), clock, now, a, nonce, timestamp);
      SpentElsewhere(cleaned, Refused(cleaned, s, problem.value), now, now, a, nonce, timestamp);
    } else {
      AcceptedIsFresh(p, verifies, s, hello, now);
      CleanedFrame(p, now);
      RegisteringKeepsSpent(cleaned, s, m, now, a, nonce, timestamp);
    }
  }

  lemma SpentElsewhere(p: Plane, q: Plane, clock: int, now: int, a: Text, nonce: Text, timestamp: int)
    requires Spent(p, clock, a, nonce, timestamp) && clock <= now && q.helloNonces == p.helloNonces
    ensures Spent(q, now, a, nonce, timestamp)
  {}

  lemma RegisteringKeepsSpent(p: Plane, s: nat, m: Message, now: int, a: Text, nonce: Text, timestamp: int)
    requires m.Hello? && m.agentId in p.agents && Spent(p, now, a, nonce, timestamp)
    requires !Has(HelloNonces(p, m.agentId), m.nonce)
    ensures Spent(Registered(p, s, m, now), now, a, nonce, timestamp)
  {
    hide Registered, Set;
    RegisteredNonces(p, s, m, now);
    SetHolds(HelloNonces(p, m.agentId), Entry(m.nonce, now + AGENT_NONCE_TTL_MS), nonce, timestamp + 300_000);
  }

  lemma ReceivingKeepsSpent(
    p: Plane, verifies: Verifier, s: nat, incoming: Option<Sealed>, clock: int, now: int, a: Text, nonce: Text,
    timestamp: int)
    requires Spent(p, clock, a, nonce, timestamp) && clock <= now
    ensures Spent(Received(p, verifies, s, incoming, now), now, a, nonce, timestamp)
  {
    hide Spent, Greeted, Reported, Refused, Parses;
    RefusedFrame(p, s, InternalError);
    SpentElsewhere(p, Refused(p, s, InternalError), clock, now, a, nonce, timestamp);
    if incoming.Some? {
      if incoming.value.message.Hello? {
        GreetingKeepsSpent(p, verifies, s, incoming.value, clock, now, a, nonce, timestamp);
      } else if incoming.value.message.Result? {
        ReportedFrame(p, verifies, s, incoming.value, now);
        SpentElsewhere(p, Reported(p, verifies, s, incoming.value, now), clock, now, a, nonce, timestamp);
      }
    }
  }

  lemma EnrollingKeepsNonces(p: Plane, config: Config, verifies: Verifier, e: Event)
    requires e.op.CreateTokenOp? || e.op.EnrollOp?
    ensures Effect(p, config, verifies, e).helloNonces == p.helloNonces
  {
    hide CreateToken, Enroll;
    var o := e.op;
    if o.CreateTokenOp? {
      CreateTokenFrame(p, config, o.principal, o.alias, o.profile, o.agentId, o.tokenHash, e.now);
    } else {
      EnrollFrame(p, o.tokenHash, o.publicKey, o.keyIsValid, o.host, e.now);
    }
  }

  lemma NamedKeepNonces(p: Plane, config: Config, verifies: Verifier, e: Event)
    requires e.op.UpdatePolicyOp? || e.op.RevokeOp?
    ensures Effect(p, config, verifies, e).helloNonces == p.helloNonces
  {
    hide UpdatePolicy, Revoke, Resolve;
    var target := Resolve(p, e.op.principal.userId, e.op.name);
    if target.Some? {
      var a := target.value;
      if e.op.UpdatePolicyOp? {
        UpdatePolicyFrame(p, config, e.op.principal, a, p.agents[a], e.op.patch, e.op.nonce, e.op.signature, e.now);
      } else {
        RevokeFrame(p, e.op.principal, a);
      }
    }
  }

  /** Steps that do not look at hello nonces leave them as they are. */
  lemma OthersKeepNonces(p: Plane, config: Config, verifies: Verifier, e: Event)
    requires !e.op.ReceiveOp? && !e.op.CleanOp?
    ensures Effect(p, config, verifies, e).helloNonces == p.helloNonces
  {
    hide CreateToken, Enroll, Received, SocketLost, UpdatePolicy, Revoke, Dispatch, Settled, Finished, Cleaned, Resolve;
    match e.op
    case CreateTokenOp(_, _, _, _, _) => EnrollingKeepsNonces(p, config, verifies, e);
    case EnrollOp(_, _, _, _) => EnrollingKeepsNonces(p, config, verifies, e);
    case LostOp(s) => ClosedFrame(p, s);
    case UpdatePolicyOp(_, _, _, _, _) => NamedKeepNonces(p, config, verifies, e);
    case RevokeOp(_, _) => NamedKeepNonces(p, config, verifies, e);
    case DispatchOp(principal, name, tool, args, requested, actionId, nonce, signature) =>
      DispatchFrame(p, config, principal, name, tool, args, requested, actionId, nonce, signature, e.now);
    case TimeoutOp(id) => SettledFrame(p, id, Rejected(AgentTimeout));
    case FinishOp(id) => FinishedFrame(p, id);
    case _ =>
  }

  lemma NextKeepsSpent(
    sys: System, config: Config, verifies: Verifier, e: Event, a: Text, nonce: Text, timestamp: int)
    requires Spent(sys.plane, sys.clock, a, nonce, timestamp) && sys.clock <= e.now
    ensures var next := Next(sys, config, verifies, e); Spent(next.plane, next.clock, a, nonce, timestamp)
  {
    hide Spent, Received, UpdatePolicy, Resolve, Cleaned, CreateToken, Enroll, SocketLost, Revoke, Dispatch, Settled,
      Finished;
    var p, next := sys.plane, Next(sys, config, verifies, e);
    if e.op.ReceiveOp? {
      ReceivingKeepsSpent(p, verifies, e.op.s, e.op.incoming, sys.clock, e.now, a, nonce, timestamp);
    } else if e.op.CleanOp? {
      CleaningKeepsSpent(p, sys.clock, e.now, a, nonce, timestamp);
    } else {
      OthersKeepNonces(p, config, verifies, e);
      if e.op.WritePatchOp? && e.op.edit in sys.edits {
        var x := sys.edits[e.op.edit];
        UpdatePolicyFrame(p, config, x.principal, x.a, x.agent, e.op.patch, e.op.nonce, e.op.signature, e.now);
      }
      SpentElsewhere(p, next.plane, sys.clock, e.now, a, nonce, timestamp);
    }
  }

  lemma {:induction false} RunsKeepSpent(
    sys: System, config: Config, verifies: Verifier, events: seq<Event>, last: System, a: Text, nonce: Text,
    timestamp: int)
    requires Spent(sys.plane, sys.clock, a, nonce, timestamp) && Runs(sys, config, verifies, events, last)
    ensures Spent(last.plane, last.clock, a, nonce, timestamp)
    decreases |events|
  {
    hide Spent, Next;
    if events != [] {
      NextKeepsSpent(sys, config, verifies, events[0], a, nonce, timestamp);
      RunsKeepSpent(Next(sys, config, verifies, events[0]), config, verifies, events[1..], last, a, nonce, timestamp);
    }
  }

  lemma AcceptedIsSpent(p: Plane, verifies: Verifier, s: nat, hello: Sealed, now: int)
    requires hello.message.Hello? && HelloProblem(p, verifies, s, hello, now).None? && hello.message.timestamp < now
    ensures var m := hello.message; Spent(Greeted(p, verifies, s, hello, now), now, m.agentId, m.nonce, m.timestamp)
  {
    hide Registered, Set, Cleaned;
    var cleaned, m := Cleaned(p, now), hello.message;
    AcceptedIsFresh(p, verifies, s, hello, now);
    CleanedFrame(p, now);
    RegisteredNonces(cleaned, s, m, now);
    SetHolds(HelloNonces(cleaned, m.agentId), Entry(m.nonce, now + AGENT_NONCE_TTL_MS), m.nonce,
             m.timestamp + 300_000);
  }

  /** A hello accepted at a time later than its date is refused ever after, on every socket, with whatever spelling of
      its signature and whatever happened in between. */
  lemma HelloIsAcceptedOnce(
    sys: System, config: Config, verifies: Verifier, first: Event, events: seq<Event>, last: System, s: nat,
    hello: Sealed, repeated: Sealed, again: nat, now: int)
    requires first.op == ReceiveOp(s, Some(hello)) && hello.message.Hello? && Parses(hello.message)
    requires HelloProblem(sys.plane, verifies, s, hello, first.now).None? && hello.message.timestamp < first.now
    requires Runs(Next(sys, config, verifies, first), config, verifies, events, last) && last.clock <= now
    requires repeated.message == hello.message
    ensures HelloProblem(last.plane, verifies, again, repeated, now).Some?
  {
    hide HelloProblem, Spent, Greeted, Parses;
    var m, next := hello.message, Next(sys, config, verifies, first);
    AcceptedIsSpent(sys.plane, verifies, s, hello, first.now);
    RunsKeepSpent(next, config, verifies, events, last, m.agentId, m.nonce, m.timestamp);
    SpentElsewhere(last.plane, last.plane, last.clock, now, m.agentId, m.nonce, m.timestamp);
    SpentIsRefused(last.plane, verifies, again, repeated, now);
  }

  /** The agent as it is just after its hello was accepted. */
  lemma RegisteredAgent(p: Plane, s: nat, m: Message, now: int)
    requires m.Hello? && Enrolled(p, m.agentId)
    ensures var q := Registered(p, s, m, now);
            Enrolled(q, m.agentId) && q.agents[m.agentId].publicKey == p.agents[m.agentId].publicKey
            && m.agentId in q.connections && q.connections[m.agentId].socket == s
  {
    hide Closed, Send, Remembered, Set;
    var a, agent := m.agentId, p.agents[m.agentId];
    var p1 := p.(helloNonces := p.helloNonces[a := Set(HelloNonces(p, a), Entry(m.nonce, now + AGENT_NONCE_TTL_MS))]);
    var p2 := if a in p.connections then Closed(p1, p.connections[a].socket) else p1;
    var p3 := p2.(connections := p2.connections[a := Live(s, Remembered([], m.nonce, now))],
                  agents := p2.agents[a := agent.(status := Online, host := Some(m.host))]);
    var socket := SocketAt(p3.sockets, s);
    SendFrame(p3.(sockets := p3.sockets[s := socket.(handlers := socket.handlers + [a])]), s, Ready(a, agent.policy));
  }

  /** Just after a hello was accepted it can be accepted again, at some time and on some socket, exactly when it is
      dated no earlier than the clock that accepted it. */
  lemma ReplayableExactlyWhenDatedAhead(p: Plane, verifies: Verifier, s: nat, hello: Sealed, now: int)
    requires hello.message.Hello? && HelloProblem(p, verifies, s, hello, now).None?
    ensures (exists again: nat, later: int :: now <= later
               && HelloProblem(Greeted(p, verifies, s, hello, now), verifies, again, hello, later).None?)
            <==> now <= hello.message.timestamp
  {
    hide Registered, Set, Pruned, Cleaned, HelloProblem, Spent, Greeted;
    var q, m := Greeted(p, verifies, s, hello, now), hello.message;
    if now <= m.timestamp {
      ReplayWhenDatedAhead(p, verifies, s, hello, now);
      assert HelloProblem(q, verifies, s + 1, hello, m.timestamp + 300_000).None?;
    } else {
      AcceptedIsSpent(p, verifies, s, hello, now);
      forall again: nat, later: int | now <= later ensures HelloProblem(q, verifies, again, hello, later).Some? {
        SpentElsewhere(q, q, now, later, m.agentId, m.nonce, m.timestamp);
        SpentIsRefused(q, verifies, again, hello, later);
      }
    }
  }

  lemma ReplayWhenDatedAhead(p: Plane, verifies: Verifier, s: nat, hello: Sealed, now: int)
    requires hello.message.Hello? && HelloProblem(p, verifies, s, hello, now).None? && now <= hello.message.timestamp
    ensures var later := hello.message.timestamp + 300_000;
            HelloProblem(Greeted(p, verifies, s, hello, now), verifies, s + 1, hello, later).None?
  {
    hide Registered, Set, Pruned, Cleaned;
    var cleaned, m, later := Cleaned(p, now), hello.message, hello.message.timestamp + 300_000;
    AcceptedIsFresh(p, verifies, s, hello, now);
    assert cleaned.agents == p.agents by {
      CleanedFrame(p, now);
    }
    var q := Registered(cleaned, s, m, now);
    RegisteredAgent(cleaned, s, m, now);
    RegisteredNonces(cleaned, s, m, now);
    SetHolds(HelloNonces(cleaned, m.agentId), Entry(m.nonce, now + AGENT_NONCE_TTL_MS), m.nonce, later);
    CleanedNonces(q, later, m.agentId);
    PrunedHas(HelloNonces(q, m.agentId), m.nonce, later);
  }
}
