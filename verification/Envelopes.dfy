/** The signed messages of the protocol and what a signature binds (src/remote/crypto.ts,
    src/remote/schemas.ts). A signature is ideal: it verifies for a text under a key exactly when the
    owner of the key has signed that text. */
module Envelopes {
  import opened JsText
  import opened CanonicalJson
  import opened RemoteTypes
  import opened Decimals

  // ---- Records ----

  predicate NotAmong(x: string, xs: seq<string>) { xs == [] || (x != xs[0] && NotAmong(x, xs[1..])) }

  predicate Distinct(xs: seq<string>) { xs == [] || (NotAmong(xs[0], xs[1..]) && Distinct(xs[1..])) }

  /** The object with these members. */
  function Record(names: seq<string>, docs: seq<Doc>): map<Text, Doc>
    requires |names| == |docs|
  {
    if names == [] then map[] else Record(names[1..], docs[1..])[Utf16(names[0]) := docs[0]]
  }

  lemma {:induction false} RecordKeys(names: seq<string>, docs: seq<Doc>, x: string)
    requires |names| == |docs|
    ensures Utf16(x) in Record(names, docs) <==> !NotAmong(x, names)
  {
    if names != [] {
      RecordKeys(names[1..], docs[1..], x);
      if Utf16(x) == Utf16(names[0]) {
        Utf16Injective(x, names[0]);
      }
    }
  }

  /** A record determines its members. */
  lemma {:induction false} RecordIsInjective(names: seq<string>, a: seq<Doc>, b: seq<Doc>)
    requires |names| == |a| == |b| && Distinct(names)
    requires Record(names, a) == Record(names, b)
    ensures a == b
  {
    if names != [] {
      var key := Utf16(names[0]);
      assert a[0] == Record(names, a)[key] == Record(names, b)[key] == b[0];
      RecordKeys(names[1..], a[1..], names[0]);
      RecordKeys(names[1..], b[1..], names[0]);
      assert Record(names[1..], a[1..]) == Record(names, a) - {key};
      assert Record(names[1..], b[1..]) == Record(names, b) - {key};
      RecordIsInjective(names[1..], a[1..], b[1..]);
      assert a == [a[0]] + a[1..] && b == [b[0]] + b[1..];
    }
  }

  lemma {:induction false} RecordIsDoc(names: seq<string>, docs: seq<Doc>)
    requires |names| == |docs| && IsDoc(DArr(docs))
    ensures IsDoc(DObj(Record(names, docs)))
  {
    if names != [] {
      assert forall i :: 0 <= i < |docs[1..]| ==> docs[1..][i] == docs[i + 1];
      RecordIsDoc(names[1..], docs[1..]);
    }
  }

  // ---- Members ----

  function TextDoc(s: string): Doc { DStr(Utf16(s)) }

  /** An instant, in milliseconds since the epoch. */
  function InstantDoc(ms: int): Doc { TextDoc(Decimal(ms)) }

  function NumberDoc(n: int): (d: Doc)
    ensures IsDoc(d)
  {
    DecimalIsNumber(n);
    DNum(Utf16(Decimal(n)))
  }

  lemma {:induction false} DigitsAreUnits(s: string)
    requires forall i :: 0 <= i < |s| ==> s[i] < 128 as char
    ensures |Utf16(s)| == |s| && forall i :: 0 <= i < |s| ==> Utf16(s)[i] as int == s[i] as int
  {
    if s != "" {
      DigitsAreUnits(s[1..]);
    }
  }

  lemma DecimalIsNumber(n: int)
    ensures IsNumber(Utf16(Decimal(n)))
  {
    DigitsAreUnits(Decimal(n));
  }

  lemma DecimalTextInjective(a: int, b: int)
    requires Utf16(Decimal(a)) == Utf16(Decimal(b))
    ensures a == b
  {
    Utf16Injective(Decimal(a), Decimal(b));
    DecimalInjective(a, b);
  }

  function TextDocs(ts: seq<Text>): seq<Doc> { if ts == [] then [] else [DStr(ts[0])] + TextDocs(ts[1..]) }

  lemma {:induction false} TextDocsInjective(a: seq<Text>, b: seq<Text>)
    requires TextDocs(a) == TextDocs(b)
    ensures a == b
  {
    if a != [] && b != [] {
      assert TextDocs(a)[0] == TextDocs(b)[0] && TextDocs(a)[1..] == TextDocs(a[1..]);
      assert TextDocs(b)[1..] == TextDocs(b[1..]);
      TextDocsInjective(a[1..], b[1..]);
      assert a == [a[0]] + a[1..] && b == [b[0]] + b[1..];
    }
  }

  lemma {:induction false} TextDocsAreDocs(ts: seq<Text>)
    ensures IsDoc(DArr(TextDocs(ts)))
  {
    if ts != [] {
      TextDocsAreDocs(ts[1..]);
    }
  }

  // ---- Policies ----

  function Flags(order: seq<Capability>, granted: set<Capability>): (docs: seq<Doc>)
    ensures |docs| == |order|
  {
    if order == [] then [] else [DBool(order[0] in granted)] + Flags(order[1..], granted)
  }

  function CapabilityNames(order: seq<Capability>): (names: seq<string>)
    ensures |names| == |order|
  {
    if order == [] then [] else [CapabilityName(order[0])] + CapabilityNames(order[1..])
  }

  lemma {:induction false} CapabilityNameAbsent(x: Capability, order: seq<Capability>)
    requires x !in order
    ensures NotAmong(CapabilityName(x), CapabilityNames(order))
  {
    if order != [] {
      CapabilityNameAbsent(x, order[1..]);
      var names := CapabilityNames(order);
      assert names[1..] == CapabilityNames(order[1..]);
      assert CapabilityName(order[0]) != CapabilityName(x);
    }
  }

  lemma {:induction false} CapabilityNamesDistinct(order: seq<Capability>)
    requires forall i, j :: 0 <= i < j < |order| ==> order[i] != order[j]
    ensures Distinct(CapabilityNames(order))
  {
    if order != [] {
      CapabilityNameAbsent(order[0], order[1..]);
      CapabilityNamesDistinct(order[1..]);
      var names := CapabilityNames(order);
      assert names[1..] == CapabilityNames(order[1..]);
    }
  }

  lemma {:induction false} FlagsInjective(order: seq<Capability>, a: set<Capability>, b: set<Capability>)
    requires Flags(order, a) == Flags(order, b)
    ensures forall c :: c in order ==> (c in a <==> c in b)
  {
    if order != [] {
      var x, y := Flags(order, a), Flags(order, b);
      assert x[0] == y[0] && x[1..] == Flags(order[1..], a) && y[1..] == Flags(order[1..], b);
      FlagsInjective(order[1..], a, b);
    }
  }

  lemma EveryCapability(c: Capability)
    ensures c in REMOTE_CAPABILITIES
  {}

  lemma CapabilitiesAreDistinct()
    ensures forall i, j :: 0 <= i < j < |REMOTE_CAPABILITIES| ==> REMOTE_CAPABILITIES[i] != REMOTE_CAPABILITIES[j]
  {}

  function CapabilitiesDoc(granted: set<Capability>): Doc {
    DObj(Record(CapabilityNames(REMOTE_CAPABILITIES), Flags(REMOTE_CAPABILITIES, granted)))
  }

  lemma CapabilitiesDocInjective(a: set<Capability>, b: set<Capability>)
    requires CapabilitiesDoc(a) == CapabilitiesDoc(b)
    ensures a == b
  {
    hide CapabilityNames, Flags, Record, Distinct;
    CapabilitiesAreDistinct();
    CapabilityNamesDistinct(REMOTE_CAPABILITIES);
    RecordIsInjective(
      CapabilityNames(REMOTE_CAPABILITIES), Flags(REMOTE_CAPABILITIES, a), Flags(REMOTE_CAPABILITIES, b));
    FlagsInjective(REMOTE_CAPABILITIES, a, b);
    forall c: Capability ensures c in a <==> c in b {
      EveryCapability(c);
    }
  }

  lemma {:induction false} FlagsAreDocs(order: seq<Capability>, granted: set<Capability>)
    ensures IsDoc(DArr(Flags(order, granted)))
  {
    if order != [] {
      FlagsAreDocs(order[1..], granted);
    }
  }

  const POLICY_NAMES: seq<string> :=
    ["profile", "capabilities", "allowPaths", "denyPaths", "allowServices", "allowContainers", "maxOutputBytes",
     "maxActionTimeoutSeconds", "version"]

  function PolicyMembers(p: AgentPolicy): (docs: seq<Doc>)
    ensures |docs| == |POLICY_NAMES|
  {
    [TextDoc(ProfileName(p.profile)), CapabilitiesDoc(p.capabilities), DArr(TextDocs(p.allowPaths)),
     DArr(TextDocs(p.denyPaths)), DArr(TextDocs(p.allowServices)), DArr(TextDocs(p.allowContainers)),
     NumberDoc(p.maxOutputBytes), NumberDoc(p.maxActionTimeoutSeconds), NumberDoc(p.version)]
  }

  function PolicyDoc(p: AgentPolicy): Doc { DObj(Record(POLICY_NAMES, PolicyMembers(p))) }

  lemma PolicyDocIsDoc(p: AgentPolicy)
    ensures IsDoc(PolicyDoc(p))
  {
    hide Record, Flags, TextDocs, CapabilityNames, NumberDoc, Utf16, Decimal, ProfileName;
    FlagsAreDocs(REMOTE_CAPABILITIES, p.capabilities);
    RecordIsDoc(CapabilityNames(REMOTE_CAPABILITIES), Flags(REMOTE_CAPABILITIES, p.capabilities));
    TextDocsAreDocs(p.allowPaths);
    TextDocsAreDocs(p.denyPaths);
    TextDocsAreDocs(p.allowServices);
    TextDocsAreDocs(p.allowContainers);
    RecordIsDoc(POLICY_NAMES, PolicyMembers(p));
  }

  lemma PolicyNamesDistinct()
    ensures Distinct(POLICY_NAMES)
  {}

  lemma ProfileNameInjective(p: Profile, q: Profile)
    requires ProfileName(p) == ProfileName(q)
    ensures p == q
  {}

  lemma PolicyMembersInjective(p: AgentPolicy, q: AgentPolicy)
    requires PolicyMembers(p) == PolicyMembers(q)
    ensures p == q
  {
    hide CapabilitiesDoc, TextDocs, Utf16, Decimal, ProfileName;
    var a, b := PolicyMembers(p), PolicyMembers(q);
    assert a[0] == b[0] && a[1] == b[1] && a[2] == b[2] && a[3] == b[3] && a[4] == b[4];
    assert a[5] == b[5] && a[6] == b[6] && a[7] == b[7] && a[8] == b[8];
    Utf16Injective(ProfileName(p.profile), ProfileName(q.profile));
    ProfileNameInjective(p.profile, q.profile);
    CapabilitiesDocInjective(p.capabilities, q.capabilities);
    TextDocsInjective(p.allowPaths, q.allowPaths);
    TextDocsInjective(p.denyPaths, q.denyPaths);
    TextDocsInjective(p.allowServices, q.allowServices);
    TextDocsInjective(p.allowContainers, q.allowContainers);
    DecimalTextInjective(p.maxOutputBytes, q.maxOutputBytes);
    DecimalTextInjective(p.maxActionTimeoutSeconds, q.maxActionTimeoutSeconds);
    DecimalTextInjective(p.version, q.version);
  }

  lemma PolicyDocInjective(p: AgentPolicy, q: AgentPolicy)
    requires PolicyDoc(p) == PolicyDoc(q)
    ensures p == q
  {
    hide PolicyMembers, Record, Distinct;
    PolicyNamesDistinct();
    RecordIsInjective(POLICY_NAMES, PolicyMembers(p), PolicyMembers(q));
    PolicyMembersInjective(p, q);
  }

  // ---- Messages ----

  datatype Host = Host(hostname: Text, os: Text, arch: Text, platform: Text)

  datatype Message =
    | Hello(
        agentId: Text, timestamp: int, nonce: Text, capabilities: seq<Capability>, agentVersion: Text, host: Host)
    | Request(
        actionId: Text, agentId: Text, userId: Text, tool: Tool, capability: Capability, args: map<Text, Doc>,
        policyVersion: int, issuedAt: int, deadline: int, nonce: Text)
    | Result(actionId: Text, agentId: Text, nonce: Text, ok: bool, report: map<Text, Doc>)
    | PolicyUpdate(agentId: Text, policy: AgentPolicy, policyVersion: int, issuedAt: int, nonce: Text)

  const HOST_NAMES: seq<string> := ["hostname", "os", "arch", "platform"]
  const HELLO_NAMES: seq<string> :=
    ["type", "agent_id", "timestamp", "nonce", "capabilities", "agent_version", "host"]
  const REQUEST_SUBJECT: seq<string> := ["type", "action_id", "agent_id", "user_id", "tool"]
  const REQUEST_TERMS: seq<string> :=
    ["capability", "args", "policy_version", "issued_at", "deadline", "nonce"]
  const REQUEST_NAMES: seq<string> := REQUEST_SUBJECT + REQUEST_TERMS
  const RESULT_NAMES: seq<string> := ["type", "action_id", "agent_id", "nonce", "status"]
  const UPDATE_NAMES: seq<string> := ["type", "agent_id", "policy", "policy_version", "issued_at", "nonce"]

  function HostMembers(h: Host): (docs: seq<Doc>)
    ensures |docs| == |HOST_NAMES|
  {
    [DStr(h.hostname), DStr(h.os), DStr(h.arch), DStr(h.platform)]
  }

  function HostDoc(h: Host): Doc { DObj(Record(HOST_NAMES, HostMembers(h))) }

  function CapabilityTexts(cs: seq<Capability>): seq<Text> {
    if cs == [] then [] else [Utf16(CapabilityName(cs[0]))] + CapabilityTexts(cs[1..])
  }

  function TypeName(m: Message): string {
    if m.Hello? then "agent.hello"
    else if m.Request? then "action.request"
    else if m.Result? then "action.result"
    else "policy.update"
  }

  function MemberNames(m: Message): seq<string> {
    if m.Hello? then HELLO_NAMES
    else if m.Request? then REQUEST_NAMES
    else if m.Result? then RESULT_NAMES
    else UPDATE_NAMES
  }

  function HelloMembers(m: Message): (docs: seq<Doc>)
    requires m.Hello?
    ensures |docs| == |HELLO_NAMES|
  {
    [TextDoc("agent.hello"), DStr(m.agentId), InstantDoc(m.timestamp), DStr(m.nonce),
     DArr(TextDocs(CapabilityTexts(m.capabilities))), DStr(m.agentVersion), HostDoc(m.host)]
  }

  function RequestMembers(m: Message): (docs: seq<Doc>)
    requires m.Request?
    ensures |docs| == |REQUEST_NAMES|
  {
    [TextDoc("action.request"), DStr(m.actionId), DStr(m.agentId), DStr(m.userId), TextDoc(ToolName(m.tool)),
     TextDoc(CapabilityName(m.capability)), DObj(m.args), NumberDoc(m.policyVersion), InstantDoc(m.issuedAt),
     InstantDoc(m.deadline), DStr(m.nonce)]
  }

  function ResultMembers(m: Message): (docs: seq<Doc>)
    requires m.Result?
    ensures |docs| == |RESULT_NAMES|
  {
    [TextDoc("action.result"), DStr(m.actionId), DStr(m.agentId), DStr(m.nonce),
     TextDoc(if m.ok then "ok" else "error")]
  }

  function UpdateMembers(m: Message): (docs: seq<Doc>)
    requires m.PolicyUpdate?
    ensures |docs| == |UPDATE_NAMES|
  {
    [TextDoc("policy.update"), DStr(m.agentId), PolicyDoc(m.policy), NumberDoc(m.policyVersion),
     InstantDoc(m.issuedAt), DStr(m.nonce)]
  }

  /** The members every message of its type has, apart from the signature, in the order of MemberNames. */
  function Members(m: Message): (docs: seq<Doc>)
    ensures |docs| == |MemberNames(m)| >= 1
  {
    hide HelloMembers, RequestMembers, ResultMembers, UpdateMembers;
    if m.Hello? then HelloMembers(m)
    else if m.Request? then RequestMembers(m)
    else if m.Result? then ResultMembers(m)
    else UpdateMembers(m)
  }

  function Fixed(m: Message): map<Text, Doc> { Record(MemberNames(m), Members(m)) }

  /** The remaining members: those of a result that report what was executed. */
  function Rest(m: Message): map<Text, Doc> { if m.Result? then m.report else map[] }

  function Body(m: Message): Doc { DObj(Rest(m) + Fixed(m)) }

  predicate IsMessage(m: Message) {
    Rest(m).Keys !! Fixed(m).Keys && IsDoc(DObj(Rest(m))) && (m.Request? ==> IsDoc(DObj(m.args)))
  }

  lemma RequestIsMessage(m: Message)
    requires m.Request? && IsDoc(DObj(m.args))
    ensures IsMessage(m)
  {
    hide Fixed;
  }

  lemma MessageOfUpdate(m: Message)
    requires m.PolicyUpdate?
    ensures IsMessage(m)
  {
    hide Fixed;
  }

  lemma BodyIsDoc(m: Message)
    requires IsMessage(m)
    ensures IsDoc(Body(m))
  {
    hide Record, HelloMembers, RequestMembers, ResultMembers, UpdateMembers, MemberNames;
    if m.Hello? {
      HelloMembersAreDocs(m);
    } else if m.Request? {
      RequestMembersAreDocs(m);
    } else if m.Result? {
      ResultMembersAreDocs(m);
    } else {
      UpdateMembersAreDocs(m);
    }
    RecordIsDoc(MemberNames(m), Members(m));
  }

  lemma HelloMembersAreDocs(m: Message)
    requires m.Hello?
    ensures IsDoc(DArr(HelloMembers(m)))
  {
    hide Record, TextDocs, CapabilityTexts, Utf16, Decimal;
    TextDocsAreDocs(CapabilityTexts(m.capabilities));
    RecordIsDoc(HOST_NAMES, HostMembers(m.host));
  }

  lemma RequestMembersAreDocs(m: Message)
    requires m.Request? && IsDoc(DObj(m.args))
    ensures IsDoc(DArr(RequestMembers(m)))
  {
    hide NumberDoc, Utf16, ToolName, CapabilityName, Decimal;
  }

  lemma ResultMembersAreDocs(m: Message)
    requires m.Result?
    ensures IsDoc(DArr(ResultMembers(m)))
  {
    hide Utf16;
  }

  lemma UpdateMembersAreDocs(m: Message)
    requires m.PolicyUpdate?
    ensures IsDoc(DArr(UpdateMembers(m)))
  {
    hide NumberDoc, Utf16, PolicyDoc, Decimal;
    PolicyDocIsDoc(m.policy);
  }

  lemma HelloNamesDistinct()
    ensures Distinct(HELLO_NAMES) && Distinct(HOST_NAMES)
  {}

  predicate Apart(a: seq<string>, b: seq<string>) { a == [] || (NotAmong(a[0], b) && Apart(a[1..], b)) }

  lemma {:induction false} NotAmongConcat(x: string, a: seq<string>, b: seq<string>)
    requires NotAmong(x, a) && NotAmong(x, b)
    ensures NotAmong(x, a + b)
  {
    if a == [] {
      assert a + b == b;
    } else {
      NotAmongConcat(x, a[1..], b);
      assert (a + b)[1..] == a[1..] + b;
    }
  }

  lemma {:induction false} DistinctConcat(a: seq<string>, b: seq<string>)
    requires Distinct(a) && Distinct(b) && Apart(a, b)
    ensures Distinct(a + b)
  {
    if a == [] {
      assert a + b == b;
    } else {
      NotAmongConcat(a[0], a[1..], b);
      DistinctConcat(a[1..], b);
      assert (a + b)[1..] == a[1..] + b;
    }
  }

  lemma RequestNamesApart()
    ensures Apart(REQUEST_SUBJECT, REQUEST_TERMS)
  {}

  lemma RequestHalvesDistinct()
    ensures Distinct(REQUEST_SUBJECT) && Distinct(REQUEST_TERMS)
  {}

  lemma RequestNamesDistinct()
    ensures Distinct(REQUEST_NAMES)
  {
    hide Distinct, Apart;
    RequestHalvesDistinct();
    RequestNamesApart();
    DistinctConcat(REQUEST_SUBJECT, REQUEST_TERMS);
  }

  lemma UpdateNamesDistinct()
    ensures Distinct(UPDATE_NAMES) && Distinct(RESULT_NAMES)
  {}

  lemma NamesDistinct(m: Message)
    ensures Distinct(MemberNames(m))
  {
    hide Distinct;
    HelloNamesDistinct();
    RequestNamesDistinct();
    UpdateNamesDistinct();
  }

  lemma {:induction false} SameKeys(names: seq<string>, a: seq<Doc>, b: seq<Doc>)
    requires |names| == |a| == |b|
    ensures Record(names, a).Keys == Record(names, b).Keys
  {
    if names != [] {
      SameKeys(names[1..], a[1..], b[1..]);
    }
  }

  lemma HostDocInjective(a: Host, b: Host)
    requires HostDoc(a) == HostDoc(b)
    ensures a == b
  {
    hide Record, Distinct;
    HelloNamesDistinct();
    RecordIsInjective(HOST_NAMES, HostMembers(a), HostMembers(b));
    var x, y := HostMembers(a), HostMembers(b);
    assert x[0] == y[0] && x[1] == y[1] && x[2] == y[2] && x[3] == y[3];
  }

  lemma CapabilityNameInjective(a: Capability, b: Capability)
    requires CapabilityName(a) == CapabilityName(b)
    ensures a == b
  {}

  lemma ToolNameInjective(a: Tool, b: Tool)
    requires ToolName(a) == ToolName(b)
    ensures a == b
  {}

  lemma {:induction false} CapabilityTextsInjective(a: seq<Capability>, b: seq<Capability>)
    requires CapabilityTexts(a) == CapabilityTexts(b)
    ensures a == b
  {
    hide CapabilityName;
    if a != [] && b != [] {
      var x, y := CapabilityTexts(a), CapabilityTexts(b);
      assert x[0] == y[0] && x[1..] == CapabilityTexts(a[1..]) && y[1..] == CapabilityTexts(b[1..]);
      Utf16Injective(CapabilityName(a[0]), CapabilityName(b[0]));
      CapabilityNameInjective(a[0], b[0]);
      CapabilityTextsInjective(a[1..], b[1..]);
      assert a == [a[0]] + a[1..] && b == [b[0]] + b[1..];
    }
  }

  lemma SameType(a: Message, b: Message)
    requires TypeName(a) == TypeName(b)
    ensures (a.Hello? <==> b.Hello?) && (a.Request? <==> b.Request?) && (a.Result? <==> b.Result?)
  {}

  lemma MembersInjective(a: Message, b: Message)
    requires Members(a) == Members(b) && Rest(a) == Rest(b) && TypeName(a) == TypeName(b)
    ensures a == b
  {
    SameType(a, b);
    if a.Hello? {
      HelloMembersInjective(a, b);
    } else if a.Request? {
      RequestMembersInjective(a, b);
    } else if a.Result? {
      ResultMembersInjective(a, b);
    } else {
      UpdateMembersInjective(a, b);
    }
  }

  lemma HelloMembersInjective(a: Message, b: Message)
    requires a.Hello? && b.Hello? && Members(a) == Members(b)
    ensures a == b
  {
    hide HostDoc, TextDocs, CapabilityTexts, Utf16, Decimal;
    var x, y := Members(a), Members(b);
    assert x[1] == y[1] && x[2] == y[2] && x[3] == y[3] && x[4] == y[4] && x[5] == y[5] && x[6] == y[6];
    DecimalTextInjective(a.timestamp, b.timestamp);
    TextDocsInjective(CapabilityTexts(a.capabilities), CapabilityTexts(b.capabilities));
    CapabilityTextsInjective(a.capabilities, b.capabilities);
    HostDocInjective(a.host, b.host);
  }

  lemma RequestMembersInjective(a: Message, b: Message)
    requires a.Request? && b.Request? && Members(a) == Members(b)
    ensures a == b
  {
    hide Utf16, Decimal, ToolName, CapabilityName;
    var x, y := Members(a), Members(b);
    assert x[1] == y[1] && x[2] == y[2] && x[3] == y[3] && x[4] == y[4] && x[5] == y[5] && x[6] == y[6];
    assert x[7] == y[7] && x[8] == y[8] && x[9] == y[9] && x[10] == y[10];
    Utf16Injective(ToolName(a.tool), ToolName(b.tool));
    ToolNameInjective(a.tool, b.tool);
    Utf16Injective(CapabilityName(a.capability), CapabilityName(b.capability));
    CapabilityNameInjective(a.capability, b.capability);
    DecimalTextInjective(a.policyVersion, b.policyVersion);
    DecimalTextInjective(a.issuedAt, b.issuedAt);
    DecimalTextInjective(a.deadline, b.deadline);
  }

  lemma ResultMembersInjective(a: Message, b: Message)
    requires a.Result? && b.Result? && Members(a) == Members(b) && a.report == b.report
    ensures a == b
  {
    hide Utf16;
    var x, y := Members(a), Members(b);
    assert x[1] == y[1] && x[2] == y[2] && x[3] == y[3] && x[4] == y[4];
    Utf16Injective(if a.ok then "ok" else "error", if b.ok then "ok" else "error");
  }

  lemma UpdateMembersInjective(a: Message, b: Message)
    requires a.PolicyUpdate? && b.PolicyUpdate? && Members(a) == Members(b)
    ensures a == b
  {
    hide Utf16, Decimal, PolicyDoc;
    var x, y := Members(a), Members(b);
    assert x[1] == y[1] && x[2] == y[2] && x[3] == y[3] && x[4] == y[4] && x[5] == y[5];
    PolicyDocInjective(a.policy, b.policy);
    DecimalTextInjective(a.policyVersion, b.policyVersion);
    DecimalTextInjective(a.issuedAt, b.issuedAt);
  }

  lemma FirstMember(m: Message)
    requires IsMessage(m)
    ensures var key := Utf16("type");
            var body := Rest(m) + Fixed(m);
            key in body && body[key] == TextDoc(TypeName(m))
  {
    hide Utf16, InstantDoc, NumberDoc, TextDocs, HostDoc, PolicyDoc, CapabilityName, ToolName;
    var names, docs := MemberNames(m), Members(m);
    assert names[0] == "type";
    assert docs[0] == TextDoc(TypeName(m));
    assert Record(names, docs)[Utf16(names[0])] == docs[0];
  }

  /** The signed part of a message determines the message. */
  lemma BodyInjective(a: Message, b: Message)
    requires IsMessage(a) && IsMessage(b) && Body(a) == Body(b)
    ensures a == b
  {
    hide Members, Record, Utf16, Distinct, TypeName, MemberNames;
    FirstMember(a);
    FirstMember(b);
    Utf16Injective(TypeName(a), TypeName(b));
    SameType(a, b);
    SameNames(a, b);
    SameKeys(MemberNames(a), Members(a), Members(b));
    SplitUnion(Rest(a), Fixed(a), Rest(b), Fixed(b));
    NamesDistinct(a);
    RecordIsInjective(MemberNames(a), Members(a), Members(b));
    MembersInjective(a, b);
  }

  lemma SameNames(a: Message, b: Message)
    requires TypeName(a) == TypeName(b)
    ensures MemberNames(a) == MemberNames(b)
  {
    SameType(a, b);
  }

  lemma SplitUnion<K, V>(a: map<K, V>, b: map<K, V>, c: map<K, V>, d: map<K, V>)
    requires a + b == c + d && b.Keys == d.Keys && a.Keys !! b.Keys && c.Keys !! d.Keys
    ensures a == c && b == d
  {
    forall k | k in b ensures b[k] == d[k] {
      assert (a + b)[k] == (c + d)[k];
    }
    forall k ensures k in a <==> k in c {
      assert k in a + b <==> k in c + d;
    }
    forall k | k in a ensures a[k] == c[k] {
      assert (a + b)[k] == (c + d)[k];
    }
  }

  // ---- On the wire ----

  /** The object has a member of this name with this value. */
  ghost predicate Says(d: Doc, name: string, value: Doc) {
    d.DObj? && Utf16(name) in d.fields && d.fields[Utf16(name)] == value
  }

  lemma {:induction false} RecordSays(names: seq<string>, docs: seq<Doc>, i: nat)
    requires |names| == |docs| && Distinct(names) && i < |names|
    ensures Says(DObj(Record(names, docs)), names[i], docs[i])
  {
    hide Utf16;
    if i > 0 {
      RecordSays(names[1..], docs[1..], i - 1);
      RecordKeys(names[1..], docs[1..], names[0]);
    }
  }

  lemma BodySays(m: Message, i: nat)
    requires i < |MemberNames(m)|
    ensures Says(Body(m), MemberNames(m)[i], Members(m)[i])
  {
    hide Record, Utf16, Distinct, Members, MemberNames;
    NamesDistinct(m);
    RecordSays(MemberNames(m), Members(m), i);
  }

  /** A hello on the wire, member by member. */
  lemma HelloIsWritten(m: Message)
    requires m.Hello?
    ensures var d := Body(m);
            Says(d, "type", DStr(Utf16("agent.hello"))) && Says(d, "agent_id", DStr(m.agentId))
            && Says(d, "timestamp", InstantDoc(m.timestamp)) && Says(d, "nonce", DStr(m.nonce))
            && Says(d, "capabilities", DArr(TextDocs(CapabilityTexts(m.capabilities))))
            && Says(d, "agent_version", DStr(m.agentVersion)) && Says(d, "host", HostDoc(m.host))
            && Says(HostDoc(m.host), "hostname", DStr(m.host.hostname)) && Says(HostDoc(m.host), "os", DStr(m.host.os))
            && Says(HostDoc(m.host), "arch", DStr(m.host.arch))
            && Says(HostDoc(m.host), "platform", DStr(m.host.platform))
  {
    hide Record, Utf16, Says, InstantDoc, TextDocs, CapabilityTexts, Body, Distinct;
    BodySays(m, 0);
    BodySays(m, 1);
    BodySays(m, 2);
    BodySays(m, 3);
    BodySays(m, 4);
    BodySays(m, 5);
    BodySays(m, 6);
    HelloNamesDistinct();
    RecordSays(HOST_NAMES, HostMembers(m.host), 0);
    RecordSays(HOST_NAMES, HostMembers(m.host), 1);
    RecordSays(HOST_NAMES, HostMembers(m.host), 2);
    RecordSays(HOST_NAMES, HostMembers(m.host), 3);
  }

  /** A request on the wire. */
  lemma RequestIsWritten(m: Message)
    requires m.Request?
    ensures var d := Body(m);
            Says(d, "type", DStr(Utf16("action.request"))) && Says(d, "action_id", DStr(m.actionId))
            && Says(d, "agent_id", DStr(m.agentId)) && Says(d, "user_id", DStr(m.userId))
            && Says(d, "tool", DStr(Utf16(ToolName(m.tool))))
            && Says(d, "capability", DStr(Utf16(CapabilityName(m.capability)))) && Says(d, "args", DObj(m.args))
            && Says(d, "policy_version", NumberDoc(m.policyVersion)) && Says(d, "issued_at", InstantDoc(m.issuedAt))
            && Says(d, "deadline", InstantDoc(m.deadline)) && Says(d, "nonce", DStr(m.nonce))
  {
    hide Record, Utf16, Says, InstantDoc, NumberDoc, ToolName, CapabilityName, Body;
    BodySays(m, 0);
    BodySays(m, 1);
    BodySays(m, 2);
    BodySays(m, 3);
    BodySays(m, 4);
    BodySays(m, 5);
    BodySays(m, 6);
    BodySays(m, 7);
    BodySays(m, 8);
    BodySays(m, 9);
    BodySays(m, 10);
  }

  /** A result on the wire; what it reports comes besides. */
  lemma ResultIsWritten(m: Message)
    requires m.Result?
    ensures var d := Body(m);
            Says(d, "type", DStr(Utf16("action.result"))) && Says(d, "action_id", DStr(m.actionId))
            && Says(d, "agent_id", DStr(m.agentId)) && Says(d, "nonce", DStr(m.nonce))
            && Says(d, "status", DStr(Utf16(if m.ok then "ok" else "error")))
  {
    hide Record, Utf16, Says, Body;
    BodySays(m, 0);
    BodySays(m, 1);
    BodySays(m, 2);
    BodySays(m, 3);
    BodySays(m, 4);
  }

  /** A policy update on the wire. */
  lemma UpdateIsWritten(m: Message)
    requires m.PolicyUpdate?
    ensures var d := Body(m);
            Says(d, "type", DStr(Utf16("policy.update"))) && Says(d, "agent_id", DStr(m.agentId))
            && Says(d, "policy", PolicyDoc(m.policy)) && Says(d, "policy_version", NumberDoc(m.policyVersion))
            && Says(d, "issued_at", InstantDoc(m.issuedAt)) && Says(d, "nonce", DStr(m.nonce))
  {
    hide Record, Utf16, Says, InstantDoc, NumberDoc, PolicyDoc, Body;
    BodySays(m, 0);
    BodySays(m, 1);
    BodySays(m, 2);
    BodySays(m, 3);
    BodySays(m, 4);
    BodySays(m, 5);
  }

  /** A policy on the wire: nine members, and under `capabilities` a flag for each capability. */
  lemma PolicyIsWritten(p: AgentPolicy, c: Capability)
    ensures var d := PolicyDoc(p);
            Says(d, "profile", DStr(Utf16(ProfileName(p.profile))))
            && Says(d, "allowPaths", DArr(TextDocs(p.allowPaths))) && Says(d, "denyPaths", DArr(TextDocs(p.denyPaths)))
            && Says(d, "allowServices", DArr(TextDocs(p.allowServices)))
            && Says(d, "allowContainers", DArr(TextDocs(p.allowContainers)))
            && Says(d, "maxOutputBytes", NumberDoc(p.maxOutputBytes))
            && Says(d, "maxActionTimeoutSeconds", NumberDoc(p.maxActionTimeoutSeconds))
            && Says(d, "version", NumberDoc(p.version)) && Says(d, "capabilities", CapabilitiesDoc(p.capabilities))
            && Says(CapabilitiesDoc(p.capabilities), CapabilityName(c), DBool(c in p.capabilities))
  {
    hide Record, Utf16, Says, NumberDoc, TextDocs, ProfileName, CapabilitiesDoc, Distinct;
    PolicyNamesDistinct();
    var docs := PolicyMembers(p);
    RecordSays(POLICY_NAMES, docs, 0);
    RecordSays(POLICY_NAMES, docs, 1);
    RecordSays(POLICY_NAMES, docs, 2);
    RecordSays(POLICY_NAMES, docs, 3);
    RecordSays(POLICY_NAMES, docs, 4);
    RecordSays(POLICY_NAMES, docs, 5);
    RecordSays(POLICY_NAMES, docs, 6);
    RecordSays(POLICY_NAMES, docs, 7);
    RecordSays(POLICY_NAMES, docs, 8);
    CapabilityIsWritten(p.capabilities, c);
  }

  lemma CapabilityIsWritten(granted: set<Capability>, c: Capability)
    ensures Says(CapabilitiesDoc(granted), CapabilityName(c), DBool(c in granted))
  {
    hide Record, Utf16, Says, CapabilityName, Distinct, CapabilityNames, Flags;
    EveryCapability(c);
    var i :| 0 <= i < |REMOTE_CAPABILITIES| && REMOTE_CAPABILITIES[i] == c;
    CapabilitiesAreDistinct();
    CapabilityNamesDistinct(REMOTE_CAPABILITIES);
    FlagAt(REMOTE_CAPABILITIES, granted, i);
    RecordSays(CapabilityNames(REMOTE_CAPABILITIES), Flags(REMOTE_CAPABILITIES, granted), i);
  }

  lemma {:induction false} FlagAt(order: seq<Capability>, granted: set<Capability>, i: nat)
    requires i < |order|
    ensures CapabilityNames(order)[i] == CapabilityName(order[i])
    ensures Flags(order, granted)[i] == DBool(order[i] in granted)
  {
    if i > 0 {
      FlagAt(order[1..], granted, i - 1);
    }
  }

  // ---- Schemas ----

  predicate PolicyParses(p: AgentPolicy) {
    1 <= p.maxOutputBytes <= 10_000_000 && 1 <= p.maxActionTimeoutSeconds <= 3600 && p.version >= 1
  }

  predicate HostParses(h: Host) {
    1 <= |h.hostname| <= 255 && 1 <= |h.os| <= 128 && 1 <= |h.arch| <= 64 && 1 <= |h.platform| <= 128
  }

  /** The receiver's schema accepts the message. */
  predicate Parses(m: Message) {
    IsMessage(m) && m.agentId != [] && |m.nonce| >= 16 &&
    match m
    case Hello(_, _, _, _, agentVersion, host) => 1 <= |agentVersion| <= 128 && HostParses(host)
    case Request(actionId, _, userId, _, _, _, policyVersion, _, _, _) =>
      actionId != [] && userId != [] && policyVersion >= 1
    case Result(actionId, _, _, _, _) => actionId != []
    case PolicyUpdate(_, policy, policyVersion, _, _) => PolicyParses(policy) && policyVersion >= 1
  }

  // ---- Signatures ----

  /** A signature that the owner of a key has made over a text. */
  datatype Signed = Signed(key: Text, text: Text, signature: Text)

  /** Every signature made so far. */
  type Ledger = set<Signed>

  const SIGNATURE: Text := Utf16("signature")

  function Unsigned(fields: seq<Field>): seq<Field> {
    if fields == [] then []
    else if fields[0].key == SIGNATURE then Unsigned(fields[1..])
    else [fields[0]] + Unsigned(fields[1..])
  }

  /** The value of the signature member, if it is a string, and otherwise the empty text. */
  function SignatureOf(fields: seq<Field>): Text {
    if fields == [] then []
    else if fields[0].key == SIGNATURE then if fields[0].value.Str? then fields[0].value.s else []
    else SignatureOf(fields[1..])
  }

  function SignEnvelope(key: Text, fields: seq<Field>, signature: Text): Signed {
    Signed(key, Canonical(Obj(Unsigned(fields))), signature)
  }

  predicate VerifyEnvelope(ledger: Ledger, key: Text, fields: seq<Field>) {
    SignatureOf(fields) != [] && Signed(key, Canonical(Obj(Unsigned(fields))), SignatureOf(fields)) in ledger
  }

  /** What is signed is everything but the members named `signature`, in their order. */
  lemma {:induction false} UnsignedIsTheRest(fields: seq<Field>)
    ensures forall f :: f in Unsigned(fields) <==> f in fields && f.key != Utf16("signature")
  {
    hide Utf16;
    if fields != [] {
      UnsignedIsTheRest(fields[1..]);
      assert fields == [fields[0]] + fields[1..];
    }
  }

  lemma {:induction false} UnsignedIsJson(fields: seq<Field>)
    requires IsJson(Obj(fields))
    ensures IsJson(Obj(Unsigned(fields)))
  {
    if fields != [] {
      hide IsJson, Utf16;
      TailIsJson(fields);
      UnsignedIsJson(fields[1..]);
      UnsignedKeeps(fields[1..], fields[0].key);
      if fields[0].key != SIGNATURE {
        ConsIsJson(fields[0], Unsigned(fields[1..]));
      }
    } else {
      assert Unsigned(fields) == fields;
    }
  }

  lemma {:induction false} DenoteUnsigned(fields: seq<Field>)
    requires IsJson(Obj(fields))
    ensures DenoteFields(Unsigned(fields)) == DenoteFields(fields) - {SIGNATURE}
  {
    hide IsJson, Denote, Utf16;
    if fields != [] {
      TailIsJson(fields);
      DenoteUnsigned(fields[1..]);
      DenoteStep(fields[0], fields[1..]);
      assert fields == [fields[0]] + fields[1..];
    }
  }

  lemma DenoteStep(f: Field, fields: seq<Field>)
    requires LacksKey(fields, f.key) && DenoteFields(Unsigned(fields)) == DenoteFields(fields) - {SIGNATURE}
    ensures DenoteFields(Unsigned([f] + fields)) == DenoteFields([f] + fields) - {SIGNATURE}
  {
    hide Denote, Utf16;
    DenoteCons(f, fields);
    assert ([f] + fields)[1..] == fields;
    if f.key != SIGNATURE {
      DenoteCons(f, Unsigned(fields));
    } else {
      NoFurtherKey(fields, SIGNATURE);
    }
  }

  lemma DenoteCons(f: Field, fields: seq<Field>)
    ensures DenoteFields([f] + fields)
         == if f.value.Undefined? then DenoteFields(fields) else DenoteFields(fields)[f.key := Denote(f.value)]
  {
    assert ([f] + fields)[1..] == fields;
  }

  lemma TailIsJson(fields: seq<Field>)
    requires IsJson(Obj(fields)) && fields != []
    ensures IsJson(Obj(fields[1..])) && (fields[0].value.Undefined? || IsJson(fields[0].value))
    ensures LacksKey(fields[1..], fields[0].key)
  {
    assert forall i :: 0 <= i < |fields[1..]| ==> fields[1..][i] == fields[i + 1];
  }

  lemma ConsIsJson(f: Field, fields: seq<Field>)
    requires IsJson(Obj(fields)) && (f.value.Undefined? || IsJson(f.value)) && LacksKey(fields, f.key)
    ensures IsJson(Obj([f] + fields))
  {}

  predicate LacksKey(fields: seq<Field>, key: Text) { forall i :: 0 <= i < |fields| ==> fields[i].key != key }

  lemma {:induction false} UnsignedKeeps(fields: seq<Field>, key: Text)
    requires LacksKey(fields, key)
    ensures LacksKey(Unsigned(fields), key)
  {
    if fields != [] {
      assert LacksKey(fields[1..], key);
      UnsignedKeeps(fields[1..], key);
    }
  }

  lemma {:induction false} SignatureIsDenoted(fields: seq<Field>)
    requires IsJson(Obj(fields))
    ensures SignatureOf(fields) == DocSignature(DenoteFields(fields))
  {
    hide IsJson;
    if fields != [] {
      TailIsJson(fields);
      SignatureIsDenoted(fields[1..]);
      if fields[0].key == SIGNATURE {
        NoFurtherKey(fields[1..], SIGNATURE);
      }
    }
  }

  lemma {:induction false} NoFurtherKey(fields: seq<Field>, key: Text)
    requires LacksKey(fields, key)
    ensures key !in DenoteFields(fields)
  {
    if fields != [] {
      assert LacksKey(fields[1..], key);
      NoFurtherKey(fields[1..], key);
    }
  }

  function DocSignature(fields: map<Text, Doc>): Text {
    if SIGNATURE in fields && fields[SIGNATURE].DStr? then fields[SIGNATURE].s else []
  }

  /** The order of the members and undefined members make no difference to a signature. */
  lemma VerificationSurvivesTransport(ledger: Ledger, key: Text, sent: seq<Field>, rebuilt: seq<Field>)
    requires IsJson(Obj(sent)) && IsJson(Obj(rebuilt)) && Denote(Obj(sent)) == Denote(Obj(rebuilt))
    ensures VerifyEnvelope(ledger, key, sent) <==> VerifyEnvelope(ledger, key, rebuilt)
  {
    hide Canonical, IsJson;
    UnsignedIsJson(sent);
    UnsignedIsJson(rebuilt);
    DenoteUnsigned(sent);
    DenoteUnsigned(rebuilt);
    CanonicalIsInjective(Obj(Unsigned(sent)), Obj(Unsigned(rebuilt)));
    SignatureIsDenoted(sent);
    SignatureIsDenoted(rebuilt);
  }

  /** Signing and verifying fit together: an envelope that carries the signature made over it verifies, also when it
      arrives with its members in another order. */
  lemma SignedEnvelopeVerifies(
    ledger: Ledger, key: Text, sent: seq<Field>, rebuilt: seq<Field>, signature: Text)
    requires IsJson(Obj(sent)) && IsJson(Obj(rebuilt)) && Denote(Obj(sent)) == Denote(Obj(rebuilt))
    requires SignatureOf(sent) == signature != []
    ensures VerifyEnvelope(ledger + {SignEnvelope(key, sent, signature)}, key, rebuilt)
  {
    hide Canonical, IsJson, Unsigned;
    VerificationSurvivesTransport(ledger + {SignEnvelope(key, sent, signature)}, key, sent, rebuilt);
  }

  /** An envelope that verifies was signed with this content: if the only signatures in the ledger made with the
      key are over envelopes in `signed`, then the envelope denotes one of these, signature apart. */
  lemma VerificationBindsContent(ledger: Ledger, key: Text, fields: seq<Field>, signed: set<seq<Field>>)
    requires IsJson(Obj(fields)) && VerifyEnvelope(ledger, key, fields)
    requires forall s :: s in signed ==> IsJson(Obj(s))
    requires forall e :: e in ledger && e.key == key ==>
               exists s :: s in signed && e.text == Canonical(Obj(Unsigned(s)))
    ensures exists s :: s in signed && DenoteFields(s) - {SIGNATURE} == DenoteFields(fields) - {SIGNATURE}
  {
    hide Canonical, IsJson, DenoteFields, Unsigned, SignatureOf;
    var entry := Signed(key, Canonical(Obj(Unsigned(fields))), SignatureOf(fields));
    var s :| s in signed && entry.text == Canonical(Obj(Unsigned(s)));
    UnsignedIsJson(fields);
    UnsignedIsJson(s);
    DenoteUnsigned(fields);
    DenoteUnsigned(s);
    CanonicalIsInjective(Obj(Unsigned(fields)), Obj(Unsigned(s)));
  }

  // ---- Signed messages ----

  /** A message with the signature that came with it. */
  datatype Sealed = Sealed(message: Message, signature: Text)

  /** Checks a signature: the key, then the message with the signature that came with it. */
  type Verifier = (Text, Sealed) -> bool

  /** The text that is signed for a message. */
  ghost function SignedText(m: Message): Text { Print(Body(m)) }

  ghost predicate Verifies(ledger: Ledger, key: Text, sealed: Sealed) {
    sealed.signature != [] && Signed(key, SignedText(sealed.message), sealed.signature) in ledger
  }

  /** For an envelope that reads as the message, the two notions of verification are one. */
  lemma VerifiesAsEnvelope(ledger: Ledger, key: Text, sealed: Sealed, fields: seq<Field>)
    requires IsMessage(sealed.message) && IsJson(Obj(fields))
    requires DenoteFields(fields) == (Rest(sealed.message) + Fixed(sealed.message))[SIGNATURE := DStr(sealed.signature)]
    requires SIGNATURE !in Rest(sealed.message) + Fixed(sealed.message)
    ensures VerifyEnvelope(ledger, key, fields) <==> Verifies(ledger, key, sealed)
  {
    hide Canonical, IsJson, DenoteFields, Unsigned, SignatureOf, Fixed, Rest, Print;
    var body := Rest(sealed.message) + Fixed(sealed.message);
    UnsignedIsJson(fields);
    DenoteUnsigned(fields);
    assert DenoteFields(fields) - {SIGNATURE} == body;
    CanonicalIsPrint(Obj(Unsigned(fields)));
    SignatureIsDenoted(fields);
  }

  /** Two messages with the same signed text are the same message. */
  lemma SignedTextDeterminesMessage(a: Message, b: Message)
    requires IsMessage(a) && IsMessage(b) && SignedText(a) == SignedText(b)
    ensures a == b
  {
    hide Body, Print, IsMessage, IsDoc;
    BodyIsDoc(a);
    BodyIsDoc(b);
    PrintIsInjective(Body(a), Body(b));
    BodyInjective(a, b);
  }
}
