/**
 The signed agent bus: payload sanitising over arbitrarily nested values, the send gates and
 the receive checks. Normalisation, pattern substitution and signing are
 deterministic functions; the theorems hold for all of them.
 */
module Sanitizing {

  datatype Value =
    | Str(text: string)
    | Dict(entries: seq<Entry>)
    | List(items: seq<Value>)
    | Other(repr: string, truthy: bool)
  datatype Entry = Entry(key: string, value: Value)

  const MARKER := "USER_DATA_TO_PROCESS"

  /** The characters str.strip removes. */
  predicate IsSpace(c: char) {
    var n := c as int;
    9 <= n <= 13 || 28 <= n <= 32 || n == 0x85 || n == 0xA0 || n == 0x1680 || 0x2000 <= n <= 0x200A
    || n == 0x2028 || n == 0x2029 || n == 0x202F || n == 0x205F || n == 0x3000
  }

  function LStrip(s: string): string {
    if s != "" && IsSpace(s[0]) then LStrip(s[1..]) else s
  }

  function RStrip(s: string): string {
    if s != "" && IsSpace(s[|s| - 1]) then RStrip(s[..|s| - 1]) else s
  }

  predicate Marked(s: string) {
    MARKER <= RStrip(LStrip(s))
  }

  lemma {:induction false} RStripKeeps(a: string, b: string)
    requires a != "" && !IsSpace(a[|a| - 1])
    ensures a <= RStrip(a + b)
  {
    if b == "" {
      assert a + b == a;
    } else {
      RStripKeeps(a, b[..|b| - 1]);
      assert (a + b)[..|a + b| - 1] == a + b[..|b| - 1];
    }
  }

  lemma MarkerPrefixIsMarked(rest: string)
    ensures Marked(MARKER + rest)
  {
    assert (MARKER + rest)[0] == 'U';
    assert LStrip(MARKER + rest) == MARKER + rest;
    RStripKeeps(MARKER, rest);
  }

  lemma {:induction false} LStripDrops(s: string, i: nat)
    requires i <= |s| && (forall k :: 0 <= k < i ==> IsSpace(s[k])) && (i < |s| ==> !IsSpace(s[i]))
    ensures LStrip(s) == s[i..]
  {
    if i > 0 {
      LStripDrops(s[1..], i - 1);
    }
  }

  lemma {:induction false} RStripPrefix(s: string)
    ensures RStrip(s) <= s
  {
    if s != "" && IsSpace(s[|s| - 1]) { RStripPrefix(s[..|s| - 1]); }
  }

  /** Position `i` of `s` is the first that is not whitespace, and the marker stands there. */
  ghost predicate MarkerAt(s: string, i: nat) {
    && (forall k :: 0 <= k < i < |s| ==> IsSpace(s[k]))
    && i + |"USER_DATA_TO_PROCESS"| <= |s| && s[i..i + |"USER_DATA_TO_PROCESS"|] == "USER_DATA_TO_PROCESS"
  }

  /** Text is marked exactly when the marker follows its leading whitespace. */
  lemma MarkedIff(s: string)
    ensures Marked(s) <==> exists i: nat :: MarkerAt(s, i)
  {
    if i: nat :| MarkerAt(s, i) {
      assert s[i] == 'U';
      LStripDrops(s, i);
      assert s[i..] == MARKER + s[i + |MARKER|..];
      RStripKeeps(MARKER, s[i + |MARKER|..]);
    }
    if Marked(s) {
      RStripPrefix(LStrip(s));
      var i := FirstNonSpace(s);
      LStripDrops(s, i);
      assert MARKER <= s[i..];
      assert MarkerAt(s, i);
    }
  }

  ghost function FirstNonSpace(s: string): (i: nat)
    ensures i <= |s| && (forall k :: 0 <= k < i ==> IsSpace(s[k])) && (i < |s| ==> !IsSpace(s[i]))
  {
    if s == "" || !IsSpace(s[0]) then 0 else FirstNonSpace(s[1..]) + 1
  }

  /** What the sanitiser does to unmarked text before wrapping it. */
  datatype Filters = Filters(normalize: string -> string, maxLength: nat, patterns: seq<string -> string>)

  function Substitute(patterns: seq<string -> string>, body: string): string {
    if patterns == [] then body
    else patterns[|patterns| - 1](Substitute(patterns[..|patterns| - 1], body))
  }

  function WrapUserData(content: string, source: string): string {
    MARKER + " [source=" + source + "]:\n<untrusted_data source=\"" + source + "\">\n" + content + "\n</untrusted_data>"
  }

  function WrapUntrusted(content: string, source: string): string {
    if Marked(content) then content else WrapUserData(content, source)
  }

  function Clip(body: string, maxLength: nat): string {
    if |body| > maxLength then body[..maxLength] else body
  }

  function FilteredText(f: Filters, content: string, source: string): string {
    if Marked(content) then content
    else WrapUntrusted(Substitute(f.patterns, Clip(f.normalize(content), f.maxLength)), source)
  }

  /** `steps` is the text before the patterns and after each of them. */
  method FilterUntrusted(f: Filters, content: string, source: string) returns (r: string, ghost steps: seq<string>)
    ensures r == FilteredText(f, content, source)
    ensures Marked(content) ==> r == content
    ensures !Marked(content) ==>
      && |steps| == |f.patterns| + 1
      && steps[0] <= f.normalize(content)
      && |steps[0]| == (if |f.normalize(content)| > f.maxLength then f.maxLength else |f.normalize(content)|)
      && (forall i, k :: 0 <= i < |f.patterns| && k == i + 1 ==> steps[k] == f.patterns[i](steps[i]))
      && var body := steps[|f.patterns|];
         r == if Marked(body) then body
              else "USER_DATA_TO_PROCESS" + " [source=" + source + "]:\n<untrusted_data source=\"" + source + "\">\n"
                   + body + "\n</untrusted_data>"
  {
    steps := [];
    if Marked(content) { return content, []; }
    var body := f.normalize(content);
    if |body| > f.maxLength {
      body := body[..f.maxLength];
    }
    ghost var clipped := body;
    steps := [body];
    for i := 0 to |f.patterns|
      invariant body == Substitute(f.patterns[..i], Clip(f.normalize(content), f.maxLength))
      invariant |steps| == i + 1 && steps[0] == clipped && steps[i] == body
      invariant forall j, k :: 0 <= j < i && k == j + 1 ==> steps[k] == f.patterns[j](steps[j])
    {
      assert f.patterns[..i + 1][..i] == f.patterns[..i];
      body := f.patterns[i](body);
      steps := steps + [body];
    }
    assert f.patterns[..|f.patterns|] == f.patterns;
    r := WrapUntrusted(body, source);
  }

  /** Filtered text is marked, and only unmarked text is changed. */
  lemma FilteredIsMarked(f: Filters, content: string, source: string)
    ensures Marked(FilteredText(f, content, source))
    ensures FilteredText(f, content, source) == content <==> Marked(content)
  {
    var body := Substitute(f.patterns, Clip(f.normalize(content), f.maxLength));
    var rest := " [source=" + source + "]:\n<untrusted_data source=\"" + source +
              "\">\n" + body + "\n</untrusted_data>";
    MarkerPrefixIsMarked(rest);
    assert WrapUserData(body, source) == MARKER + rest;
  }

  const SYSTEM_PREFIX := "_system"

  /** `dropSystem` holds for senders below PRIVILEGED. */
  function SanitizeDict(entries: seq<Entry>, dropSystem: bool, f: Filters): seq<Entry> {
    if entries == [] then []
    else
      var rest := SanitizeDict(entries[1..], dropSystem, f);
      if dropSystem && SYSTEM_PREFIX <= entries[0].key then rest
      else [Entry(entries[0].key, SanitizeValue(entries[0].value, dropSystem, f))] + rest
  }

  function SanitizeValue(value: Value, dropSystem: bool, f: Filters): Value {
    match value
    case Str(text) => Str(FilteredText(f, text, "agent_bus"))
    case Dict(entries) => Dict(SanitizeDict(entries, dropSystem, f))
    case List(items) => List(SanitizeItems(items, f))
    case Other(_, _) => value
  }

  /** Only the strings directly in a list are filtered. */
  function SanitizeItems(items: seq<Value>, f: Filters): (r: seq<Value>)
    ensures |r| == |items|
    ensures forall i :: 0 <= i < |items| ==>
      r[i] == if items[i].Str? then Str(FilteredText(f, items[i].text, "agent_bus")) else items[i]
  {
    if items == [] then []
    else
      var first := if items[0].Str? then Str(FilteredText(f, items[0].text, "agent_bus")) else items[0];
      [first] + SanitizeItems(items[1..], f)
  }

  // ---------------------------------------------------------------------------------------
  // Independent description of a clean payload

  ghost predicate CleanItems(items: seq<Value>) {
    forall i :: 0 <= i < |items| && items[i].Str? ==> Marked(items[i].text)
  }

  ghost predicate CleanValue(value: Value, dropSystem: bool) {
    match value
    case Str(text) => Marked(text)
    case Dict(entries) => CleanDict(entries, dropSystem)
    case List(items) => CleanItems(items)
    case Other(_, _) => true
  }

  ghost predicate CleanDict(entries: seq<Entry>, dropSystem: bool) {
    forall i :: 0 <= i < |entries| ==>
      !(dropSystem && SYSTEM_PREFIX <= entries[i].key) && CleanValue(entries[i].value, dropSystem)
  }

  lemma ItemsClean(items: seq<Value>, f: Filters)
    ensures CleanItems(SanitizeItems(items, f))
    ensures SanitizeItems(items, f) == items <==> CleanItems(items)
  {
    forall i | 0 <= i < |items| && items[i].Str?
      ensures Marked(FilteredText(f, items[i].text, "agent_bus"))
      ensures FilteredText(f, items[i].text, "agent_bus") == items[i].text <==> Marked(items[i].text)
    {
      FilteredIsMarked(f, items[i].text, "agent_bus");
    }
    if SanitizeItems(items, f) == items {
      forall i | 0 <= i < |items| && items[i].Str? ensures Marked(items[i].text) {
        assert SanitizeItems(items, f)[i] == items[i];
      }
    }
  }

  lemma {:induction false} ValueClean(value: Value, dropSystem: bool, f: Filters)
    ensures CleanValue(SanitizeValue(value, dropSystem, f), dropSystem)
    decreases value, 0
  {
    match value
    case Str(text) => FilteredIsMarked(f, text, "agent_bus");
    case Dict(entries) => DictClean(entries, dropSystem, f);
    case List(items) => ItemsClean(items, f);
    case Other(_, _) =>
  }

  /** Sanitised payloads are clean at every depth. */
  lemma {:induction false} DictClean(entries: seq<Entry>, dropSystem: bool, f: Filters)
    ensures CleanDict(SanitizeDict(entries, dropSystem, f), dropSystem)
    decreases entries, 1
  {
    if entries != [] {
      ValueClean(entries[0].value, dropSystem, f);
      DictClean(entries[1..], dropSystem, f);
    }
  }

  lemma {:induction false} CleanValueFixed(value: Value, dropSystem: bool, f: Filters)
    requires CleanValue(value, dropSystem)
    ensures SanitizeValue(value, dropSystem, f) == value
    decreases value, 0
  {
    match value
    case Str(text) => FilteredIsMarked(f, text, "agent_bus");
    case Dict(entries) => CleanDictFixed(entries, dropSystem, f);
    case List(items) => ItemsClean(items, f);
    case Other(_, _) =>
  }

  lemma {:induction false} CleanDictFixed(entries: seq<Entry>, dropSystem: bool, f: Filters)
    requires CleanDict(entries, dropSystem)
    ensures SanitizeDict(entries, dropSystem, f) == entries
    decreases entries, 1
  {
    if entries != [] {
      CleanValueFixed(entries[0].value, dropSystem, f);
      CleanDictFixed(entries[1..], dropSystem, f);
      assert entries == [entries[0]] + entries[1..];
    }
  }

  /** The payloads that sanitising leaves alone are exactly the clean ones. */
  lemma FixedIffClean(entries: seq<Entry>, dropSystem: bool, f: Filters)
    ensures SanitizeDict(entries, dropSystem, f) == entries <==> CleanDict(entries, dropSystem)
  {
    DictClean(entries, dropSystem, f);
    if CleanDict(entries, dropSystem) { CleanDictFixed(entries, dropSystem, f); }
  }

  lemma SanitizeIdempotent(entries: seq<Entry>, dropSystem: bool, f: Filters)
    ensures SanitizeDict(SanitizeDict(entries, dropSystem, f), dropSystem, f) == SanitizeDict(entries, dropSystem, f)
  {
    DictClean(entries, dropSystem, f);
    FixedIffClean(SanitizeDict(entries, dropSystem, f), dropSystem, f);
  }

  /** The entry reached by following `path` through nested dicts, if there is one. */
  ghost predicate Reaches(entries: seq<Entry>, path: seq<nat>, e: Entry) {
    path != [] && path[0] < |entries| &&
    if |path| == 1 then entries[path[0]] == e
    else entries[path[0]].value.Dict? && Reaches(entries[path[0]].value.entries, path[1..], e)
  }

  lemma {:induction false} CleanAlongPath(entries: seq<Entry>, dropSystem: bool, path: seq<nat>, e: Entry)
    requires CleanDict(entries, dropSystem) && Reaches(entries, path, e)
    ensures !(dropSystem && SYSTEM_PREFIX <= e.key)
    ensures e.value.Str? ==> Marked(e.value.text)
    ensures e.value.List? ==> CleanItems(e.value.items)
    decreases |path|
  {
    if |path| > 1 { CleanAlongPath(entries[path[0]].value.entries, dropSystem, path[1..], e); }
  }

  /**
   At any depth reached through dicts, no `_system` key survives for a sender below PRIVILEGED, and
   every string, as a value or directly in a list, is marked.
   */
  lemma SanitizedAtEveryDepth(entries: seq<Entry>, dropSystem: bool, f: Filters, path: seq<nat>, e: Entry)
    requires Reaches(SanitizeDict(entries, dropSystem, f), path, e)
    ensures !(dropSystem && SYSTEM_PREFIX <= e.key)
    ensures e.value.Str? ==> Marked(e.value.text)
    ensures e.value.List? ==> CleanItems(e.value.items)
  {
    DictClean(entries, dropSystem, f);
    CleanAlongPath(SanitizeDict(entries, dropSystem, f), dropSystem, path, e);
  }

  /** The entries whose keys the sender may use. */
  function Kept(entries: seq<Entry>, dropSystem: bool): seq<Entry> {
    if entries == [] then []
    else if dropSystem && SYSTEM_PREFIX <= entries[0].key then Kept(entries[1..], dropSystem)
    else [entries[0]] + Kept(entries[1..], dropSystem)
  }

  /** Each entry is kept or dropped by itself, and the order stays. */
  lemma {:induction false} KeptEntryByEntry(a: seq<Entry>, e: Entry, b: seq<Entry>, dropSystem: bool)
    ensures Kept(a + [e] + b, dropSystem) ==
      Kept(a, dropSystem) + (if dropSystem && "_system" <= e.key then [] else [e]) + Kept(b, dropSystem)
    ensures Kept([], dropSystem) == []
  {
    if a == [] {
      assert a + [e] + b == [e] + b && ([e] + b)[1..] == b;
    } else {
      assert (a + [e] + b)[1..] == a[1..] + [e] + b;
      KeptEntryByEntry(a[1..], e, b, dropSystem);
    }
  }

  /**
   Nothing but forbidden keys is dropped; what is kept stays in place under its own key, strings filtered,
   dicts sanitised alike, lists with their strings filtered, anything else untouched.
   */
  lemma {:induction false} NothingElseDropped(entries: seq<Entry>, dropSystem: bool, f: Filters)
    ensures var kept, r := Kept(entries, dropSystem), SanitizeDict(entries, dropSystem, f);
      && |r| == |kept|
      && (forall i :: 0 <= i < |r| ==> r[i].key == kept[i].key)
      && (forall i :: 0 <= i < |r| && kept[i].value.Str? ==>
            r[i].value == Str(FilteredText(f, kept[i].value.text, "agent_bus")))
      && (forall i :: 0 <= i < |r| && kept[i].value.Dict? ==>
            r[i].value == Dict(SanitizeDict(kept[i].value.entries, dropSystem, f)))
      && (forall i :: 0 <= i < |r| && kept[i].value.List? ==>
            r[i].value.List? && ItemsFiltered(kept[i].value.items, r[i].value.items, f))
      && (forall i :: 0 <= i < |r| && kept[i].value.Other? ==> r[i].value == kept[i].value)
  {
    if entries != [] { NothingElseDropped(entries[1..], dropSystem, f); }
  }

  /** The strings of a list are filtered, its other items untouched. */
  ghost predicate ItemsFiltered(before: seq<Value>, after: seq<Value>, f: Filters) {
    && |after| == |before|
    && forall i :: 0 <= i < |before| ==>
         after[i] == if before[i].Str? then Str(FilteredText(f, before[i].text, "agent_bus")) else before[i]
  }
}

module AgentBus {
  import opened Common
  import opened Sanitizing
  import opened Breakers

  datatype TrustLevel = UNTRUSTED | INTERNAL | PRIVILEGED | SYSTEM

  function Rank(level: TrustLevel): int {
    match level case UNTRUSTED => 0 case INTERNAL => 1 case PRIVILEGED => 2 case SYSTEM => 3
  }

  function AllowedTypes(level: TrustLevel): seq<string> {
    if Rank(level) <= 0 then ["finding"]
    else if Rank(level) >= 2 then ["finding", "escalation", "control", "report"]
    else ["finding", "escalation"]
  }

  datatype AgentInfo = AgentInfo(trustLevel: TrustLevel, allowedRecipients: seq<string>)

  datatype Message = Message(
    protocol: string,
    sender: string,
    recipient: string,
    messageType: string,
    payload: seq<Entry>,
    timestamp: real,
    signature: string,
    mtlsRecipientSubject: string)

  datatype Refusal =
    | UnknownSender | BreakerOpen | RecipientNotAllowed | TypeNotAllowed | EscalationBlocked
    | WrongProtocol | RecipientMismatch | BadSignature | Expired | SubjectMismatch
  datatype Outcome<T> = Ok(value: T) | Refused(why: Refusal)

  /** Everything about a bus that no message changes. */
  datatype Config = Config(
    sign: (string, string, string, seq<Entry>, real) -> string,
    filters: Filters,
    escalationPaths: set<(string, string)>,
    breakerPolicy: Policy)

  function Subject(agentId: string): string {
    "spiffe://cys-agi/agent/" + agentId
  }

  const PROTOCOL := "a2a/1.0"
  const MAX_AGE := 300.0

  function Truthy(value: Value): bool {
    match value
    case Str(text) => text != ""
    case Dict(entries) => entries != []
    case List(items) => items != []
    case Other(_, truthy) => truthy
  }

  predicate CriticApproved(payload: seq<Entry>) {
    exists i :: 0 <= i < |payload| && payload[i].key == "critic_approved" && Truthy(payload[i].value)
  }

  function Stamp(config: Config, info: AgentInfo, sender: string, recipient: string, messageType: string,
                 payload: seq<Entry>, now: real): Message {
    var clean := SanitizeDict(payload, Rank(info.trustLevel) < Rank(PRIVILEGED), config.filters);
    Message(PROTOCOL, sender, recipient, messageType, clean, now,
            config.sign(sender, recipient, messageType, clean, now), Subject(recipient))
  }

  /** The stamped message, field by field. */
  lemma Stamped(config: Config, info: AgentInfo, sender: string, recipient: string, messageType: string,
                payload: seq<Entry>, now: real)
    ensures var clean := SanitizeDict(payload, info.trustLevel == UNTRUSTED || info.trustLevel == INTERNAL,
                                      config.filters);
            Stamp(config, info, sender, recipient, messageType, payload, now) ==
              Message("a2a/1.0", sender, recipient, messageType, clean, now,
                      config.sign(sender, recipient, messageType, clean, now), "spiffe://cys-agi/agent/" + recipient)
  {
  }

  /** The first gate that refuses, in the order the bus checks them. */
  function Gate(config: Config, registry: map<string, AgentInfo>, breakerOpen: bool,
                sender: string, recipient: string, messageType: string, payload: seq<Entry>): Option<Refusal> {
    if sender !in registry then Some(UnknownSender)
    else if breakerOpen then Some(BreakerOpen)
    else if recipient !in registry[sender].allowedRecipients then Some(RecipientNotAllowed)
    else if messageType !in AllowedTypes(registry[sender].trustLevel) then Some(TypeNotAllowed)
    else if (sender, recipient) in config.escalationPaths &&
            (messageType != "escalation" || !CriticApproved(payload)) then
      Some(EscalationBlocked)
    else None
  }

  /** The type is one the trust level may send. */
  predicate MayType(level: TrustLevel, messageType: string) {
    match level
    case UNTRUSTED => messageType == "finding"
    case INTERNAL => messageType == "finding" || messageType == "escalation"
    case PRIVILEGED => messageType in ["finding", "escalation", "control", "report"]
    case SYSTEM => messageType in ["finding", "escalation", "control", "report"]
  }

  /** The payload says the critic approved: the entry is there, and is neither empty nor otherwise false. */
  predicate SaysApproved(payload: seq<Entry>) {
    exists i :: 0 <= i < |payload| && payload[i].key == "critic_approved"
      && payload[i].value != Str("") && payload[i].value != Dict([]) && payload[i].value != List([])
      && (payload[i].value.Other? ==> payload[i].value.truthy)
  }

  lemma ApprovedIff(payload: seq<Entry>)
    ensures CriticApproved(payload) <==> SaysApproved(payload)
  {
    if i :| 0 <= i < |payload| && payload[i].key == "critic_approved" && Truthy(payload[i].value) {
      assert payload[i].key == "critic_approved";
    }
  }

  /** Which gate refuses a message of a registered sender. */
  lemma GateRefuses(config: Config, registry: map<string, AgentInfo>, open: bool, sender: string, recipient: string,
                    messageType: string, payload: seq<Entry>)
    requires sender in registry
    ensures var why := Gate(config, registry, open, sender, recipient, messageType, payload);
            var permitted := recipient in registry[sender].allowedRecipients;
            var typed := MayType(registry[sender].trustLevel, messageType);
            var approved := (sender, recipient) in config.escalationPaths ==>
              messageType == "escalation" && SaysApproved(payload);
            && (why == Some(BreakerOpen) <==> open)
            && (why == Some(RecipientNotAllowed) <==> !open && !permitted)
            && (why == Some(TypeNotAllowed) <==> !open && permitted && !typed)
            && (why == Some(EscalationBlocked) <==> !open && permitted && typed && !approved)
            && (why == None <==> !open && permitted && typed && approved)
            && why != Some(UnknownSender)
  {
    ApprovedIff(payload);
  }

  /** Exactly which messages pass the gates. On an escalation path nothing does but a critic-approved escalation. */
  lemma GatePassesIff(config: Config, registry: map<string, AgentInfo>, open: bool, sender: string, recipient: string,
                      messageType: string, payload: seq<Entry>)
    ensures Gate(config, registry, open, sender, recipient, messageType, payload).None? <==>
      && sender in registry && !open && recipient in registry[sender].allowedRecipients
      && MayType(registry[sender].trustLevel, messageType)
      && ((sender, recipient) in config.escalationPaths ==> messageType == "escalation" && SaysApproved(payload))
  {
    if sender in registry { GateRefuses(config, registry, open, sender, recipient, messageType, payload); }
  }

  function Receive(config: Config, recipient: string, m: Message, now: real): Outcome<seq<Entry>> {
    if m.protocol != PROTOCOL then Refused(WrongProtocol)
    else if m.recipient != recipient then Refused(RecipientMismatch)
    else if m.signature != config.sign(m.sender, m.recipient, m.messageType, m.payload, m.timestamp)
      then Refused(BadSignature)
    else if now - m.timestamp > MAX_AGE then Refused(Expired)
    else if m.mtlsRecipientSubject != Subject(recipient) then Refused(SubjectMismatch)
    else Ok(m.payload)
  }

  /**
   A sent message is accepted exactly by its recipient within five minutes. What is delivered is the
   sanitised payload, which sanitising again, as a relay of the same trust would, leaves alone.
   */
  lemma SendReceiveRoundTrip(config: Config, info: AgentInfo, sender: string, recipient: string, messageType: string,
                             payload: seq<Entry>, sentAt: real, reader: string, now: real)
    ensures var m := Stamp(config, info, sender, recipient, messageType, payload, sentAt);
            var drop := info.trustLevel == UNTRUSTED || info.trustLevel == INTERNAL;
            var r := Receive(config, reader, m, now);
            && (r.Ok? <==> reader == recipient && now - sentAt <= 300.0)
            && (r.Ok? ==> r.value == SanitizeDict(payload, drop, config.filters))
            && (r.Ok? ==> SanitizeDict(r.value, drop, config.filters) == r.value && CleanDict(r.value, drop))
  {
    var drop := Rank(info.trustLevel) < Rank(PRIVILEGED);
    DictClean(payload, drop, config.filters);
    SanitizeIdempotent(payload, drop, config.filters);
  }

  /** Which check refuses a message; one that no check refuses is delivered. */
  lemma ReceivedIff(config: Config, reader: string, m: Message, now: real)
    ensures var r := Receive(config, reader, m, now);
            var authentic := m.protocol == "a2a/1.0" && m.recipient == reader && m.signature == SignatureOf(config, m);
            var addressed := m.mtlsRecipientSubject == "spiffe://cys-agi/agent/" + reader;
            && (r == Refused(WrongProtocol) <==> m.protocol != "a2a/1.0")
            && (r == Refused(RecipientMismatch) <==> m.protocol == "a2a/1.0" && m.recipient != reader)
            && (r == Refused(BadSignature) <==>
                  m.protocol == "a2a/1.0" && m.recipient == reader && m.signature != SignatureOf(config, m))
            && (r == Refused(Expired) <==> authentic && now - m.timestamp > 300.0)
            && (r == Refused(SubjectMismatch) <==> authentic && now - m.timestamp <= 300.0 && !addressed)
            && (r == Ok(m.payload) <==> authentic && now - m.timestamp <= 300.0 && addressed)
  {
  }

  /** What signing covers. */
  predicate SameContent(a: Message, b: Message) {
    && a.sender == b.sender && a.recipient == b.recipient && a.messageType == b.messageType
    && a.payload == b.payload && a.timestamp == b.timestamp
  }

  function SignatureOf(config: Config, m: Message): string {
    config.sign(m.sender, m.recipient, m.messageType, m.payload, m.timestamp)
  }

  /** Two contents with one signature. */
  ghost predicate Collision(config: Config, a: Message, b: Message) {
    !SameContent(a, b) && SignatureOf(config, a) == SignatureOf(config, b)
  }

  /**
   An accepted message that carries the signature of a sent one is that very message, read by its own recipient
   within five minutes, unless signing collides: altering any field gets it refused.
   */
  lemma AcceptedIsWhatWasSent(config: Config, info: AgentInfo, sender: string, recipient: string, messageType: string,
                              payload: seq<Entry>, sentAt: real, m: Message, reader: string, now: real)
    requires var sent := Stamp(config, info, sender, recipient, messageType, payload, sentAt);
             m.signature == sent.signature && !Collision(config, m, sent)
    ensures var sent := Stamp(config, info, sender, recipient, messageType, payload, sentAt);
            Receive(config, reader, m, now).Ok? <==> m == sent && reader == recipient && now - sentAt <= 300.0
  {
    SendReceiveRoundTrip(config, info, sender, recipient, messageType, payload, sentAt, reader, now);
  }

  /** An agent whose newest failures, as many as the threshold, are all recent cannot send, whoever asked before. */
  lemma FailingAgentCannotSend(config: Config, registry: map<string, AgentInfo>, events: seq<Event>, now: real,
                               sender: string, recipient: string, messageType: string, payload: seq<Entry>)
    requires sender in registry && config.breakerPolicy.failureThreshold >= 1 && MonotoneTo(events, now)
    requires AllRecent(Failures(events), config.breakerPolicy.failureThreshold, config.breakerPolicy, now)
    ensures Gate(config, registry, Open(After(config.breakerPolicy, events), config.breakerPolicy, now),
                 sender, recipient, messageType, payload) == Some(BreakerOpen)
  {
    RecentFailuresBlock(config.breakerPolicy, events, now);
  }

  class SecureAgentBus {
    const config: Config
    var registry: map<string, AgentInfo>
    var breakers: map<string, CircuitBreaker>
    var securityEvents: seq<Refusal>

    ghost predicate Valid()
      reads this, breakers.Values
    {
      && registry.Keys == breakers.Keys
      && (forall a :: a in breakers ==> breakers[a].Valid() && breakers[a].policy == config.breakerPolicy)
      && (forall a, b :: a in breakers && b in breakers && a != b ==> breakers[a] != breakers[b])
    }

    constructor (config: Config)
      ensures Valid() && registry == map[] && this.config == config && securityEvents == []
    {
      this.config := config;
      registry, breakers, securityEvents := map[], map[], [];
    }

    method RegisterAgent(agentId: string, trustLevel: TrustLevel, allowedRecipients: seq<string>)
      requires Valid()
      modifies this
      ensures Valid()
      ensures registry == old(registry)[agentId := AgentInfo(trustLevel, allowedRecipients)]
      ensures securityEvents == old(securityEvents)
      ensures breakers.Keys == old(breakers.Keys) + {agentId}
      ensures fresh(breakers[agentId]) && breakers[agentId].events == []
      ensures forall a :: a in old(breakers) && a != agentId ==> breakers[a] == old(breakers[a])
    {
      var breaker := new CircuitBreaker(config.breakerPolicy);
      registry := registry[agentId := AgentInfo(trustLevel, allowedRecipients)];
      breakers := breakers[agentId := breaker];
    }

    method RecordAgentFailure(agentId: string, now: real)
      requires Valid()
      modifies breakers.Values
      ensures Valid() && registry == old(registry) && breakers == old(breakers)
      ensures agentId in breakers ==> breakers[agentId].events == old(breakers[agentId].events) + [Failure(now)]
      ensures forall a :: a in breakers && a != agentId ==> breakers[a].events == old(breakers[a].events)
    {
      if agentId in breakers {
        breakers[agentId].RecordFailure(now);
      }
    }

    method SendMessage(sender: string, recipient: string, messageType: string, payload: seq<Entry>, now: real)
      returns (r: Outcome<Message>)
      requires Valid()
      modifies this`securityEvents, breakers.Values
      ensures Valid() && registry == old(registry) && breakers == old(breakers)
      ensures securityEvents == old(securityEvents) +
        if r.Refused? && (r.why == RecipientNotAllowed || r.why == EscalationBlocked) then [r.why] else []
      ensures var open := sender in registry &&
                          Open(After(config.breakerPolicy, old(breakers[sender].events)), config.breakerPolicy, now);
              var refusal := Gate(config, registry, open, sender, recipient, messageType, payload);
              r == if refusal.Some? then Refused(refusal.value)
                   else Ok(Stamp(config, registry[sender], sender, recipient, messageType, payload, now))
      ensures r == Refused(UnknownSender) <==> sender !in registry
      ensures sender in registry ==>
        var open := Open(After(config.breakerPolicy, old(breakers[sender].events)), config.breakerPolicy, now);
        var permitted := recipient in registry[sender].allowedRecipients;
        var typed := MayType(registry[sender].trustLevel, messageType);
        var approved := (sender, recipient) in config.escalationPaths ==>
          messageType == "escalation" && SaysApproved(payload);
        && (r == Refused(BreakerOpen) <==> open)
        && (r == Refused(RecipientNotAllowed) <==> !open && !permitted)
        && (r == Refused(TypeNotAllowed) <==> !open && permitted && !typed)
        && (r == Refused(EscalationBlocked) <==> !open && permitted && typed && !approved)
        && (r.Ok? <==> !open && permitted && typed && approved)
      ensures r.Ok? && sender in registry ==>
        var trust := registry[sender].trustLevel;
        var clean := SanitizeDict(payload, trust == UNTRUSTED || trust == INTERNAL, config.filters);
        r.value == Message("a2a/1.0", sender, recipient, messageType, clean, now,
                           config.sign(sender, recipient, messageType, clean, now),
                           "spiffe://cys-agi/agent/" + recipient)
      ensures sender in breakers ==> breakers[sender].events == old(breakers[sender].events) + [Query(now)]
      ensures forall a :: a in breakers && a != sender ==> breakers[a].events == old(breakers[a].events)
    {
      if sender !in registry {
        return Refused(UnknownSender);
      }
      var info := registry[sender];
      var open := breakers[sender].IsOpen(now);
      GateRefuses(config, registry, open, sender, recipient, messageType, payload);
      if open {
        return Refused(BreakerOpen);
      }
      if recipient !in info.allowedRecipients {
        securityEvents := securityEvents + [RecipientNotAllowed];
        return Refused(RecipientNotAllowed);
      }
      if messageType !in AllowedTypes(info.trustLevel) {
        return Refused(TypeNotAllowed);
      }
      if (sender, recipient) in config.escalationPaths && (messageType != "escalation" || !CriticApproved(payload)) {
        securityEvents := securityEvents + [EscalationBlocked];
        return Refused(EscalationBlocked);
      }
      Stamped(config, info, sender, recipient, messageType, payload, now);
      r := Ok(Stamp(config, info, sender, recipient, messageType, payload, now));
    }
  }
}
