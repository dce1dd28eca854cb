/** Trimming an overflowing message history before a model call. */
module ContextTrim {

  /** `toolMessage` is the class test, `typ` and `role` the attributes ("" when absent). */
  datatype RawMessage = RawMessage(
    toolMessage: bool, typ: string, role: string, hasToolResultBlock: bool, content: string)

  predicate IsToolResult(m: RawMessage) {
    var role := if m.typ != "" then m.typ else m.role;
    m.toolMessage || role == "tool" || (role == "user" && m.hasToolResultBlock)
  }

  predicate IsSystem(m: RawMessage) {
    m.typ == "system" || m.role == "system"
  }

  /** No message class is both a system message and a tool result. */
  type Message = m: RawMessage | !(IsSystem(m) && IsToolResult(m)) witness RawMessage(false, "ai", "", false, "")

  // ---------------------------------------------------------------------------------------
  // Tool results

  function CountTools(ms: seq<Message>): nat {
    if ms == [] then 0 else (if ms[0].toolMessage then 1 else 0) + CountTools(ms[1..])
  }

  /** Without the first `n` tool messages. */
  function DropOldTools(ms: seq<Message>, n: nat): seq<Message> {
    if ms == [] || n == 0 then ms
    else if ms[0].toolMessage then DropOldTools(ms[1..], n - 1)
    else [ms[0]] + DropOldTools(ms[1..], n)
  }

  /** Without leading tool results. */
  function Healed(ms: seq<Message>): seq<Message> {
    if ms != [] && IsToolResult(ms[0]) then Healed(ms[1..]) else ms
  }

  method HealOrphanedToolMessages(messages: seq<Message>) returns (trimmed: seq<Message>, ghost popped: seq<Message>)
    ensures trimmed == Healed(messages)
    ensures messages == popped + trimmed
    ensures forall i :: 0 <= i < |popped| ==>
      var role := if popped[i].typ != "" then popped[i].typ else popped[i].role;
      popped[i].toolMessage || role == "tool" || (role == "user" && popped[i].hasToolResultBlock)
    ensures trimmed != [] ==>
      var role := if trimmed[0].typ != "" then trimmed[0].typ else trimmed[0].role;
      !trimmed[0].toolMessage && role != "tool" && (role == "user" ==> !trimmed[0].hasToolResultBlock)
  {
    trimmed, popped := messages, [];
    while trimmed != []
      invariant Healed(trimmed) == Healed(messages)
      invariant messages == popped + trimmed
      invariant forall i :: 0 <= i < |popped| ==>
        var role := if popped[i].typ != "" then popped[i].typ else popped[i].role;
        popped[i].toolMessage || role == "tool" || (role == "user" && popped[i].hasToolResultBlock)
    {
      var first := trimmed[0];
      var role := if first.typ != "" then first.typ else first.role;
      if first.toolMessage || role == "tool" || (role == "user" && first.hasToolResultBlock) {
        popped := popped + [first];
        trimmed := trimmed[1..];
        continue;
      }
      break;
    }
  }

  /** Keeps only the last `keep` tool messages. */
  function TrimToolResults(ms: seq<Message>, keep: int): seq<Message> {
    if keep <= 0 || CountTools(ms) <= keep then ms
    else Healed(DropOldTools(ms, CountTools(ms) - keep))
  }

  // ---------------------------------------------------------------------------------------
  // The window

  function System(ms: seq<Message>): seq<Message> {
    if ms == [] then [] else if IsSystem(ms[0]) then [ms[0]] + System(ms[1..]) else System(ms[1..])
  }

  function Others(ms: seq<Message>): seq<Message> {
    if ms == [] then [] else if IsSystem(ms[0]) then Others(ms[1..]) else [ms[0]] + Others(ms[1..])
  }

  function Last(ms: seq<Message>, n: nat): seq<Message> {
    if n >= |ms| then ms else ms[|ms| - n..]
  }

  /** How many other messages fit beside the system messages; at least one. */
  function Room(t: seq<Message>, maxMessages: int): nat {
    if maxMessages - |System(t)| > 1 then maxMessages - |System(t)| else 1
  }

  function TrimMessages(ms: seq<Message>, keep: int, maxMessages: int): seq<Message> {
    var t := TrimToolResults(ms, keep);
    if |t| <= maxMessages then Healed(t)
    else System(t) + Healed(Last(Others(t), Room(t, maxMessages)))
  }

  lemma {:induction false} HealedSuffix(ms: seq<Message>) returns (k: nat)
    ensures k <= |ms| && Healed(ms) == ms[k..]
    ensures forall i :: 0 <= i < k ==> IsToolResult(ms[i])
    ensures Healed(ms) != [] ==> !IsToolResult(Healed(ms)[0])
    ensures Healed(Healed(ms)) == Healed(ms)
  {
    k := 0;
    if ms != [] && IsToolResult(ms[0]) {
      var j := HealedSuffix(ms[1..]);
      k := j + 1;
      assert ms[1..][j..] == ms[k..];
    }
  }

  lemma {:induction false} CountSuffix(ms: seq<Message>, k: nat)
    requires k <= |ms|
    ensures CountTools(ms[k..]) <= CountTools(ms)
    decreases k
  {
    if k > 0 {
      CountSuffix(ms[1..], k - 1);
      assert ms[1..][k - 1..] == ms[k..];
    }
  }

  lemma {:induction false} CountAppend(a: seq<Message>, b: seq<Message>)
    ensures CountTools(a + b) == CountTools(a) + CountTools(b)
  {
    if a == [] {
      assert a + b == b;
    } else {
      CountAppend(a[1..], b);
      assert (a + b)[1..] == a[1..] + b;
    }
  }

  lemma {:induction false} DropOldCount(ms: seq<Message>, n: nat)
    requires n <= CountTools(ms)
    ensures CountTools(DropOldTools(ms, n)) == CountTools(ms) - n
  {
    if ms != [] && n > 0 {
      if ms[0].toolMessage { DropOldCount(ms[1..], n - 1); } else { DropOldCount(ms[1..], n); }
    }
  }

  /** With a positive `keep`, at most that many tool messages remain. */
  lemma TrimmedToolCount(ms: seq<Message>, keep: int)
    requires keep > 0
    ensures CountTools(TrimToolResults(ms, keep)) <= keep
  {
    if CountTools(ms) > keep {
      var dropped := DropOldTools(ms, CountTools(ms) - keep);
      DropOldCount(ms, CountTools(ms) - keep);
      var k := HealedSuffix(dropped);
      CountSuffix(dropped, k);
    }
  }

  function Tools(ms: seq<Message>): seq<Message> {
    if ms == [] then [] else if ms[0].toolMessage then [ms[0]] + Tools(ms[1..]) else Tools(ms[1..])
  }

  function Plain(ms: seq<Message>): seq<Message> {
    if ms == [] then [] else if ms[0].toolMessage then Plain(ms[1..]) else [ms[0]] + Plain(ms[1..])
  }

  lemma {:induction false} CountIsTools(ms: seq<Message>)
    ensures CountTools(ms) == |Tools(ms)|
  {
    if ms != [] { CountIsTools(ms[1..]); }
  }

  lemma ConsAppend(m: Message, a: seq<Message>, b: seq<Message>)
    ensures [m] + (a + b) == [m] + a + b
  {
  }

  /** What the four filters do with one message; on longer histories they work piece by piece. */
  lemma FilterOne(m: Message)
    ensures Tools([m]) == (if m.toolMessage then [m] else []) && Plain([m]) == if m.toolMessage then [] else [m]
    ensures var system := m.typ == "system" || m.role == "system";
            System([m]) == (if system then [m] else []) && Others([m]) == if system then [] else [m]
  {
  }

  lemma {:induction false} ToolsAppend(a: seq<Message>, b: seq<Message>)
    ensures Tools(a + b) == Tools(a) + Tools(b)
  {
    if a == [] {
      assert a + b == b;
    } else {
      ToolsAppend(a[1..], b);
      assert a + b == [a[0]] + (a[1..] + b) && (a + b)[1..] == a[1..] + b;
    }
  }

  lemma {:induction false} PlainAppend(a: seq<Message>, b: seq<Message>)
    ensures Plain(a + b) == Plain(a) + Plain(b)
  {
    if a == [] {
      assert a + b == b;
    } else {
      PlainAppend(a[1..], b);
      assert (a + b)[0] == a[0] && (a + b)[1..] == a[1..] + b;
      ConsAppend(a[0], Plain(a[1..]), Plain(b));
    }
  }

  lemma {:induction false} DropOldPrefix(a: seq<Message>, b: seq<Message>)
    ensures DropOldTools(a + b, |Tools(a)|) == Plain(a) + b
  {
    if a == [] {
      assert a + b == b;
    } else {
      assert (a + b)[1..] == a[1..] + b;
      DropOldPrefix(a[1..], b);
    }
  }

  /** Exactly the newest `keep` tool messages, those of `recent`, stay in place, and then leading tool results go;
      with no more than that many, or `keep` not positive, nothing changes. */
  lemma TrimToolsExactly(older: seq<Message>, recent: seq<Message>, keep: int)
    ensures keep > 0 && |Tools(recent)| == keep && Tools(older) != [] ==>
      TrimToolResults(older + recent, keep) == Healed(Plain(older) + recent)
    ensures keep <= 0 || |Tools(recent)| <= keep ==> TrimToolResults(recent, keep) == recent
  {
    CountIsTools(older + recent);
    CountIsTools(recent);
    ToolsAppend(older, recent);
    DropOldPrefix(older, recent);
  }

  /** The oldest `n` tool messages go, all else stays in order. */
  lemma {:induction false} DropOldSplit(ms: seq<Message>, n: nat)
    requires n <= |Tools(ms)|
    ensures Tools(DropOldTools(ms, n)) == Tools(ms)[n..] && Plain(DropOldTools(ms, n)) == Plain(ms)
  {
    if ms != [] && n > 0 {
      if ms[0].toolMessage {
        DropOldSplit(ms[1..], n - 1);
      } else {
        DropOldSplit(ms[1..], n);
      }
    }
  }

  lemma {:induction false} ToolsOfSuffix(ms: seq<Message>, k: nat) returns (t: nat)
    requires k <= |ms|
    ensures t <= |Tools(ms)| && Tools(ms[k..]) == Tools(ms)[t..]
    decreases k
  {
    if k == 0 {
      t := 0;
      assert ms[0..] == ms;
    } else {
      t := ToolsOfSuffix(ms[1..], k - 1);
      assert ms[1..][k - 1..] == ms[k..];
      if ms[0].toolMessage { t := t + 1; }
    }
  }

  /** The tool messages that remain are the newest ones: a suffix of those given, no longer than `keep`. */
  lemma NewestToolsKept(ms: seq<Message>, keep: int) returns (t: nat)
    requires keep > 0
    ensures t <= |Tools(ms)| && Tools(TrimToolResults(ms, keep)) == Tools(ms)[t..] && |Tools(ms)| - t <= keep
  {
    CountIsTools(ms);
    t := 0;
    if |Tools(ms)| > keep {
      var n := |Tools(ms)| - keep;
      var dropped := DropOldTools(ms, n);
      DropOldSplit(ms, n);
      var k := HealedSuffix(dropped);
      var u := ToolsOfSuffix(dropped, k);
      t := n + u;
      assert Tools(ms)[n..][u..] == Tools(ms)[t..];
    }
  }

  lemma {:induction false} SplitCounts(ms: seq<Message>)
    ensures CountTools(Others(ms)) == CountTools(ms) && CountTools(System(ms)) == 0
    ensures |System(ms)| + |Others(ms)| == |ms|
  {
    if ms != [] { SplitCounts(ms[1..]); }
  }

  lemma {:induction false} SplitKinds(ms: seq<Message>)
    ensures forall m :: m in System(ms) ==> IsSystem(m) && !IsToolResult(m)
    ensures forall m :: m in Others(ms) ==> !IsSystem(m)
  {
    if ms != [] { SplitKinds(ms[1..]); }
  }

  lemma {:induction false} SplitTwice(ms: seq<Message>)
    ensures System(System(ms)) == System(ms) && Others(System(ms)) == []
    ensures Others(Others(ms)) == Others(ms) && System(Others(ms)) == []
  {
    if ms != [] { SplitTwice(ms[1..]); }
  }

  lemma SystemOthers(ms: seq<Message>)
    ensures CountTools(Others(ms)) == CountTools(ms) && CountTools(System(ms)) == 0
    ensures |System(ms)| + |Others(ms)| == |ms|
    ensures forall m :: m in System(ms) ==> IsSystem(m) && !IsToolResult(m)
    ensures forall m :: m in Others(ms) ==> !IsSystem(m)
    ensures System(System(ms)) == System(ms) && Others(System(ms)) == []
  {
    SplitCounts(ms);
    SplitKinds(ms);
    SplitTwice(ms);
  }

  lemma {:induction false} SystemAppend(a: seq<Message>, b: seq<Message>)
    ensures System(a + b) == System(a) + System(b)
  {
    if a == [] {
      assert a + b == b;
    } else {
      SystemAppend(a[1..], b);
      assert a + b == [a[0]] + (a[1..] + b) && (a + b)[1..] == a[1..] + b;
    }
  }

  lemma {:induction false} OthersAppend(a: seq<Message>, b: seq<Message>)
    ensures Others(a + b) == Others(a) + Others(b)
  {
    if a == [] {
      assert a + b == b;
    } else {
      OthersAppend(a[1..], b);
      assert (a + b)[0] == a[0] && (a + b)[1..] == a[1..] + b;
      ConsAppend(a[0], Others(a[1..]), Others(b));
    }
  }

  lemma {:induction false} NoSystem(ms: seq<Message>)
    requires forall i :: 0 <= i < |ms| ==> !IsSystem(ms[i])
    ensures System(ms) == [] && Others(ms) == ms
  {
    if ms != [] {
      NoSystem(ms[1..]);
      assert ms == [ms[0]] + ms[1..];
    }
  }

  lemma OthersSuffix(ms: seq<Message>, k: nat)
    requires k <= |ms| && (forall m :: m in ms ==> !IsSystem(m))
    ensures System(ms[k..]) == [] && Others(ms[k..]) == ms[k..]
  {
    NoSystem(ms[k..]);
  }

  /** A healed window is a suffix of what it is cut from. */
  lemma WindowSuffix(others: seq<Message>, n: nat) returns (k: nat)
    ensures var w := Healed(Last(others, n));
            && k <= |others| && w == others[k..] && |w| <= n
            && (w != [] ==> !IsToolResult(w[0])) && Healed(w) == w
  {
    var last := Last(others, n);
    var from := |others| - |last|;
    var j := HealedSuffix(last);
    k := from + j;
    assert last == others[from..] && last[j..] == others[k..];
  }

  /** The kept part of the non-system messages in the overflowing case. */
  lemma WindowPart(t: seq<Message>, n: nat) returns (k: nat)
    requires n >= 1
    ensures var w := Healed(Last(Others(t), n));
            && k <= |Others(t)| && w == Others(t)[k..] && |w| <= n
            && (w != [] ==> !IsToolResult(w[0])) && Healed(w) == w
            && System(w) == [] && Others(w) == w && CountTools(w) <= CountTools(t)
  {
    SplitKinds(t);
    SplitCounts(t);
    k := WindowSuffix(Others(t), n);
    OthersSuffix(Others(t), k);
    CountSuffix(Others(t), k);
  }

  /** The overflowing case: all system messages, then a healed window of the others. */
  lemma Overflowing(t: seq<Message>, maxMessages: int) returns (w: seq<Message>, k: nat)
    ensures w == Healed(Last(Others(t), Room(t, maxMessages)))
    ensures k <= |Others(t)| && w == Others(t)[k..]
    ensures System(System(t) + w) == System(t) && Others(System(t) + w) == w
    ensures |w| <= Room(t, maxMessages) && (w != [] ==> !IsToolResult(w[0])) && Healed(w) == w
    ensures CountTools(System(t) + w) <= CountTools(t)
    ensures forall m :: m in System(t) ==> IsSystem(m) && !IsToolResult(m)
  {
    k := WindowPart(t, Room(t, maxMessages));
    w := Healed(Last(Others(t), Room(t, maxMessages)));
    SystemOthers(t);
    SystemAppend(System(t), w);
    OthersAppend(System(t), w);
    CountAppend(System(t), w);
    assert System(t) + [] == System(t) && [] + w == w;
  }

  /** Never starts with a tool result, and holds at most `keep` tool messages. */
  lemma TrimShape(ms: seq<Message>, keep: int, maxMessages: int)
    ensures var r := TrimMessages(ms, keep, maxMessages);
      && (r != [] ==> !IsToolResult(r[0]))
      && (keep > 0 ==> CountTools(r) <= keep)
  {
    var t := TrimToolResults(ms, keep);
    if keep > 0 { TrimmedToolCount(ms, keep); }
    if |t| <= maxMessages {
      var k := HealedSuffix(t);
      CountSuffix(t, k);
    } else {
      var w, k := Overflowing(t, maxMessages);
      if System(t) != [] { assert System(t)[0] in System(t); }
    }
  }

  /** A trimmed history that is still too long is all system messages but possibly the last. */
  lemma StillTooLong(ms: seq<Message>, keep: int, maxMessages: int)
    requires maxMessages >= 1 && |TrimMessages(ms, keep, maxMessages)| > maxMessages
    ensures var r := TrimMessages(ms, keep, maxMessages);
      |r| >= 2 && IsSystem(r[0]) && !IsToolResult(r[0]) && !IsToolResult(r[|r| - 1])
      && forall i :: 0 <= i < |r| - 1 ==> IsSystem(r[i])
  {
    var t := TrimToolResults(ms, keep);
    var _ := HealedSuffix(t);
    var w, k := Overflowing(t, maxMessages);
    var r := System(t) + w;
    assert |w| <= 1 && |System(t)| >= 1;
    forall i | 0 <= i < |System(t)| ensures IsSystem(r[i]) && !IsToolResult(r[i]) {
      assert r[i] == System(t)[i] && System(t)[i] in System(t);
    }
  }

  /** Exactly what is kept of a history `t` whose tool results are already trimmed. When it fits, all but leading
      tool results; otherwise the system messages and as many of the newest others as fit beside them. */
  lemma WindowExactly(ms: seq<Message>, keep: int, maxMessages: int, older: seq<Message>, recent: seq<Message>)
    requires older + recent == Others(TrimToolResults(ms, keep))
    ensures |TrimToolResults(ms, keep)| <= maxMessages ==>
      TrimMessages(ms, keep, maxMessages) == Healed(TrimToolResults(ms, keep))
    ensures var room := maxMessages - |System(ms)|;
      |TrimToolResults(ms, keep)| > maxMessages
      && (|recent| == (if room >= 1 then room else 1) || (older == [] && |recent| <= room)) ==>
        TrimMessages(ms, keep, maxMessages) == System(ms) + Healed(recent)
  {
    TrimToolsOthers(ms, keep);
    var others := older + recent;
    assert others[|others| - |recent|..] == recent;
  }

  lemma TrimNoChange(t: seq<Message>, keep: int, maxMessages: int)
    requires (keep > 0 ==> CountTools(t) <= keep) && Healed(t) == t && |t| <= maxMessages
    ensures TrimMessages(t, keep, maxMessages) == t
  {
  }

  /** Trimming a trimmed history changes nothing. */
  lemma TrimIdempotent(ms: seq<Message>, keep: int, maxMessages: int)
    requires maxMessages >= 1
    ensures TrimMessages(TrimMessages(ms, keep, maxMessages), keep, maxMessages) == TrimMessages(ms, keep, maxMessages)
  {
    var t := TrimToolResults(ms, keep);
    var r := TrimMessages(ms, keep, maxMessages);
    TrimShape(ms, keep, maxMessages);
    assert Healed(r) == r;
    var k := HealedSuffix(t);
    if |r| <= maxMessages {
      TrimNoChange(r, keep, maxMessages);
    } else {
      TrimAgain(t, r, keep, maxMessages);
    }
  }

  lemma TrimAgain(t: seq<Message>, r: seq<Message>, keep: int, maxMessages: int)
    requires maxMessages >= 1 && |r| > maxMessages && (keep > 0 ==> CountTools(r) <= keep)
    requires r == System(t) + Healed(Last(Others(t), Room(t, maxMessages)))
    ensures TrimMessages(r, keep, maxMessages) == r
  {
    var w, k := Overflowing(t, maxMessages);
    assert Room(t, maxMessages) == 1 && Last(Others(r), Room(r, maxMessages)) == w;
  }

  // ---------------------------------------------------------------------------------------
  // Nothing is invented or reordered

  predicate Subsequence(a: seq<Message>, b: seq<Message>) {
    a == [] || (b != [] && ((a[0] == b[0] && Subsequence(a[1..], b[1..])) || Subsequence(a, b[1..])))
  }

  lemma {:induction false} SubSelf(a: seq<Message>)
    ensures Subsequence(a, a)
  {
    if a != [] { SubSelf(a[1..]); }
  }

  lemma {:induction false} SubTail(a: seq<Message>, b: seq<Message>)
    requires a != [] && Subsequence(a, b)
    ensures Subsequence(a[1..], b)
    decreases |b|
  {
    if a[0] == b[0] && Subsequence(a[1..], b[1..]) {
    } else {
      SubTail(a, b[1..]);
    }
  }

  lemma {:induction false} SubTrans(a: seq<Message>, b: seq<Message>, c: seq<Message>)
    requires Subsequence(a, b) && Subsequence(b, c)
    ensures Subsequence(a, c)
    decreases |b| + |c|
  {
    if a != [] {
      if b[0] == c[0] && Subsequence(b[1..], c[1..]) {
        if a[0] == b[0] && Subsequence(a[1..], b[1..]) {
          SubTrans(a[1..], b[1..], c[1..]);
        } else {
          SubTrans(a, b[1..], c[1..]);
        }
      } else {
        SubTrans(a, b, c[1..]);
      }
    }
  }

  lemma {:induction false} SubSuffix(ms: seq<Message>, k: nat)
    requires k <= |ms|
    ensures Subsequence(ms[k..], ms)
    decreases k
  {
    if k == 0 {
      SubSelf(ms);
      assert ms[0..] == ms;
    } else {
      SubSuffix(ms[1..], k - 1);
      assert ms[1..][k - 1..] == ms[k..];
    }
  }

  lemma {:induction false} DropOldOthers(ms: seq<Message>, n: nat)
    ensures Subsequence(Others(DropOldTools(ms, n)), Others(ms))
    ensures System(DropOldTools(ms, n)) == System(ms)
  {
    if ms == [] || n == 0 {
      SubSelf(Others(ms));
    } else if ms[0].toolMessage {
      DropOldOthers(ms[1..], n - 1);
    } else {
      DropOldOthers(ms[1..], n);
    }
  }

  lemma {:induction false} HealedOthers(ms: seq<Message>)
    ensures Subsequence(Others(Healed(ms)), Others(ms))
    ensures System(Healed(ms)) == System(ms)
  {
    if ms != [] && IsToolResult(ms[0]) {
      HealedOthers(ms[1..]);
    } else {
      SubSelf(Others(ms));
    }
  }

  lemma TrimToolsOthers(ms: seq<Message>, keep: int)
    ensures Subsequence(Others(TrimToolResults(ms, keep)), Others(ms))
    ensures System(TrimToolResults(ms, keep)) == System(ms)
  {
    if keep > 0 && CountTools(ms) > keep {
      var dropped := DropOldTools(ms, CountTools(ms) - keep);
      DropOldOthers(ms, CountTools(ms) - keep);
      HealedOthers(dropped);
      SubTrans(Others(Healed(dropped)), Others(dropped), Others(ms));
    } else {
      SubSelf(Others(ms));
    }
  }

  /** All system messages are kept, in order; the others are a subsequence of those given. */
  lemma TrimKeepsOrder(ms: seq<Message>, keep: int, maxMessages: int)
    requires maxMessages >= 1
    ensures System(TrimMessages(ms, keep, maxMessages)) == System(ms)
    ensures Subsequence(Others(TrimMessages(ms, keep, maxMessages)), Others(ms))
  {
    var t := TrimToolResults(ms, keep);
    TrimToolsOthers(ms, keep);
    if |t| <= maxMessages {
      HealedOthers(t);
      SubTrans(Others(Healed(t)), Others(t), Others(ms));
    } else {
      var w, k := Overflowing(t, maxMessages);
      SubSuffix(Others(t), k);
      SubTrans(w, Others(t), Others(ms));
    }
  }

  // ---------------------------------------------------------------------------------------
  // The middleware

  lemma ThreeKept(a: Message, b: Message, c: Message)
    requires !IsToolResult(a) && !IsToolResult(b) && !IsToolResult(c)
    ensures Healed([a, b, c]) == [a, b, c] && CountTools([a, b, c]) == 0
  {
    assert [a, b, c][1..] == [b, c] && [b, c][1..] == [c] && [c][1..] == [];
    assert CountTools([c]) == 0 && CountTools([b, c]) == 0;
  }

  class ContextSummaryMiddleware {
    const goal: string
    const maxMessages: int
    const keepToolResults: int
    const summarize: (string, string, string) -> string
    var lastSummary: string

    constructor (goal: string, maxMessages: int, keepToolResults: int, summarize: (string, string, string) -> string)
      ensures this.goal == goal && this.maxMessages == maxMessages && this.keepToolResults == keepToolResults
      ensures this.summarize == summarize && lastSummary == ""
    {
      this.goal, this.maxMessages, this.keepToolResults := goal, maxMessages, keepToolResults;
      this.summarize := summarize;
      lastSummary := "";
    }

    function JoinContents(ms: seq<Message>): string {
      if ms == [] then "" else if |ms| == 1 then ms[0].content else ms[0].content + "\n" + JoinContents(ms[1..])
    }

    function SummaryMessage(): Message
      reads this
    {
      RawMessage(false, "ai", "", false, "[Context summary]\n" + lastSummary)
    }

    lemma {:induction false} JoinAppend(a: seq<Message>, b: seq<Message>)
      requires a != [] && b != []
      ensures JoinContents(a + b) == JoinContents(a) + "\n" + JoinContents(b)
      ensures JoinContents([a[0]]) == a[0].content
    {
      assert (a + b)[1..] == a[1..] + b;
      if |a| > 1 {
        JoinAppend(a[1..], b);
      } else {
        assert a[1..] + b == b;
      }
    }

    method MaybeSummarize(messages: seq<Message>) returns (r: seq<Message>)
      requires maxMessages >= 1
      modifies this
      ensures |r| <= if maxMessages > 3 then maxMessages else 3
      ensures r != [] ==> !IsToolResult(r[0])
      ensures keepToolResults > 0 ==> CountTools(r) <= keepToolResults
      ensures var trimmed := TrimMessages(messages, keepToolResults, maxMessages);
        && (|trimmed| <= maxMessages ==> r == trimmed && lastSummary == old(lastSummary))
        && (|trimmed| > maxMessages ==>
              var summary := RawMessage(false, "ai", "", false, "[Context summary]\n" + lastSummary);
              r == [trimmed[0], summary, trimmed[|trimmed| - 1]] &&
              lastSummary == summarize(goal, JoinContents(trimmed), old(lastSummary)))
    {
      var trimmed := TrimMessages(messages, keepToolResults, maxMessages);
      TrimShape(messages, keepToolResults, maxMessages);
      if |trimmed| <= maxMessages {
        return trimmed;
      }
      StillTooLong(messages, keepToolResults, maxMessages);
      lastSummary := summarize(goal, JoinContents(trimmed), lastSummary);
      var head, tail := trimmed[0], trimmed[|trimmed| - 1];
      var three := [head, SummaryMessage(), tail];
      ThreeKept(head, SummaryMessage(), tail);
      ghost var popped;
      r, popped := HealOrphanedToolMessages(three);
      assert r == three;
    }
  }
}
