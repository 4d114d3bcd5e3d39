/** Fitting a conversation into a model's context window: system messages always stay, then the
    newest messages back to the first that no longer fits, the newest one cut if it must be. */
module ContextBudget {
  import opened Utf8

  datatype Speaker = System | Developer | User | Assistant | Tool | Other

  datatype Message = Message(role: Speaker, content: Text)

  datatype Prompt = Prompt(enabled: bool, model: string, text: Text)

  datatype Client = Client(contextWindow: int, maxTokens: int, model: string, prompts: seq<Prompt>, safety: Text)

  /** The tool definitions: none, some that take size bytes as JSON, or some that cannot be marshalled. */
  datatype Tools = NoTools | Tools(size: nat) | Unmarshalable

  datatype Failure = WindowTooSmall | BadTools | BadRole | NoRoom

  datatype Prepared = Ready(messages: seq<Message>) | Failed(error: Failure)

  // ----- costs

  function RoleBytes(r: Speaker): nat {
    match r
    case System => 6
    case Developer => 9
    case User => 4
    case Assistant => 9
    case Tool => 4
    case Other => 0
  }

  /** messageBudget of a message without content: 24 bytes of JSON, the role, and 32 for framing. */
  function Frame(r: Speaker): nat { 56 + RoleBytes(r) }

  /** messageBudget. */
  function Cost(m: Message): nat { Frame(m.role) + Escaped(m.content) }

  function Total(ms: seq<Message>): nat { if ms == [] then 0 else Total(ms[..|ms| - 1]) + Cost(ms[|ms| - 1]) }

  function ToolCost(t: Tools): nat { if t.Tools? then t.size + 128 else 0 }

  /** window - reserve - 256, with the defaults and the cap. */
  function Limit(c: Client): int {
    var window := if c.contextWindow <= 0 then 32768 else if c.contextWindow > 2_000_000 then 2_000_000 else c.contextWindow;
    var reserve := if c.maxTokens <= 0 then 4096 else c.maxTokens;
    window - reserve - 256
  }

  // ----- what goes in

  /** ContextWithConversation. */
  function Clean(history: seq<Message>): seq<Message> {
    if history == [] then []
    else
      var m := history[|history| - 1];
      Clean(history[..|history| - 1]) + if m.role == User || m.role == Assistant then [m] else []
  }

  function OfSystem(ms: seq<Message>, system: bool): seq<Message> {
    if ms == [] then []
    else
      var m := ms[|ms| - 1];
      OfSystem(ms[..|ms| - 1], system) + if (m.role == System) == system then [m] else []
  }

  function Enabled(ps: seq<Prompt>, model: string): seq<Message> {
    if ps == [] then []
    else
      var p := ps[|ps| - 1];
      Enabled(ps[..|ps| - 1], model) + if p.enabled && (p.model == "" || p.model == model) then [Message(System, p.text)] else []
  }

  /** The safety prompt ends the last system message, or is the only one. */
  function WithSafety(systems: seq<Message>, safety: Text): seq<Message> {
    if systems == [] then [Message(System, safety)]
    else
      var last := systems[|systems| - 1];
      systems[..|systems| - 1] + [last.(content := last.content + [10, 10] + safety)]
  }

  function Systems(c: Client, messages: seq<Message>): seq<Message> {
    WithSafety(OfSystem(messages, true) + Enabled(c.prompts, c.model), c.safety)
  }

  function Ordinary(history: seq<Message>, messages: seq<Message>): seq<Message> {
    Clean(history) + OfSystem(messages, false)
  }

  // ----- what stays

  predicate Fits(m: Message, n: int, budget: int) { Cost(m.(content := Truncated(m.content, n))) <= budget }

  /** The largest limit up to hi under which m fits, or 0. */
  function LargestFit(m: Message, hi: nat, budget: int): nat {
    if hi == 0 || Fits(m, hi, budget) then hi else LargestFit(m, hi - 1, budget)
  }

  lemma {:induction false} LargestFitIsLargest(m: Message, hi: nat, budget: int)
    ensures var n := LargestFit(m, hi, budget);
      n <= hi && (n > 0 ==> Fits(m, n, budget)) && forall k | n < k <= hi :: !Fits(m, k, budget)
  {
    hide Fits;
    if hi > 0 { LargestFitIsLargest(m, hi - 1, budget); }
  }

  function Shortened(m: Message, budget: int): Message {
    if Cost(m) <= budget then m else m.(content := Truncated(m.content, LargestFit(m, |m.content|, budget)))
  }

  /** The newest messages that fit whole. */
  function Whole(ms: seq<Message>, budget: int): seq<Message>
    decreases |ms|
  {
    if ms == [] || budget <= 32 || Cost(ms[|ms| - 1]) > budget then []
    else
      var m := ms[|ms| - 1];
      Whole(ms[..|ms| - 1], budget - Cost(m)) + [m]
  }

  function Selected(ms: seq<Message>, budget: int): seq<Message> {
    if ms == [] || budget <= 32 then []
    else
      var m := Shortened(ms[|ms| - 1], budget);
      Whole(ms[..|ms| - 1], budget - Cost(m)) + [m]
  }

  /** What is left for ordinary messages. */
  function Room(c: Client, messages: seq<Message>, tools: Tools): int {
    Limit(c) - ToolCost(tools) - Total(Systems(c, messages))
  }

  predicate RolesKnown(messages: seq<Message>) { forall i | 0 <= i < |messages| :: messages[i].role != Other }

  function Prepare(c: Client, history: seq<Message>, messages: seq<Message>, tools: Tools): Prepared {
    if Limit(c) <= 0 then Failed(WindowTooSmall)
    else if tools.Unmarshalable? then Failed(BadTools)
    else if !RolesKnown(messages) then Failed(BadRole)
    else if Room(c, messages, tools) < 64 then Failed(NoRoom)
    else Ready(Systems(c, messages) + Selected(Ordinary(history, messages), Room(c, messages, tools)))
  }

  // ----- the search

  lemma FitsDownward(m: Message, a: int, b: int, budget: int)
    requires a <= b && Fits(m, b, budget)
    ensures Fits(m, a, budget)
  {
    hide Truncated, Escaped;
    TruncationGrows(m.content, a, b);
  }

  /** The binary search over limits finds the largest one. */
  method SearchLimit(m: Message, budget: int) returns (n: nat)
    ensures n == LargestFit(m, |m.content|, budget)
  {
    hide Fits;
    var lo, hi := 0, |m.content|;
    while lo < hi
      invariant 0 <= lo <= hi <= |m.content|
      invariant lo > 0 ==> Fits(m, lo, budget)
      invariant forall k | hi < k <= |m.content| :: !Fits(m, k, budget)
      decreases hi - lo
    {
      var mid := lo + (hi - lo + 1) / 2;
      var candidate := TruncateUTF8Bytes(m.content, mid);
      FitsIs(m, mid, budget);
      if Cost(m.(content := candidate)) <= budget {
        lo := mid;
      } else {
        forall k | mid <= k <= |m.content|
          ensures !Fits(m, k, budget)
        {
          if Fits(m, k, budget) { FitsDownward(m, mid, k, budget); }
        }
        hi := mid - 1;
      }
    }
    n := lo;
    LargestIs(m, |m.content|, budget, n);
  }

  lemma FitsIs(m: Message, n: int, budget: int)
    ensures Fits(m, n, budget) <==> Cost(m.(content := Truncated(m.content, n))) <= budget
  {
  }

  lemma LargestIs(m: Message, hi: nat, budget: int, n: nat)
    requires n <= hi && (n > 0 ==> Fits(m, n, budget)) && forall k | n < k <= hi :: !Fits(m, k, budget)
    ensures n == LargestFit(m, hi, budget)
  {
    LargestFitIsLargest(m, hi, budget);
    hide Fits, LargestFit;
    var l := LargestFit(m, hi, budget);
    assert n < l ==> !Fits(m, l, budget);
    assert l < n ==> !Fits(m, n, budget);
  }

  // ----- prepareMessages

  lemma OneMore(ms: seq<Message>, i: nat)
    requires i < |ms|
    ensures ms[..i + 1][..i] == ms[..i] && ms[..i + 1][i] == ms[i]
  {
  }

  method SplitMessages(messages: seq<Message>) returns (ok: bool, systems: seq<Message>, ordinary: seq<Message>)
    ensures ok == RolesKnown(messages)
    ensures ok ==> systems == OfSystem(messages, true) && ordinary == OfSystem(messages, false)
  {
    systems, ordinary := [], [];
    for i := 0 to |messages|
      invariant RolesKnown(messages[..i])
      invariant systems == OfSystem(messages[..i], true) && ordinary == OfSystem(messages[..i], false)
    {
      OneMore(messages, i);
      var m := messages[i];
      if m.role == Other { return false, [], []; }
      if m.role == System { systems := systems + [m]; } else { ordinary := ordinary + [m]; }
    }
    assert messages[..|messages|] == messages;
    return true, systems, ordinary;
  }

  method AddPrompts(c: Client, before: seq<Message>) returns (systems: seq<Message>)
    ensures systems == WithSafety(before + Enabled(c.prompts, c.model), c.safety)
  {
    systems := before;
    for i := 0 to |c.prompts|
      invariant systems == before + Enabled(c.prompts[..i], c.model)
    {
      var p := c.prompts[i];
      assert c.prompts[..i + 1][..i] == c.prompts[..i];
      if p.enabled && (p.model == "" || p.model == c.model) { systems := systems + [Message(System, p.text)]; }
    }
    assert c.prompts[..|c.prompts|] == c.prompts;
    if systems == [] {
      systems := [Message(System, c.safety)];
    } else {
      var last := systems[|systems| - 1];
      systems := systems[|systems| - 1 := last.(content := last.content + [10, 10] + c.safety)];
    }
  }

  method CleanHistory(history: seq<Message>) returns (clean: seq<Message>)
    ensures clean == Clean(history)
  {
    clean := [];
    for i := 0 to |history|
      invariant clean == Clean(history[..i])
    {
      OneMore(history, i);
      if history[i].role == User || history[i].role == Assistant { clean := clean + [history[i]]; }
    }
    assert history[..|history|] == history;
  }

  function Reversed(ms: seq<Message>): seq<Message> { seq(|ms|, i requires 0 <= i < |ms| => ms[|ms| - 1 - i]) }

  /** The selection loop, newest first. */
  method SelectNewest(ordinary: seq<Message>, room: int) returns (selected: seq<Message>)
    requires room >= 64
    ensures Reversed(selected) == Selected(ordinary, room)
  {
    hide Cost, LargestFit, Truncated;
    selected := [];
    var budget, i := room, |ordinary|;
    while i > 0
      invariant 0 <= i <= |ordinary|
      invariant selected == [] ==> i == |ordinary| && budget == room
      invariant selected != [] ==> Whole(ordinary[..i], budget) + Reversed(selected) == Selected(ordinary, room)
    {
      if budget <= 32 { break; }
      var m := ordinary[i - 1];
      if Cost(m) > budget {
        if |selected| > 0 { break; }
        m := Cut(m, budget);
      }
      TakenNext(ordinary, i, budget, selected, m, room);
      budget := budget - Cost(m);
      selected := selected + [m];
      i := i - 1;
    }
  }

  /** One more message taken, newest first. */
  lemma TakenNext(ordinary: seq<Message>, i: nat, budget: int, selected: seq<Message>, m: Message, room: int)
    requires 0 < i <= |ordinary| && budget > 32
    requires if selected == [] then i == |ordinary| && budget == room && m == Shortened(ordinary[i - 1], room)
             else m == ordinary[i - 1] && Cost(m) <= budget
                  && Whole(ordinary[..i], budget) + Reversed(selected) == Selected(ordinary, room)
    ensures Whole(ordinary[..i - 1], budget - Cost(m)) + Reversed(selected + [m]) == Selected(ordinary, room)
  {
    hide Cost, Shortened, Whole, Selected, Reversed;
    var older := Whole(ordinary[..i - 1], budget - Cost(m));
    ReversedMore(selected, m);
    if selected == [] {
      NothingReversed();
      SelectedIs(ordinary, room);
    } else {
      OneMore(ordinary, i - 1);
      WholeStep(ordinary[..i], budget);
      Regroup(older, m, Reversed(selected));
    }
  }

  lemma NothingReversed()
    ensures Reversed([]) == []
  {
  }

  lemma Regroup<T>(a: seq<T>, x: T, b: seq<T>)
    ensures a + [x] + b == a + ([x] + b)
  {
  }

  lemma ReversedMore(ms: seq<Message>, m: Message)
    ensures Reversed(ms + [m]) == [m] + Reversed(ms)
  {
  }

  /** The branch that cuts a message too large for the budget. */
  method Cut(m: Message, budget: int) returns (r: Message)
    requires Cost(m) > budget
    ensures r == Shortened(m, budget)
  {
    var n := SearchLimit(m, budget);
    var text := TruncateUTF8Bytes(m.content, n);
    r := m.(content := text);
  }

  method PrepareMessages(c: Client, history: seq<Message>, messages: seq<Message>, tools: Tools) returns (r: Prepared)
    ensures r == Prepare(c, history, messages, tools)
  {
    hide Total, Selected, OfSystem, Enabled, Clean, WithSafety, RolesKnown;
    var window := c.contextWindow;
    if window <= 0 { window := 32768; }
    if window > 2_000_000 { window := 2_000_000; }
    var reserve := c.maxTokens;
    if reserve <= 0 { reserve := 4096; }
    var budget := window - reserve - 256;
    if budget <= 0 { return Failed(WindowTooSmall); }
    if tools.Unmarshalable? { return Failed(BadTools); }
    if tools.Tools? { budget := budget - (tools.size + 128); }
    var ok, systems, ordinary := SplitMessages(messages);
    if !ok { return Failed(BadRole); }
    systems := AddPrompts(c, systems);
    var clean := CleanHistory(history);
    ordinary := clean + ordinary;
    var spent := AddCosts(systems);
    budget := budget - spent;
    if budget < 64 { return Failed(NoRoom); }
    var selected := SelectNewest(ordinary, budget);
    var out := AppendReversed(systems, selected);
    return Ready(out);
  }

  method AddCosts(ms: seq<Message>) returns (n: nat)
    ensures n == Total(ms)
  {
    n := 0;
    for i := 0 to |ms|
      invariant n == Total(ms[..i])
    {
      OneMore(ms, i);
      n := n + Cost(ms[i]);
    }
    assert ms[..|ms|] == ms;
  }

  method AppendReversed(systems: seq<Message>, selected: seq<Message>) returns (out: seq<Message>)
    ensures out == systems + Reversed(selected)
  {
    out := systems;
    var i := |selected|;
    while i > 0
      invariant 0 <= i <= |selected| && out == systems + Reversed(selected)[..|selected| - i]
    {
      i := i - 1;
      out := out + [selected[i]];
    }
  }

  // ----- what is promised

  lemma {:induction false} TotalAppends(a: seq<Message>, b: seq<Message>)
    ensures Total(a + b) == Total(a) + Total(b)
  {
    if b == [] {
      assert a + b == a;
    } else {
      var n := |b| - 1;
      assert (a + b)[..|a| + n] == a + b[..n];
      TotalAppends(a, b[..n]);
    }
  }

  /** Messages kept whole are the newest run, fit, and could not be one more. */
  lemma {:induction false} WholeIsNewestRun(ms: seq<Message>, budget: int)
    ensures var kept := Whole(ms, budget);
      && |kept| <= |ms| && kept == ms[|ms| - |kept|..] && (kept != [] ==> Total(kept) <= budget)
      && (|kept| < |ms| ==> Cost(ms[|ms| - |kept| - 1]) > budget - Total(kept))
    decreases |ms|
  {
    hide Cost, Total, Whole;
    NothingCosts();
    WholeStep(ms, budget);
    if ms != [] {
      var n := |ms| - 1;
      var m := ms[n];
      FramesAreLarge(m);
      if budget > 32 && Cost(m) <= budget {
        var older := Whole(ms[..n], budget - Cost(m));
        WholeIsNewestRun(ms[..n], budget - Cost(m));
        TotalAppends(older, [m]);
        TotalOfOne(m);
        SuffixOfAll(ms, n - |older|);
      } else {
        SuffixOfAll(ms, n);
      }
    }
  }

  lemma WholeStep(ms: seq<Message>, budget: int)
    ensures Whole(ms, budget) ==
      if ms == [] || budget <= 32 || Cost(ms[|ms| - 1]) > budget then []
      else Whole(ms[..|ms| - 1], budget - Cost(ms[|ms| - 1])) + [ms[|ms| - 1]]
  {
    hide Cost;
  }

  /** The end of a sequence is the end of all but its last, and its last. */
  lemma SuffixOfAll<T>(s: seq<T>, k: nat)
    requires k < |s|
    ensures s[..|s| - 1][k..] + [s[|s| - 1]] == s[k..] && s[..|s| - 1][k..] == s[k..|s| - 1] && s[|s|..] == []
  {
  }

  lemma NothingCosts()
    ensures Total([]) == 0
  {
  }

  lemma FramesAreLarge(m: Message)
    ensures Cost(m) >= 56
  {
  }

  /** A shortened message costs its budget at most, unless even its frame is too large. */
  lemma ShortenedFits(m: Message, budget: int)
    ensures Cost(Shortened(m, budget)) <= budget <==> Frame(m.role) <= budget
    ensures Frame(m.role) > budget ==> Shortened(m, budget).content == []
  {
    hide Frame;
    LargestFitIsLargest(m, |m.content|, budget);
    var n := LargestFit(m, |m.content|, budget);
    if Cost(m) > budget && n == 0 { assert Truncated(m.content, n) == [] && Escaped([]) == 0; }
  }

  /** Everything fits the window exactly when the newest ordinary message's bare frame has room:
      the floor of 64 is one byte short for an assistant or developer message. */
  lemma PreparedFits(c: Client, history: seq<Message>, messages: seq<Message>, tools: Tools)
    requires Prepare(c, history, messages, tools).Ready?
    ensures var out, ms := Prepare(c, history, messages, tools).messages, Ordinary(history, messages);
      (Total(out) + ToolCost(tools) <= Limit(c)) <==>
      !(Room(c, messages, tools) == 64 && ms != [] && (ms[|ms| - 1].role == Assistant || ms[|ms| - 1].role == Developer))
  {
    hide Systems, Limit, ToolCost, Shortened, Selected, Cost;
    var ms, room := Ordinary(history, messages), Room(c, messages, tools);
    var kept := Selected(ms, room);
    TotalAppends(Systems(c, messages), kept);
    KnownNewest(history, messages);
    SelectedCost(ms, room);
  }

  lemma SelectedCost(ms: seq<Message>, room: int)
    requires room >= 64
    ensures Total(Selected(ms, room)) <= room <==> ms == [] || Frame(ms[|ms| - 1].role) <= room
  {
    hide Shortened, Cost, Frame;
    if ms != [] {
      var m := Shortened(ms[|ms| - 1], room);
      var older := Whole(ms[..|ms| - 1], room - Cost(m));
      ShortenedFits(ms[|ms| - 1], room);
      WholeIsNewestRun(ms[..|ms| - 1], room - Cost(m));
      TotalAppends(older, [m]);
      TotalOfOne(m);
    }
  }

  lemma TotalOfOne(m: Message)
    ensures Total([m]) == Cost(m)
  {
    assert [m][..0] == [];
  }

  lemma {:induction false} NoSystem(ms: seq<Message>)
    ensures forall m | m in OfSystem(ms, false) :: m in ms && m.role != System
    ensures forall m | m in Clean(ms) :: m.role == User || m.role == Assistant
  {
    if ms != [] { NoSystem(ms[..|ms| - 1]); }
  }

  lemma KnownNewest(history: seq<Message>, messages: seq<Message>)
    requires RolesKnown(messages)
    ensures forall m | m in Ordinary(history, messages) :: m.role != System && m.role != Other
  {
    NoSystem(history);
    NoSystem(messages);
  }

  /** The output is the system messages followed by the newest run of history-then-messages, in
      order and with only its newest member changed: kept whole if it fits, else cut at the largest
      limit that does. The newest message is always there, and no older one more would fit. */
  lemma PreparedIsNewestRun(c: Client, history: seq<Message>, messages: seq<Message>, tools: Tools)
    requires Prepare(c, history, messages, tools).Ready?
    ensures var ms, systems := Ordinary(history, messages), Systems(c, messages);
      var out := Prepare(c, history, messages, tools).messages;
      && |systems| <= |out| && out[..|systems|] == systems
      && var kept := out[|systems|..];
         && |kept| <= |ms| && (ms != [] ==> kept != [])
         && (kept != [] ==>
               kept == ms[|ms| - |kept|..|ms| - 1] + [Shortened(ms[|ms| - 1], Room(c, messages, tools))])
         && (|kept| < |ms| ==> Total(out) + ToolCost(tools) + Cost(ms[|ms| - |kept| - 1]) > Limit(c))
  {
    hide Systems, Limit, ToolCost, Shortened, Cost, Ordinary;
    var ms, room, systems := Ordinary(history, messages), Room(c, messages, tools), Systems(c, messages);
    var kept := Selected(ms, room);
    Halves(systems, kept);
    TotalAppends(systems, kept);
    if ms != [] { SelectedRun(ms, room); }
    hide Total;
  }

  lemma Halves<T>(a: seq<T>, b: seq<T>)
    ensures (a + b)[..|a|] == a && (a + b)[|a|..] == b
  {
  }

  lemma SelectedRun(ms: seq<Message>, room: int)
    requires room >= 64 && ms != []
    ensures var kept := Selected(ms, room);
      && 0 < |kept| <= |ms| && kept == ms[|ms| - |kept|..|ms| - 1] + [Shortened(ms[|ms| - 1], room)]
      && (|kept| < |ms| ==> Cost(ms[|ms| - |kept| - 1]) > room - Total(kept))
  {
    hide Shortened, Cost, Total, Whole, Selected;
    var m := Shortened(ms[|ms| - 1], room);
    var older, k := Whole(ms[..|ms| - 1], room - Cost(m)), |Selected(ms, room)|;
    SelectedIs(ms, room);
    OlderRun(ms, room - Cost(m));
    TotalAppends(older, [m]);
    TotalOfOne(m);
    assert k == |older| + 1 && |ms| - 1 - |older| == |ms| - k && |ms| - |older| - 2 == |ms| - k - 1;
  }

  /** The messages kept whole before the newest one, in the terms of all messages. */
  lemma OlderRun(ms: seq<Message>, budget: int)
    requires ms != []
    ensures var older := Whole(ms[..|ms| - 1], budget);
      && |older| < |ms| && older == ms[|ms| - 1 - |older|..|ms| - 1]
      && (|older| + 1 < |ms| ==> Cost(ms[|ms| - |older| - 2]) > budget - Total(older))
  {
    hide Cost, Total, Whole;
    var front := ms[..|ms| - 1];
    var older := Whole(front, budget);
    WholeIsNewestRun(front, budget);
    assert |front| == |ms| - 1;
    SuffixOfAll(ms, |ms| - 1 - |older|);
    assert |older| < |front| ==> front[|front| - |older| - 1] == ms[|ms| - |older| - 2];
  }

  lemma SelectedIs(ms: seq<Message>, room: int)
    requires room > 32 && ms != []
    ensures var m := Shortened(ms[|ms| - 1], room); Selected(ms, room) == Whole(ms[..|ms| - 1], room - Cost(m)) + [m]
  {
    hide Shortened, Cost, Whole;
  }

  /** What fits is left alone. Otherwise cutting keeps the role and well-formed text well-formed, takes a
      piece of the original, and no larger limit would have fitted. */
  lemma ShorteningIsExact(m: Message, budget: int)
    ensures Cost(m) <= budget ==> Shortened(m, budget) == m
    ensures Cost(m) > budget ==> var r, n := Shortened(m, budget), LargestFit(m, |m.content|, budget);
      && r.role == m.role && r.content == Truncated(m.content, n) && (WellFormed(m.content) ==> WellFormed(r.content))
      && (exists i: nat, j: nat :: i <= j <= |m.content| && r.content == m.content[i..j])
      && forall k | n < k <= |m.content| :: Cost(m.(content := Truncated(m.content, k))) > budget
  {
    hide Truncated, Cost, WellFormed;
    LargestFitIsLargest(m, |m.content|, budget);
    var n := LargestFit(m, |m.content|, budget);
    if WellFormed(m.content) { TruncationIsWellFormed(m.content, n); }
    var i, j := TruncationIsPiece(m.content, n);
    forall k | n < k <= |m.content|
      ensures Cost(m.(content := Truncated(m.content, k))) > budget
    {
      FitsIs(m, k, budget);
    }
  }

  lemma SelectedOne(m: Message, room: int)
    requires room > 32 && Shortened(m, room) == m
    ensures Selected([m], room) == [m]
  {
    hide Shortened, Cost, Selected, Whole;
    SelectedIs([m], room);
    assert [m][..0] == [];
    WholeStep([], room - Cost(m));
  }

  lemma OnlyAssistant(c: Client)
    requires c.prompts == []
    ensures var ms := [Message(Assistant, [])];
      RolesKnown(ms) && Systems(c, ms) == [Message(System, c.safety)] && Ordinary([], ms) == ms
  {
    var ms := [Message(Assistant, [])];
    assert ms[..0] == [];
    assert OfSystem(ms, true) == [] && OfSystem(ms, false) == ms && Clean([]) == [] && Enabled([], c.model) == [];
  }

  lemma EmptyAssistantStays()
    ensures Cost(Message(Assistant, [])) == 65 && Shortened(Message(Assistant, []), 64) == Message(Assistant, [])
  {
  }

  /** The failing family has members: with a window that leaves 64, an empty assistant message
      overshoots the limit by one. */
  lemma AssistantFrameOverflows(c: Client)
    requires c.prompts == [] && c.maxTokens == 4096 && c.contextWindow == 4416 + Cost(Message(System, c.safety)) <= 2_000_000
    ensures var r := Prepare(c, [], [Message(Assistant, [])], NoTools);
      r.Ready? && Total(r.messages) == Limit(c) + 1
  {
    hide Total, Selected, Systems, Ordinary, Shortened, Cost, RolesKnown, Frame, Escaped;
    var m, system := Message(Assistant, []), Message(System, c.safety);
    OnlyAssistant(c);
    EmptyAssistantStays();
    TotalOfOne(system);
    TotalOfOne(m);
    SelectedOne(m, 64);
    TotalAppends([system], [m]);
  }
}
