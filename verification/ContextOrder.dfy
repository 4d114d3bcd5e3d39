/** What goes into a prepared conversation, and in what order. */
module ContextOrder {
  import opened Utf8
  import opened Selection
  import opened ContextBudget

  function FromHistory(m: Message): bool { m.role == User || m.role == Assistant }

  function IsSystem(yes: bool): Message -> bool { (m: Message) => (m.role == System) == yes }

  function Same(m: Message): Message { m }

  /** The cleaned history is its user and assistant messages, in order. */
  lemma {:induction false} CleanPicks(history: seq<Message>) returns (p: seq<nat>)
    ensures Picks(history, FromHistory, Same, Clean(history), p)
  {
    hide Picks;
    p := [];
    if history == [] {
      PicksNothing<Message, Message>(FromHistory, Same);
    } else {
      var front, m := history[..|history| - 1], history[|history| - 1];
      p := CleanPicks(front);
      PicksNext(front, FromHistory, Same, Clean(front), p, m);
      FrontAndLast(history);
      if FromHistory(m) {
        p := p + [|front|];
        assert Clean(history) == Clean(front) + [Same(m)];
      } else {
        assert Clean(history) == Clean(front);
      }
    }
  }

  /** The system messages, or the others, in order. */
  lemma {:induction false} OfSystemPicks(ms: seq<Message>, system: bool) returns (p: seq<nat>)
    ensures Picks(ms, IsSystem(system), Same, OfSystem(ms, system), p)
  {
    hide Picks;
    p := [];
    if ms == [] {
      PicksNothing<Message, Message>(IsSystem(system), Same);
    } else {
      var front, m := ms[..|ms| - 1], ms[|ms| - 1];
      p := OfSystemPicks(front, system);
      PicksNext(front, IsSystem(system), Same, OfSystem(front, system), p, m);
      FrontAndLast(ms);
      if IsSystem(system)(m) {
        p := p + [|front|];
        assert OfSystem(ms, system) == OfSystem(front, system) + [Same(m)];
      } else {
        assert OfSystem(ms, system) == OfSystem(front, system);
      }
    }
  }

  function AppliesTo(model: string): Prompt -> bool { (p: Prompt) => p.enabled && (p.model == "" || p.model == model) }

  function AsMessage(p: Prompt): Message { Message(System, p.text) }

  /** The enabled prompts for the model, in order, as system messages. */
  lemma {:induction false} EnabledPicks(ps: seq<Prompt>, model: string) returns (p: seq<nat>)
    ensures Picks(ps, AppliesTo(model), AsMessage, Enabled(ps, model), p)
  {
    hide Picks;
    p := [];
    if ps == [] {
      PicksNothing<Prompt, Message>(AppliesTo(model), AsMessage);
    } else {
      var front, q := ps[..|ps| - 1], ps[|ps| - 1];
      p := EnabledPicks(front, model);
      PicksNext(front, AppliesTo(model), AsMessage, Enabled(front, model), p, q);
      FrontAndLast(ps);
      if AppliesTo(model)(q) {
        p := p + [|front|];
        assert Enabled(ps, model) == Enabled(front, model) + [AsMessage(q)];
      } else {
        assert Enabled(ps, model) == Enabled(front, model);
      }
    }
  }

  /** The ordinary messages are the user and assistant messages of the history in order, and then the
      messages that are not system messages in order. */
  lemma OrdinaryIsInOrder(history: seq<Message>, messages: seq<Message>)
    returns (older: seq<Message>, p: seq<nat>, newer: seq<Message>, q: seq<nat>)
    ensures Ordinary(history, messages) == older + newer
    ensures Picks(history, FromHistory, Same, older, p)
    ensures Picks(messages, IsSystem(false), Same, newer, q)
  {
    hide Picks;
    older, newer := Clean(history), OfSystem(messages, false);
    p := CleanPicks(history);
    q := OfSystemPicks(messages, false);
  }

  ghost predicate EndsWith(s: Text, end: Text) { |end| <= |s| && s[|s| - |end|..] == end }

  /** The system part is the given system messages in order and then the enabled prompts in order, with the
      safety text closing the last of them; it is the safety text alone if there are none. */
  lemma SystemsEndInSafety(c: Client, messages: seq<Message>)
    returns (given: seq<Message>, p: seq<nat>, prompts: seq<Message>, q: seq<nat>)
    ensures Picks(messages, IsSystem(true), Same, given, p)
    ensures Picks(c.prompts, AppliesTo(c.model), AsMessage, prompts, q)
    ensures var systems := Systems(c, messages); var n := |given + prompts|;
      if n == 0 then systems == [Message(System, c.safety)]
      else
        && |systems| == n && systems[..n - 1] == (given + prompts)[..n - 1]
        && systems[n - 1].role == (given + prompts)[n - 1].role
        && systems[n - 1].content == (given + prompts)[n - 1].content + [10, 10] + c.safety
    ensures var systems := Systems(c, messages); systems != [] && EndsWith(systems[|systems| - 1].content, c.safety)
  {
    hide Picks;
    given, prompts := OfSystem(messages, true), Enabled(c.prompts, c.model);
    p := OfSystemPicks(messages, true);
    q := EnabledPicks(c.prompts, c.model);
    if |given + prompts| > 0 { SafetyLast(given + prompts, c.safety); }
  }

  lemma SafetyLast(systems: seq<Message>, safety: Text)
    requires systems != []
    ensures var n := |systems|; var r := WithSafety(systems, safety);
      && |r| == n && r[..n - 1] == systems[..n - 1] && r[n - 1].role == systems[n - 1].role
      && r[n - 1].content == systems[n - 1].content + [10, 10] + safety && EndsWith(r[n - 1].content, safety)
  {
  }

  lemma {:induction false} CleanAppends(a: seq<Message>, b: seq<Message>)
    ensures Clean(a + b) == Clean(a) + Clean(b)
  {
    if b == [] {
      assert a + b == a;
    } else {
      assert (a + b)[..|a| + |b| - 1] == a + b[..|b| - 1];
      CleanAppends(a, b[..|b| - 1]);
    }
  }

  // ----- errors and limits

  function OrElse(x: int, default: int): int { if x <= 0 then default else x }

  /** The window, 32768 when not set and at most two million, less the reserve, 4096 when not set, less 256. */
  lemma LimitIs(c: Client)
    ensures OrElse(c.contextWindow, 32768) <= 2_000_000 ==> Limit(c) == OrElse(c.contextWindow, 32768) - OrElse(c.maxTokens, 4096) - 256
    ensures OrElse(c.contextWindow, 32768) >= 2_000_000 ==> Limit(c) == 2_000_000 - OrElse(c.maxTokens, 4096) - 256
  {
  }

  /** Preparing succeeds exactly when there is a window, the tools can be written, every role is known and
      system messages and tools leave 64. */
  lemma ReadyIff(c: Client, history: seq<Message>, messages: seq<Message>, tools: Tools)
    ensures Prepare(c, history, messages, tools).Ready? <==>
      && Limit(c) > 0 && tools != Unmarshalable && (forall m | m in messages :: m.role != Other)
      && Total(Systems(c, messages)) + ToolCost(tools) + 64 <= Limit(c)
    ensures tools.Tools? ==> ToolCost(tools) == tools.size + 128
    ensures tools.NoTools? ==> ToolCost(tools) == 0
  {
    hide Limit, Total, Systems, Selected, Ordinary;
    assert RolesKnown(messages) <==> forall m | m in messages :: m.role != Other;
  }

  // ----- what a message costs

  function Ascii(s: string): Text
    requires forall i | 0 <= i < |s| :: s[i] < 128 as char
  {
    seq(|s|, i requires 0 <= i < |s| => s[i] as int)
  }

  function HexDigit(n: nat): Byte
    requires n < 16
  {
    if n < 10 then 48 + n else 87 + n
  }

  /** What encoding/json writes for the character that s starts with. */
  function EscapedRune(s: Text): Text
    requires s != []
  {
    if ValidWidth(s) == 0 then Ascii("\\ufffd")
    else if Separator(s) then Ascii("\\u202") + [if s[2] == 0xA8 then 56 else 57]
    else if s[0] == 0x22 || s[0] == 0x5C then [0x5C, s[0]]
    else if s[0] == 8 then Ascii("\\b")
    else if s[0] == 12 then Ascii("\\f")
    else if s[0] == 10 then Ascii("\\n")
    else if s[0] == 13 then Ascii("\\r")
    else if s[0] == 9 then Ascii("\\t")
    else if s[0] < 0x20 || s[0] == 0x3C || s[0] == 0x3E || s[0] == 0x26
    then Ascii("\\u00") + [HexDigit(s[0] / 16), HexDigit(s[0] % 16)]
    else s[..ValidWidth(s)]
  }

  function EscapedText(s: Text): Text
    decreases |s|
  {
    if s == [] then [] else EscapedRune(s) + EscapedText(s[Width(s)..])
  }

  function RoleName(r: Speaker): string {
    match r
    case System => "system"
    case Developer => "developer"
    case User => "user"
    case Assistant => "assistant"
    case Tool => "tool"
    case Other => ""
  }

  lemma RoleNamesAreAscii(r: Speaker)
    ensures forall i | 0 <= i < |RoleName(r)| :: RoleName(r)[i] < 128 as char
  {
  }

  /** A message as JSON. */
  function Json(m: Message): Text {
    RoleNamesAreAscii(m.role);
    Ascii("{\"role\":\"") + Ascii(RoleName(m.role)) + Ascii("\",\"content\":\"") + EscapedText(m.content) + Ascii("\"}")
  }

  lemma {:induction false} EscapedTextLength(s: Text)
    ensures |EscapedText(s)| == Escaped(s)
    decreases |s|
  {
    if s != [] {
      RuneLength(s);
      hide EscapedRune, RuneCost, Width;
      EscapedTextLength(s[Width(s)..]);
    }
  }

  lemma RuneLength(s: Text)
    requires s != []
    ensures |EscapedRune(s)| == RuneCost(s)
  {
  }

  /** The cost of a message is the length of its JSON and 32 for framing. */
  lemma CostIsJsonLength(m: Message)
    requires m.role != Other
    ensures Cost(m) == |Json(m)| + 32
  {
    EscapedTextLength(m.content);
    hide EscapedText, Escaped;
  }
}
