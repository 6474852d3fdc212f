/** GlowBot: the chat's message list, the guard on sending, and the keyword
    and phase based choice of the canned reply. */
module GlowBot {
  import opened CycleContext

  /** The canned replies. Their wording is static copy and is not modelled;
      each constructor names one fixed text. */
  datatype Reply =
    | Greeting
    | AcneLuteal
    | AcneMenstruation
    | AcneOtherPhase
    | RoutineFollicular
    | RoutineOvulation
    | RoutineLuteal
    | RoutineMenstruation
    | HormonalAcne
    | AskForDetails

  /** A chat message: what the user typed, or a canned bot reply. Message
      ids and timestamps come from the clock and are not modelled. */
  datatype Message = UserMessage(content: string) | BotMessage(reply: Reply)

  /** The component's state: the messages, the input box and whether a reply
      is pending. */
  datatype ChatState = ChatState(messages: seq<Message>, input: string, isTyping: bool)

  /** The chat as first shown: the greeting only. */
  const InitialChat: ChatState := ChatState([BotMessage(Greeting)], "", false)

  /** The suggested questions are shown while at most this many messages
      exist. */
  const SuggestionsMessageLimit: nat := 2

  /** The suggested question about hormonal acne. */
  const HormonalAcneQuestion: string := "How can I reduce hormonal acne?"

  /** The characters JavaScript's `String.prototype.trim` removes: the
      whitespace (category Zs, tab, vertical tab, form feed, byte order mark)
      and line terminators. */
  predicate IsWhitespace(c: char) {
    || c in {' ', '\t', '\n', '\r', '\U{000B}', '\U{000C}', '\U{00A0}', '\U{1680}'}
    || c in {'\U{202F}', '\U{205F}', '\U{3000}', '\U{FEFF}', '\U{2028}', '\U{2029}'}
    || ('\U{2000}' <= c <= '\U{200A}')
  }

  /** Drops leading whitespace. */
  function TrimStart(s: string): (r: string)
    ensures |r| <= |s| && r == s[|s| - |r|..]
    ensures r == [] || !IsWhitespace(r[0])
    ensures forall i :: 0 <= i < |s| - |r| ==> IsWhitespace(s[i])
  {
    if s != [] && IsWhitespace(s[0]) then TrimStart(s[1..]) else s
  }

  /** Drops trailing whitespace. */
  function TrimEnd(s: string): (r: string)
    ensures |r| <= |s| && r == s[..|r|]
    ensures r == [] || !IsWhitespace(r[|r| - 1])
    ensures forall i :: |r| <= i < |s| ==> IsWhitespace(s[i])
  {
    if s != [] && IsWhitespace(s[|s| - 1]) then TrimEnd(s[..|s| - 1]) else s
  }

  /** `r` is the part of `s` from index `k` on, with only whitespace cut
      off before it and after it. */
  predicate CutFrom(s: string, r: string, k: int) {
    && 0 <= k && k + |r| <= |s|
    && r == s[k..k + |r|]
    && (forall i :: 0 <= i < k ==> IsWhitespace(s[i]))
    && (forall i :: k + |r| <= i < |s| ==> IsWhitespace(s[i]))
  }

  /** `String.prototype.trim`: whitespace removed from both ends. */
  function Trim(s: string): (r: string)
    ensures r == [] || (!IsWhitespace(r[0]) && !IsWhitespace(r[|r| - 1]))
    ensures exists k :: CutFrom(s, r, k)
  {
    var t := TrimStart(s);
    var k := |s| - |t|;
    var r := TrimEnd(t);
    assert t == s[k..];
    assert r == s[k..k + |r|];
    forall i | k + |r| <= i < |s| ensures IsWhitespace(s[i]) {
      assert s[i] == t[i - k];
    }
    assert CutFrom(s, r, k);
    r
  }

  /** `!content.trim()`: the text is empty once trimmed, which is exactly
      when every character is whitespace. */
  predicate IsBlank(s: string): (blank: bool)
    ensures blank <==> forall i :: 0 <= i < |s| ==> IsWhitespace(s[i])
  {
    Trim(s) == []
  }

  /** `toLowerCase` on one character, ASCII letters only. */
  function LowerChar(c: char): (l: char)
    ensures 'A' <= c <= 'Z' ==> 'a' <= l <= 'z' && l as int - c as int == 32
    ensures !('A' <= c <= 'Z') ==> l == c
  {
    if 'A' <= c <= 'Z' then (c as int + 32) as char else c
  }

  /** `toLowerCase` on a string, ASCII letters only. */
  function ToLower(s: string): (l: string)
    ensures |l| == |s|
    ensures forall i :: 0 <= i < |s| ==> l[i] == LowerChar(s[i])
    ensures forall i :: 0 <= i < |l| ==> !('A' <= l[i] <= 'Z')
  {
    seq(|s|, i requires 0 <= i < |s| => LowerChar(s[i]))
  }

  /** `w` occurs in `s` starting at index `i`. */
  predicate OccursAt(s: string, w: string, i: int) {
    0 <= i && i + |w| <= |s| && s[i..i + |w|] == w
  }

  /** `s.includes(w)`. */
  predicate Contains(s: string, w: string) {
    exists i | 0 <= i <= |s| :: OccursAt(s, w, i)
  }

  /** The message asks about breakouts. */
  predicate MentionsAcne(lower: string) {
    Contains(lower, "breaking out") || Contains(lower, "acne")
  }

  /** The message asks about products or routines. */
  predicate MentionsRoutine(lower: string) {
    Contains(lower, "product") || Contains(lower, "routine")
  }

  /** The message asks about hormones. */
  predicate MentionsHormonal(lower: string) {
    Contains(lower, "hormonal")
  }

  /** The replies of the breakout branch. */
  predicate IsAcneReply(r: Reply) {
    r == AcneLuteal || r == AcneMenstruation || r == AcneOtherPhase
  }

  /** The replies of the product / routine branch. */
  predicate IsRoutineReply(r: Reply) {
    r == RoutineFollicular || r == RoutineOvulation || r == RoutineLuteal || r == RoutineMenstruation
  }

  /** The reply to `content` in `phase`. Keywords are matched on the
      lower-cased text; the breakout keywords take precedence over the
      product keywords, which take precedence over "hormonal", and anything
      else gets a request for details. */
  function SelectReply(content: string, phase: CyclePhase): (r: Reply)
    ensures IsAcneReply(r) <==> MentionsAcne(ToLower(content))
    ensures IsRoutineReply(r) <==>
      !MentionsAcne(ToLower(content)) && MentionsRoutine(ToLower(content))
    ensures r == HormonalAcne <==>
      !MentionsAcne(ToLower(content)) && !MentionsRoutine(ToLower(content))
      && MentionsHormonal(ToLower(content))
    ensures r == AskForDetails <==>
      !MentionsAcne(ToLower(content)) && !MentionsRoutine(ToLower(content))
      && !MentionsHormonal(ToLower(content))
    ensures r != Greeting
    ensures MentionsAcne(ToLower(content)) ==>
      && (r == AcneLuteal <==> phase == Luteal)
      && (r == AcneMenstruation <==> phase == Menstruation)
    ensures !MentionsAcne(ToLower(content)) && MentionsRoutine(ToLower(content)) ==>
      && (r == RoutineFollicular <==> phase == Follicular)
      && (r == RoutineOvulation <==> phase == Ovulation)
      && (r == RoutineLuteal <==> phase == Luteal)
  {
    var lower := ToLower(content);
    if MentionsAcne(lower) then
      if phase == Luteal then AcneLuteal
      else if phase == Menstruation then AcneMenstruation
      else AcneOtherPhase
    else if MentionsRoutine(lower) then
      if phase == Follicular then RoutineFollicular
      else if phase == Ovulation then RoutineOvulation
      else if phase == Luteal then RoutineLuteal
      else RoutineMenstruation
    else if MentionsHormonal(lower) then HormonalAcne
    else AskForDetails
  }

  /** Sending `content`: blank text changes nothing; otherwise the text is
      appended unchanged as a user message, the input is cleared and a reply
      becomes pending. */
  function SendMessage(state: ChatState, content: string): (next: ChatState)
    ensures IsBlank(content) ==> next == state
    ensures !IsBlank(content) ==>
      && next.messages == state.messages + [UserMessage(content)]
      && next.input == ""
      && next.isTyping
  {
    if IsBlank(content) then state
    else state.(messages := state.messages + [UserMessage(content)], input := "", isTyping := true)
  }

  /** The delayed reply to `content` arrives: the chosen reply is appended
      and nothing is pending any more. */
  function ReceiveReply(state: ChatState, content: string, phase: CyclePhase): (next: ChatState)
    ensures next.messages == state.messages + [BotMessage(SelectReply(content, phase))]
    ensures next.input == state.input && !next.isTyping
  {
    state.(messages := state.messages + [BotMessage(SelectReply(content, phase))], isTyping := false)
  }

  /** The suggested questions are shown only while the chat has at most two
      messages. */
  predicate ShowsSuggestions(state: ChatState) {
    |state.messages| <= SuggestionsMessageLimit
  }

  /** What can happen to the chat: the user sends text, or the reply to some
      text arrives in some phase. */
  datatype ChatEvent = Send(content: string) | Answer(content: string, phase: CyclePhase)

  /** The chat after one event. */
  function Step(state: ChatState, ev: ChatEvent): ChatState {
    match ev
    case Send(c) => SendMessage(state, c)
    case Answer(c, ph) => ReceiveReply(state, c, ph)
  }

  /** The chat after the events, applied in order. */
  function Run(state: ChatState, evs: seq<ChatEvent>): ChatState
    decreases |evs|
  {
    if evs == [] then state else Run(Step(state, evs[0]), evs[1..])
  }

  /** The events that add a message: every reply, and every non-blank send. */
  function Accepted(evs: seq<ChatEvent>): (n: nat)
    ensures n <= |evs|
    decreases |evs|
  {
    if evs == [] then 0
    else (if evs[0].Send? && IsBlank(evs[0].content) then 0 else 1) + Accepted(evs[1..])
  }

  /** A chat as the component can show it: the greeting first, and no blank
      user message anywhere. */
  predicate WellFormedChat(state: ChatState) {
    && |state.messages| >= 1
    && state.messages[0] == BotMessage(Greeting)
    && forall i :: 0 <= i < |state.messages| && state.messages[i].UserMessage? ==>
         !IsBlank(state.messages[i].content)
  }

  /** Any sequence of sends and replies keeps the chat well formed, grows it
      by one message per accepted event and never removes one. */
  lemma {:induction false} RunKeepsChatWellFormed(state: ChatState, evs: seq<ChatEvent>)
    requires WellFormedChat(state)
    ensures WellFormedChat(Run(state, evs))
    ensures |Run(state, evs).messages| == |state.messages| + Accepted(evs)
    ensures state.messages <= Run(state, evs).messages
    decreases |evs|
  {
    if evs != [] {
      var next := Step(state, evs[0]);
      StepKeepsChatWellFormed(state, evs[0]);
      RunKeepsChatWellFormed(next, evs[1..]);
    }
  }

  /** One event keeps the chat well formed and adds at most one message. */
  lemma StepKeepsChatWellFormed(state: ChatState, ev: ChatEvent)
    requires WellFormedChat(state)
    ensures WellFormedChat(Step(state, ev))
    ensures |Step(state, ev).messages| == |state.messages| + Accepted([ev])
    ensures state.messages <= Step(state, ev).messages
  {
    var next := Step(state, ev);
    assert Accepted([ev]) == (if ev.Send? && IsBlank(ev.content) then 0 else 1) + Accepted([]);
    if ev.Send? && !IsBlank(ev.content) {
      assert next.messages == state.messages + [UserMessage(ev.content)];
      forall i | 0 <= i < |next.messages| && next.messages[i].UserMessage?
        ensures !IsBlank(next.messages[i].content)
      {
        if i < |state.messages| {
          assert next.messages[i] == state.messages[i];
        }
      }
    } else if ev.Answer? {
      assert next.messages == state.messages + [BotMessage(SelectReply(ev.content, ev.phase))];
      forall i | 0 <= i < |next.messages| && next.messages[i].UserMessage?
        ensures !IsBlank(next.messages[i].content)
      {
        assert i < |state.messages|;
        assert next.messages[i] == state.messages[i];
      }
    }
  }

  /** Starting from the greeting, the suggestions stay visible exactly while
      at most one event has added a message. */
  lemma SuggestionsShownUntilSecondMessage(evs: seq<ChatEvent>)
    ensures ShowsSuggestions(Run(InitialChat, evs)) <==> Accepted(evs) <= 1
  {
    RunKeepsChatWellFormed(InitialChat, evs);
  }

  /** Lower-casing twice is lower-casing once. */
  lemma LowerIsIdempotent(s: string)
    ensures ToLower(ToLower(s)) == ToLower(s)
  {
  }

  /** The reply depends on the text only through its lower-cased form, so
      matching ignores case. */
  lemma ReplyIgnoresCase(content: string, phase: CyclePhase)
    ensures SelectReply(ToLower(content), phase) == SelectReply(content, phase)
  {
    LowerIsIdempotent(content);
  }

  /** The suggested question about hormonal acne gets a breakout reply: the
      breakout keywords are checked before "hormonal". */
  lemma HormonalAcneGetsAcneReply(phase: CyclePhase)
    ensures IsAcneReply(SelectReply(HormonalAcneQuestion, phase))
  {
    var lower := ToLower(HormonalAcneQuestion);
    assert OccursAt(lower, "acne", 26);
  }

  /** In the breakout branch the follicular and ovulation phases share one
      reply; in the product branch menstruation falls to the final case. */
  lemma PhaseSharedReplies(content: string)
    ensures MentionsAcne(ToLower(content)) ==>
      SelectReply(content, Follicular) == SelectReply(content, Ovulation) == AcneOtherPhase
    ensures !MentionsAcne(ToLower(content)) && MentionsRoutine(ToLower(content)) ==>
      SelectReply(content, Menstruation) == RoutineMenstruation
  {
  }

  /** One full exchange from the initial chat: the suggestions stay visible
      after the question is sent and disappear once the reply arrives. */
  lemma {:induction false} SuggestionsHideAfterFirstExchange(content: string, phase: CyclePhase)
    requires !IsBlank(content)
    ensures var sent := SendMessage(InitialChat, content);
      var answered := ReceiveReply(sent, content, phase);
      && ShowsSuggestions(InitialChat)
      && ShowsSuggestions(sent)
      && !ShowsSuggestions(answered)
      && answered.messages == [BotMessage(Greeting), UserMessage(content), BotMessage(SelectReply(content, phase))]
  {
    var sent := SendMessage(InitialChat, content);
    assert sent.messages == [BotMessage(Greeting), UserMessage(content)];
    var reply := SelectReply(content, phase);
    var answered := ReceiveReply(sent, content, phase);
    assert answered.messages == sent.messages + [BotMessage(reply)];
    assert |answered.messages| == 3;
  }
}
