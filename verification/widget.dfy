/** The front-end chat widget: minimise and maximise, the live-agent toggle with its
    poll, the name prompt, sending a message and showing the reply. Each event handler
    is one atomic step; timers are handles in a set of active ones. */
module Widget {
  import opened Strings
  import opened WordPress
  import opened Wrappers

  // ---------------------------------------------------------------------------
  // Pure helpers

  /** The characters `String.prototype.trim` removes: white space and line terminators. */
  predicate IsJsSpace(c: char) {
    || c == ' ' || c == '\t' || c == '\n' || c == '\U{B}' || c == '\U{C}' || c == '\r'
    || c == '\U{A0}' || c == '\U{1680}' || ('\U{2000}' <= c <= '\U{200A}')
    || c == '\U{2028}' || c == '\U{2029}' || c == '\U{202F}' || c == '\U{205F}'
    || c == '\U{3000}' || c == '\U{FEFF}'
  }

  function JsTrimStart(s: string): string {
    if |s| > 0 && IsJsSpace(s[0]) then JsTrimStart(s[1..]) else s
  }

  function JsTrimEnd(s: string): string {
    if |s| > 0 && IsJsSpace(s[|s| - 1]) then JsTrimEnd(s[..|s| - 1]) else s
  }

  /** `String.prototype.trim`. */
  function JsTrim(s: string): string {
    JsTrimEnd(JsTrimStart(s))
  }

  lemma {:induction false} JsTrimStartIsTrimStart(s: string)
    ensures JsTrimStart(s) == TrimStart(s, IsJsSpace)
  {
    if |s| > 0 && IsJsSpace(s[0]) {
      JsTrimStartIsTrimStart(s[1..]);
    }
  }

  lemma {:induction false} JsTrimEndIsTrimEnd(s: string)
    ensures JsTrimEnd(s) == TrimEnd(s, IsJsSpace)
  {
    if |s| > 0 && IsJsSpace(s[|s| - 1]) {
      JsTrimEndIsTrimEnd(s[..|s| - 1]);
    }
  }

  /** The widget's trim is the shared trim with JavaScript's white space, so what
      `TrimShape` and `TrimIdempotent` say holds for it: only white space is cut, from
      both ends, and trimming again changes nothing. */
  lemma JsTrimIsTrim(s: string)
    ensures JsTrim(s) == Trim(s, IsJsSpace)
  {
    JsTrimStartIsTrimStart(s);
    JsTrimEndIsTrimEnd(JsTrimStart(s));
  }

  /** A typed text is ignored exactly when it is all white space. */
  lemma JsTrimEmptyIff(s: string)
    ensures JsTrim(s) == "" <==> AllIn(s, IsJsSpace)
  {
    JsTrimIsTrim(s);
    TrimEmptyIff(s, IsJsSpace);
  }

  const Placeholder := "%userName%"

  /** `getPersonalizedMessage` as intended: every occurrence of the placeholder, found
      left to right without overlap, replaced by the name taken literally. */
  function Personalize(t: string, name: string): string
    decreases |t|
  {
    if t == [] then []
    else if HasPrefix(t, Placeholder) then name + Personalize(t[|Placeholder|..], name)
    else [t[0]] + Personalize(t[1..], name)
  }

  /** A template without the placeholder is shown as it is. */
  lemma {:induction false} PersonalizeWithoutPlaceholder(t: string, name: string)
    requires forall i: nat :: !OccursAt(t, Placeholder, i)
    ensures Personalize(t, name) == t
    decreases |t|
  {
    if t != [] {
      assert !HasPrefix(t, Placeholder) by { assert !OccursAt(t, Placeholder, 0); }
      forall i: nat ensures !OccursAt(t[1..], Placeholder, i) {
        assert !OccursAt(t, Placeholder, i + 1);
        if i + |Placeholder| <= |t| - 1 {
          assert t[1..][i..i + |Placeholder|] == t[i + 1..i + 1 + |Placeholder|];
        }
      }
      PersonalizeWithoutPlaceholder(t[1..], name);
    }
  }

  /** The first placeholder is replaced by the name, the text before it is kept as it is,
      and the rest of the template is personalised in turn. */
  lemma {:induction false} PersonalizeFirst(a: string, b: string, name: string)
    requires forall i: nat :: i < |a| ==> !OccursAt(a + Placeholder + b, Placeholder, i)
    ensures Personalize(a + Placeholder + b, name) == a + name + Personalize(b, name)
    decreases |a|
  {
    var t := a + Placeholder + b;
    if a == [] {
      assert t == Placeholder + b;
      assert HasPrefix(t, Placeholder) && t[|Placeholder|..] == b;
    } else {
      assert !HasPrefix(t, Placeholder) by { assert !OccursAt(t, Placeholder, 0); }
      assert t[1..] == a[1..] + Placeholder + b;
      forall i: nat | i < |a[1..]| ensures !OccursAt(a[1..] + Placeholder + b, Placeholder, i) {
        assert !OccursAt(t, Placeholder, i + 1);
        assert t[1..][i..i + |Placeholder|] == t[i + 1..i + 1 + |Placeholder|];
      }
      PersonalizeFirst(a[1..], b, name);
      assert t[0] == a[0];
      assert [a[0]] + (a[1..] + name + Personalize(b, name)) == a + name + Personalize(b, name);
    }
  }

  /** The replacement text `String.prototype.replace` actually inserts for the match at
      `pos`: `$$` is a dollar, `$&` the match, `` $` `` the text before it and `$'` the
      text after it; any other `$` is kept. */
  function Expand(rep: string, t: string, pos: nat): string
    requires pos + |Placeholder| <= |t|
    decreases |rep|
  {
    if |rep| >= 2 && rep[0] == '$' && rep[1] == '$' then "$" + Expand(rep[2..], t, pos)
    else if |rep| >= 2 && rep[0] == '$' && rep[1] == '&' then Placeholder + Expand(rep[2..], t, pos)
    else if |rep| >= 2 && rep[0] == '$' && rep[1] == '`' then t[..pos] + Expand(rep[2..], t, pos)
    else if |rep| >= 2 && rep[0] == '$' && rep[1] == '\'' then t[pos + |Placeholder|..] + Expand(rep[2..], t, pos)
    else if rep == [] then []
    else [rep[0]] + Expand(rep[1..], t, pos)
  }

  function JsReplaceFrom(t: string, i: nat, name: string): string
    requires i <= |t|
    decreases |t| - i
  {
    if i == |t| then []
    else if OccursAt(t, Placeholder, i) then Expand(name, t, i) + JsReplaceFrom(t, i + |Placeholder|, name)
    else [t[i]] + JsReplaceFrom(t, i + 1, name)
  }

  /** `template.replace(/%userName%/g, name)` as written: the name is a replacement
      pattern, so its `$` sequences are interpreted. */
  function JsPersonalize(t: string, name: string): string {
    JsReplaceFrom(t, 0, name)
  }

  predicate DollarFree(s: string) {
    forall i :: 0 <= i < |s| ==> s[i] != '$'
  }

  lemma {:induction false} ExpandDollarFree(rep: string, t: string, pos: nat)
    requires pos + |Placeholder| <= |t| && DollarFree(rep)
    ensures Expand(rep, t, pos) == rep
    decreases |rep|
  {
    if rep != [] {
      assert rep[0] != '$';
      assert DollarFree(rep[1..]) by { forall i | 0 <= i < |rep| - 1 ensures rep[1..][i] != '$' { assert rep[i + 1] != '$'; } }
      ExpandDollarFree(rep[1..], t, pos);
    }
  }

  lemma {:induction false} JsReplaceFromDollarFree(t: string, i: nat, name: string)
    requires i <= |t| && DollarFree(name)
    ensures JsReplaceFrom(t, i, name) == Personalize(t[i..], name)
    decreases |t| - i
  {
    if i < |t| {
      var s := t[i..];
      if OccursAt(t, Placeholder, i) {
        ExpandDollarFree(name, t, i);
        JsReplaceFromDollarFree(t, i + |Placeholder|, name);
        assert HasPrefix(s, Placeholder) && s[|Placeholder|..] == t[i + |Placeholder|..];
      } else {
        JsReplaceFromDollarFree(t, i + 1, name);
        if |Placeholder| <= |s| {
          assert s[..|Placeholder|] == t[i..i + |Placeholder|];
        }
        assert s[1..] == t[i + 1..] && s[0] == t[i];
      }
    }
  }

  /** For a name without `$` the code as written does what was intended. */
  lemma JsPersonalizeAgrees(t: string, name: string)
    requires DollarFree(name)
    ensures JsPersonalize(t, name) == Personalize(t, name)
  {
    JsReplaceFromDollarFree(t, 0, name);
    assert t[0..] == t;
  }

  /** A user who calls themselves `$&` is greeted with the raw placeholder instead of
      their name. */
  lemma DollarAmpersandName()
    ensures JsPersonalize(Placeholder, "$&") == Placeholder
    ensures Personalize(Placeholder, "$&") == "$&"
  {
    var t := Placeholder;
    assert OccursAt(t, Placeholder, 0);
    var e := Expand("$&", t, 0);
    assert "$&"[2..] == [];
    assert e == Placeholder + Expand([], t, 0);
    assert JsReplaceFrom(t, |Placeholder|, "$&") == [];
    assert HasPrefix(t, Placeholder) && t[|Placeholder|..] == [];
  }

  /** `calculateTypingDelay`: 500 ms plus 25 ms per character, at most 3000 ms. */
  function TypingDelay(length: nat): (d: nat)
    ensures 500 <= d <= 3000
    ensures d <= 500 + 25 * length
    ensures d == 3000 || d == 500 + 25 * length
  {
    if 500 + 25 * length < 3000 then 500 + 25 * length else 3000
  }

  /** Longer replies never wait less. */
  lemma TypingDelayMonotone(a: nat, b: nat)
    requires a <= b
    ensures TypingDelay(a) <= TypingDelay(b)
  {
  }

  /** The text shown after a failed request. */
  function ErrorText(message: string): (r: string)
    ensures HasPrefix(r, "Error: ")
    ensures message != "" ==> r == "Error: " + message
    ensures message == "" ==> r == "Error: Something went wrong"
  {
    assert ("Error: " + message)[..7] == "Error: ";
    assert ("Error: Something went wrong")[..7] == "Error: ";
    "Error: " + (if message != "" then message else "Something went wrong")
  }

  const ConnectionErrorText := "Error: Could not connect to the server."

  /** The outcome of the `jQuery.ajax` call: the JSON reply, or a rejected promise. */
  datatype ReplyOutcome = Answered(reply: AjaxReply) | Unreachable

  /** What the reply adds to the conversation and how long the widget waits first. A
      success whose data has no `reply` makes `calculateTypingDelay` throw outside live
      mode, which lands in the `catch`. */
  function ReplyEffect(outcome: ReplyOutcome, liveAgent: bool): (r: (Option<string>, nat))
    ensures outcome.Answered? && outcome.reply.Success? && liveAgent ==> r == (None, 0)
    ensures outcome.Answered? && outcome.reply.Success? && outcome.reply.field == "reply" && !liveAgent ==>
              r == (Some(outcome.reply.text), TypingDelay(|outcome.reply.text|))
    ensures outcome.Answered? && outcome.reply.Failure? ==> r == (Some(ErrorText(outcome.reply.message)), 0)
    ensures !(outcome.Answered? && outcome.reply.Success? && (liveAgent || outcome.reply.field == "reply")) ==>
              r.0.Some? && HasPrefix(r.0.value, "Error: ") && r.1 == 0
    ensures (outcome.Unreachable? || (outcome.reply.Success? && !liveAgent && outcome.reply.field != "reply")) ==>
              r == (Some(ConnectionErrorText), 0)
  {
    assert HasPrefix(ConnectionErrorText, "Error: ") by { assert ConnectionErrorText[..7] == "Error: "; }
    match outcome
    case Unreachable => (Some(ConnectionErrorText), 0)
    case Answered(Failure(m)) => (Some(ErrorText(m)), 0)
    case Answered(Success(field, text)) =>
      if liveAgent then (None, 0)
      else if field == "reply" then (Some(text), TypingDelay(|text|))
      else (Some(ConnectionErrorText), 0)
  }

  // ---------------------------------------------------------------------------
  // The widget

  /** A message bubble: the user's, under their name, or the bot's, always labelled
      "Live Support". */
  datatype Bubble = UserBubble(name: string, text: string) | BotBubble(text: string)

  /** The data of an `echo5_chatbot_send_message` request. */
  datatype ChatRequest = ChatRequest(message: string, userName: string, isLiveAgent: bool, sessionId: string)

  /** The bubble a handler adds, if any. */
  function Shown(text: Option<string>): seq<Bubble> {
    if text.Some? then [BotBubble(text.value)] else []
  }

  const ConnectingText := "Connecting to live agent..."
  const BackToAiText := "Switching back to AI assistant mode."

  /** Everything the widget's handlers change, in one value. */
  datatype WidgetState = WidgetState(
    isMinimized: bool,
    autoMaximizePending: bool,
    isLiveAgent: bool,
    pollHandle: Option<nat>,
    activePolls: set<nat>,
    nextHandle: nat,
    userName: string,
    storedName: string,
    namePromptShown: bool,
    inputEnabled: bool,
    typingShown: bool,
    awaitingReply: bool,
    bubbles: seq<Bubble>,
    requests: seq<ChatRequest>)

  class ChatWidget {
    var isMinimized: bool
    /** The four-second timer that opens the widget on its own. */
    var autoMaximizePending: bool
    var isLiveAgent: bool
    /** `checkResponsesInterval`: the last poll handle, or none yet. */
    var pollHandle: Option<nat>
    /** The intervals still running. */
    var activePolls: set<nat>
    var nextHandle: nat
    var userName: string
    /** `localStorage['echo5_user_name']`. */
    var storedName: string
    var namePromptShown: bool
    var inputEnabled: bool
    var typingShown: bool
    /** A send request whose reply has not been handled yet. */
    var awaitingReply: bool
    var bubbles: seq<Bubble>
    var requests: seq<ChatRequest>
    const sessionId: string
    const welcomeTemplate: string
    const welcomeBackTemplate: string

    function State(): WidgetState
      reads this
    {
      WidgetState(isMinimized, autoMaximizePending, isLiveAgent, pollHandle, activePolls, nextHandle,
                  userName, storedName, namePromptShown, inputEnabled, typingShown, awaitingReply,
                  bubbles, requests)
    }

    /** At most one poll runs, and it is the one the handle names. */
    predicate Valid()
      reads this
    {
      && activePolls <= (if pollHandle.Some? then {pollHandle.value} else {})
      && (pollHandle.Some? ==> 1 <= pollHandle.value < nextHandle)
      && nextHandle >= 1
    }

    /** The script's start-up variables and the markup's starting state: the name prompt
        shown, the message input and Send button disabled (the DOM is taken to be complete). */
    constructor (storedName: string, sessionId: string, welcomeTemplate: string, welcomeBackTemplate: string)
      ensures Valid()
      ensures this.sessionId == sessionId && this.welcomeTemplate == welcomeTemplate
      ensures this.welcomeBackTemplate == welcomeBackTemplate
      ensures State() == WidgetState(true, false, false, None, {}, 1, storedName, storedName,
                                     true, false, false, false, [], [])
    {
      this.storedName := storedName;
      userName := storedName;
      this.sessionId := sessionId;
      this.welcomeTemplate := welcomeTemplate;
      this.welcomeBackTemplate := welcomeBackTemplate;
      isMinimized := true;
      autoMaximizePending := false;
      isLiveAgent := false;
      pollHandle := None;
      activePolls := {};
      nextHandle := 1;
      namePromptShown := true;
      inputEnabled := false;
      typingShown := false;
      awaitingReply := false;
      bubbles := [];
      requests := [];
    }

    /** `minimizeChat`. */
    method Minimize()
      modifies this
      ensures State() == old(State()).(isMinimized := true, autoMaximizePending := false)
    {
      isMinimized := true;
      autoMaximizePending := false;
    }

    /** `maximizeChat`. */
    method Maximize()
      modifies this
      ensures State() == old(State()).(isMinimized := false, autoMaximizePending := false)
    {
      isMinimized := false;
      autoMaximizePending := false;
    }

    /** A click on the minimised container (or its header) opens it. */
    method ClickContainer()
      modifies this
      ensures old(isMinimized) ==> State() == old(State()).(isMinimized := false, autoMaximizePending := false)
      ensures !old(isMinimized) ==> State() == old(State())
    {
      if isMinimized {
        Maximize();
      }
    }

    /** The auto-maximise timer firing; once cleared it never fires. */
    method AutoMaximizeFires()
      requires autoMaximizePending
      modifies this
      ensures State() == old(State()).(isMinimized := false, autoMaximizePending := false)
    {
      Maximize();
    }

    /** `initializeChat`: without a stored name the input is disabled and the prompt shown;
        with one, the input is enabled and the welcome-back message shown. Either way the
        widget starts minimised with the auto-maximise timer armed. */
    method InitializeChat()
      modifies this
      ensures old(userName) == "" ==>
                State() == old(State()).(isMinimized := true, autoMaximizePending := true,
                                         namePromptShown := true, inputEnabled := false)
      ensures old(userName) != "" ==>
                State() == old(State()).(isMinimized := true, autoMaximizePending := true,
                                         namePromptShown := false, inputEnabled := true,
                                         bubbles := old(bubbles) + [BotBubble(JsPersonalize(welcomeBackTemplate, old(userName)))])
    {
      if userName == "" {
        namePromptShown := true;
        inputEnabled := false;
      } else {
        namePromptShown := false;
        inputEnabled := true;
        bubbles := bubbles + [BotBubble(JsPersonalize(welcomeBackTemplate, userName))];
      }
      Minimize();
      autoMaximizePending := true;
    }

    /** `startCheckingResponses`: clears the previous interval, if any, and starts a new one. */
    method StartPolling()
      requires Valid()
      modifies this
      ensures Valid()
      ensures State() == old(State()).(pollHandle := Some(old(nextHandle)), activePolls := {old(nextHandle)},
                                       nextHandle := old(nextHandle) + 1)
    {
      if pollHandle.Some? {
        activePolls := activePolls - {pollHandle.value};
      }
      pollHandle := Some(nextHandle);
      activePolls := activePolls + {nextHandle};
      nextHandle := nextHandle + 1;
    }

    /** The live-agent toggle's click handler. Switching off clears the interval but keeps
        its handle. */
    method ToggleLiveAgent()
      requires Valid()
      modifies this
      ensures Valid()
      ensures !old(isLiveAgent) ==>
                State() == old(State()).(isLiveAgent := true, bubbles := old(bubbles) + [BotBubble(ConnectingText)],
                                         pollHandle := Some(old(nextHandle)), activePolls := {old(nextHandle)},
                                         nextHandle := old(nextHandle) + 1)
      ensures old(isLiveAgent) ==>
                State() == old(State()).(isLiveAgent := false, bubbles := old(bubbles) + [BotBubble(BackToAiText)],
                                         activePolls := {})
    {
      if !isLiveAgent {
        isLiveAgent := true;
        bubbles := bubbles + [BotBubble(ConnectingText)];
        StartPolling();
      } else {
        isLiveAgent := false;
        bubbles := bubbles + [BotBubble(BackToAiText)];
        // clearInterval(checkResponsesInterval): under Valid() that is the only poll running
        activePolls := {};
      }
    }

    /** The name prompt's submit: a name that is blank after trimming is ignored. */
    method SubmitName(typed: string)
      modifies this
      ensures JsTrim(typed) == "" ==> State() == old(State())
      ensures JsTrim(typed) != "" ==>
                State() == old(State()).(userName := JsTrim(typed), storedName := JsTrim(typed),
                                         namePromptShown := false, inputEnabled := true,
                                         bubbles := old(bubbles) + [BotBubble(JsPersonalize(welcomeTemplate, JsTrim(typed)))])
    {
      var name := JsTrim(typed);
      if name != "" {
        userName := name;
        storedName := name;
        namePromptShown := false;
        inputEnabled := true;
        bubbles := bubbles + [BotBubble(JsPersonalize(welcomeTemplate, name))];
      }
    }

    /** `sendMessage` up to the `await`: a message that is blank after trimming does
        nothing; any other is shown, the input disabled and the request sent. */
    method SendMessage(typed: string)
      modifies this
      ensures JsTrim(typed) == "" ==> State() == old(State())
      ensures JsTrim(typed) != "" ==>
                State() == old(State()).(inputEnabled := false, typingShown := true, awaitingReply := true,
                                         bubbles := old(bubbles) + [UserBubble(old(userName), JsTrim(typed))],
                                         requests := old(requests) + [ChatRequest(JsTrim(typed), old(userName), old(isLiveAgent), sessionId)])
    {
      var message := JsTrim(typed);
      if message == "" {
        return;
      }
      bubbles := bubbles + [UserBubble(userName, message)];
      inputEnabled := false;
      typingShown := true;
      awaitingReply := true;
      requests := requests + [ChatRequest(message, userName, isLiveAgent, sessionId)];
    }

    /** `sendMessage` after the `await`: the typing indicator goes, the reply or the error
        is shown, and the input is enabled again on every outcome. `delay` is the wait
        before the reply appears. */
    method ReceiveReply(outcome: ReplyOutcome) returns (delay: nat)
      requires awaitingReply
      modifies this
      ensures delay == ReplyEffect(outcome, isLiveAgent).1
      ensures State() == old(State()).(inputEnabled := true, typingShown := false, awaitingReply := false,
                                       bubbles := old(bubbles) + Shown(ReplyEffect(outcome, old(isLiveAgent)).0))
    {
      var effect := ReplyEffect(outcome, isLiveAgent);
      delay := effect.1;
      typingShown := false;
      bubbles := bubbles + Shown(effect.0);
      inputEnabled := true;
      awaitingReply := false;
    }
  }
}
