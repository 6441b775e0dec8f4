/** `echo5_chatbot_handle_message`, the second handler registered for the
    `echo5_chatbot_send_message` action. It either answers a live-agent request with a
    fixed queue notice, or forwards the message to the completions endpoint with its own
    prompt; each answer it sends back is logged. */
module AjaxHandlers {
  import opened Strings
  import opened Php
  import opened WordPress
  import opened Wrappers
  import opened ChatLog
  import opened Completion

  const LiveAgentReply := "Live support is connecting. Your position in queue: 1\nA representative will be with you shortly."
  const LiveAgentTag := "[LIVE_AGENT_REQUEST] "

  /** `isset($_POST['is_live_agent']) ? (bool) $_POST['is_live_agent'] : false`. */
  predicate IsLiveAgent(post: Value) {
    IsSet(Field(post, "is_live_agent")) && Truthy(Field(post, "is_live_agent"))
  }

  /** The request this handler sends. */
  function AyurvedicRequest(userMessage: string, apiKey: string, faq: string): CompletionRequest {
    CompletionRequest(CompletionsUrl, ChatModel, apiKey, AyurvedicExpert, faq, userMessage, 150, 15)
  }

  /** The handler. The message and name are sanitised without an `isset` test, so a
      missing field is sanitised as null. `apiKey`, `completion`, `insertOk` and `now`
      stand for the option, the endpoint's answer, the insert's outcome and the clock. */
  function HandleMessage(host: Host, post: Value, apiKey: Value, faq: string, completion: HttpResult,
                         insertOk: bool, now: Timestamp, log: LogTable): (o: HandlerOutcome)
    // Live-agent mode answers with the queue notice, reads no key, calls nothing and logs the tagged message.
    ensures IsLiveAgent(post) ==>
              var message := host.sanitizeTextareaField(Field(post, "message"));
              var name := host.sanitizeTextField(Field(post, "user_name"));
              o == HandlerOutcome(Success("reply", LiveAgentReply),
                                  TryInsert(log, insertOk, name, LiveAgentTag + message, LiveAgentReply, now), false, None)
    // Otherwise the key is read; an empty one is refused with nothing sent and nothing logged.
    ensures !IsLiveAgent(post) ==> o.keyRead
    ensures !IsLiveAgent(post) && Empty(apiKey) ==>
              o == HandlerOutcome(Failure("OpenAI API key not configured."), log, true, None)
    ensures !IsLiveAgent(post) && !Empty(apiKey) ==>
              o.request == Some(AyurvedicRequest(host.sanitizeTextareaField(Field(post, "message")), ToStr(apiKey), faq))
    // A transport error is passed on and nothing is logged.
    ensures o.request.Some? && completion.TransportError? ==>
              o.reply == Failure(completion.error.message) && o.log == log
    // Any `error` member wins over the content, whatever the status.
    ensures o.request.Some? && completion.Response? && IsSet(Field(completion.body, "error")) ==>
              o.reply == Failure(ToStr(Field(Field(completion.body, "error"), "message"))) && o.log == log
    // Content is sent back and logged as it came, untrimmed.
    ensures o.request.Some? && completion.Response? && !IsSet(Field(completion.body, "error")) && IsSet(ContentOf(completion.body)) ==>
              var reply := ToStr(ContentOf(completion.body));
              && o.reply == Success("reply", reply)
              && o.log == TryInsert(log, insertOk, host.sanitizeTextField(Field(post, "user_name")),
                                    host.sanitizeTextareaField(Field(post, "message")), reply, now)
    ensures o.request.Some? && completion.Response? && !IsSet(Field(completion.body, "error")) && !IsSet(ContentOf(completion.body)) ==>
              o.reply == Failure("Invalid response from AI") && o.log == log
  {
    var message := host.sanitizeTextareaField(Field(post, "message"));
    var name := host.sanitizeTextField(Field(post, "user_name"));
    if IsLiveAgent(post) then
      HandlerOutcome(Success("reply", LiveAgentReply),
                     TryInsert(log, insertOk, name, LiveAgentTag + message, LiveAgentReply, now), false, None)
    else if Empty(apiKey) then
      HandlerOutcome(Failure("OpenAI API key not configured."), log, true, None)
    else
      var request := Some(AyurvedicRequest(message, ToStr(apiKey), faq));
      match completion
      case TransportError(e) => HandlerOutcome(Failure(e.message), log, true, request)
      case Response(_, body) =>
        if IsSet(Field(body, "error")) then
          HandlerOutcome(Failure(ToStr(Field(Field(body, "error"), "message"))), log, true, request)
        else if IsSet(ContentOf(body)) then
          var reply := ToStr(ContentOf(body));
          HandlerOutcome(Success("reply", reply), TryInsert(log, insertOk, name, message, reply, now), true, request)
        else
          HandlerOutcome(Failure("Invalid response from AI"), log, true, request)
  }

  /** Every reply the user is sent is logged as the row's response, and nothing else is:
      the log grows by one row exactly when the handler succeeds and the insert works. */
  lemma HandleMessageLogging(host: Host, post: Value, apiKey: Value, faq: string, completion: HttpResult,
                             insertOk: bool, now: Timestamp, log: LogTable)
    requires Valid(log)
    ensures var o := HandleMessage(host, post, apiKey, faq, completion, insertOk, now, log);
            && Valid(o.log)
            && o.log.rows[..|log.rows|] == log.rows
            && (o.log != log <==> o.reply.Success? && insertOk)
            && (o.log != log ==> |o.log.rows| == |log.rows| + 1 && LastRow(o.log).response == o.reply.text)
  {
    var o := HandleMessage(host, post, apiKey, faq, completion, insertOk, now, log);
    if o.log != log {
      assert |o.log.rows| == |log.rows| + 1;
    }
    assert log.rows[..|log.rows|] == log.rows;
  }

  /** `(bool) "false"` is true: posting the string `false` turns live-agent mode on. */
  lemma FalseStringMeansLiveAgent(post: Value)
    requires Field(post, "is_live_agent") == Str("false")
    ensures IsLiveAgent(post)
  {
  }

  /** A decoded completion body whose first choice carries `content`. */
  function ReplyBody(content: Value): Value {
    Record([("choices", Arr([(IntKey(0), Record([("message", Record([("content", content)]))]))]))])
  }

  lemma ReplyBodyFields(content: Value)
    ensures ContentOf(ReplyBody(content)) == content
    ensures Field(ReplyBody(content), "error") == Null
  {
    var message := Record([("content", content)]);
    var choice := Record([("message", message)]);
    var choices := Arr([(IntKey(0), choice)]);
    assert Field(message, "content") == content;
    assert Field(choice, "message") == message;
    assert Index(choices, 0) == choice;
    var body := ReplyBody(content);
    assert body.entries == [(StrKey("choices"), choices)];
    assert StrKey("choices") != StrKey("error") by { assert |"choices"| != |"error"|; }
    assert body.entries[1..] == [];
    assert Lookup(body.entries, StrKey("error")) == Lookup(body.entries[1..], StrKey("error")) == Null;
    assert Field(body, "choices") == choices;
  }

  lemma TrimmedHi()
    ensures PhpTrim(" hi ") == "hi"
  {
    assert " hi " == " " + "hi" + " ";
    TrimPadded(" ", "hi", " ", IsTrimSpace);
  }

  /** The two handlers of the action disagree on the same answer. A 500 response that
      still carries content is an error for one and a reply for the other. */
  lemma HandlersDisagreeOnStatus(host: Host, post: Value, apiKey: Value, faq: string, insertOk: bool, now: Timestamp, log: LogTable)
    requires !IsLiveAgent(post) && !Empty(apiKey) && !Empty(Str(PostedMessage(host, post)))
    ensures SendMessage(host, post, apiKey, faq, Response(500, ReplyBody(Str("hi"))), insertOk, now, log).reply
            == Failure("Invalid response from OpenAI.")
    ensures HandleMessage(host, post, apiKey, faq, Response(500, ReplyBody(Str("hi"))), insertOk, now, log).reply
            == Success("reply", "hi")
  {
    ReplyBodyFields(Str("hi"));
  }

  /** Content with surrounding spaces is trimmed by one handler and not by the other. */
  lemma HandlersDisagreeOnSpaces(host: Host, post: Value, apiKey: Value, faq: string, insertOk: bool, now: Timestamp, log: LogTable)
    requires !IsLiveAgent(post) && !Empty(apiKey) && !Empty(Str(PostedMessage(host, post)))
    ensures SendMessage(host, post, apiKey, faq, Response(200, ReplyBody(Str(" hi "))), insertOk, now, log).reply
            == Success("reply", "hi")
    ensures HandleMessage(host, post, apiKey, faq, Response(200, ReplyBody(Str(" hi "))), insertOk, now, log).reply
            == Success("reply", " hi ")
  {
    ReplyBodyFields(Str(" hi "));
    TrimmedHi();
  }
}
