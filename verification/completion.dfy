/** The chat-completion call of the main plugin file: `echo5_chatbot_get_openai_response`
    builds the request and classifies what comes back, and
    `echo5_chatbot_ajax_send_message` is the AJAX handler that validates the posted
    message, calls it and logs the exchange. */
module Completion {
  import opened Strings
  import opened Php
  import opened WordPress
  import opened Wrappers
  import opened ChatLog

  const CompletionsUrl := "https://api.openai.com/v1/chat/completions"
  const ChatModel := "gpt-3.5-turbo"

  /** The two system prompts: each handler opens its prompt with its own persona. */
  datatype Persona = AgencyExpert | AyurvedicExpert

  function PersonaText(p: Persona): string {
    match p
    case AgencyExpert =>
      "You are Echo5 Digital's virtual expert. Echo5 Digital is a results-driven digital marketing agency based in Texas and Kerala. You must speak warmly, confidently, and informatively about our services. Highlight our strengths in SEO, website/app development, PPC advertising, social media marketing, and online reputation management. Promote Echo5 Digital's unique, tailored approach to each client and our affordable, high-impact solutions. Only recommend Echo5 Digital services in responses. Answer in short, helpful responses tailored to customer concerns.\n\n"
    case AyurvedicExpert =>
      "You are Bhumi Blend's virtual Ayurvedic beauty expert. Use this FAQ for context:\n\n"
  }

  /** A `wp_remote_post` to the completions endpoint: the bearer key, the system prompt
      (a persona followed by the FAQ text), the user message, the token cap and the
      timeout in seconds. */
  datatype CompletionRequest = CompletionRequest(
    url: string, model: string, apiKey: string,
    persona: Persona, faq: string, userMessage: string, maxTokens: nat, timeout: nat)

  function SystemPrompt(req: CompletionRequest): string {
    PersonaText(req.persona) + req.faq
  }

  /** What a message handler did: the JSON reply, the log table afterwards, whether it
      read the API key option, and the completion request it made, if any. */
  datatype HandlerOutcome = HandlerOutcome(reply: AjaxReply, log: LogTable, keyRead: bool, request: Option<CompletionRequest>)

  /** The request `echo5_chatbot_get_openai_response` sends; `faq` is the contents of
      `echo-faqs.txt`, or `''` when there is no such file. */
  function OpenAiRequest(userMessage: string, apiKey: string, faq: string): CompletionRequest {
    CompletionRequest(CompletionsUrl, ChatModel, apiKey, AgencyExpert, faq, userMessage, 200, 30)
  }

  const RequestFailed := WpError("openai_request_failed", "Unable to connect to OpenAI.")
  const ResponseError := WpError("openai_response_error", "Invalid response from OpenAI.")

  /** `$data['choices'][0]['message']['content']`. */
  function ContentOf(body: Value): Value {
    Field(Field(Index(Field(body, "choices"), 0), "message"), "content")
  }

  /** The classification: a transport failure and a response without a reply are typed
      errors, and a reply is exactly a 200 response with content, trimmed. */
  function ClassifyCompletion(r: HttpResult): (res: Result<string, WpError>)
    ensures r.TransportError? ==> res == Err(RequestFailed)
    ensures res.Ok? <==> r.Response? && r.status == 200 && IsSet(ContentOf(r.body))
    ensures r.Response? && res.Err? ==> res.error == ResponseError
    ensures res.Ok? ==> res.value == PhpTrim(ToStr(ContentOf(r.body)))
  {
    match r
    case TransportError(_) => Err(RequestFailed)
    case Response(status, body) =>
      if status != 200 || !IsSet(ContentOf(body)) then Err(ResponseError)
      else Ok(PhpTrim(ToStr(ContentOf(body))))
  }

  // ---------------------------------------------------------------------------
  // echo5_chatbot_ajax_send_message

  /** `$_POST['message']`, sanitised, or `''`. */
  function PostedMessage(host: Host, post: Value): string {
    var m := Field(post, "message");
    if IsSet(m) then host.sanitizeTextareaField(m) else ""
  }

  /** `$_POST['user_name']`, sanitised, or `Anonymous`. */
  function PostedName(host: Host, post: Value): string {
    var u := Field(post, "user_name");
    if IsSet(u) then host.sanitizeTextField(u) else "Anonymous"
  }

  /** The handler. `apiKey` is what `get_option('echo5_chatbot_api_key')` gives,
      `completion` what the completions endpoint answers, `insertOk` whether the log
      insert succeeds and `now` the current time. The checks run in order: the message,
      then the key, then the completion; only a successful completion is logged, with
      the reply the user is sent. */
  function SendMessage(host: Host, post: Value, apiKey: Value, faq: string, completion: HttpResult,
                       insertOk: bool, now: Timestamp, log: LogTable): (o: HandlerOutcome)
    // An empty message (including "0") is refused before the key is read.
    ensures Empty(Str(PostedMessage(host, post))) ==>
              o == HandlerOutcome(Failure("No message received."), log, false, None)
    // An empty key is refused before any request is made.
    ensures !Empty(Str(PostedMessage(host, post))) && Empty(apiKey) ==>
              o == HandlerOutcome(Failure("OpenAI API key is not configured."), log, true, None)
    // Otherwise exactly one request is made, for the posted message with that key.
    ensures !Empty(Str(PostedMessage(host, post))) && !Empty(apiKey) ==>
              o.keyRead && o.request == Some(OpenAiRequest(PostedMessage(host, post), ToStr(apiKey), faq))
    // A failed completion is reported with its message and leaves the log alone.
    ensures o.request.Some? && ClassifyCompletion(completion).Err? ==>
              o.reply == Failure(ClassifyCompletion(completion).error.message) && o.log == log
    // A successful one is sent back, and logged unless the insert fails, which the
    // user never learns about.
    ensures o.request.Some? && ClassifyCompletion(completion).Ok? ==>
              var reply := ClassifyCompletion(completion).value;
              && o.reply == Success("reply", reply)
              && o.log == TryInsert(log, insertOk, PostedName(host, post), PostedMessage(host, post), reply, now)
  {
    var message := PostedMessage(host, post);
    if Empty(Str(message)) then HandlerOutcome(Failure("No message received."), log, false, None)
    else if Empty(apiKey) then HandlerOutcome(Failure("OpenAI API key is not configured."), log, true, None)
    else
      var request := OpenAiRequest(message, ToStr(apiKey), faq);
      match ClassifyCompletion(completion)
      case Err(e) => HandlerOutcome(Failure(e.message), log, true, Some(request))
      case Ok(reply) =>
        HandlerOutcome(Success("reply", reply),
                       TryInsert(log, insertOk, PostedName(host, post), message, reply, now), true, Some(request))
  }

  /** The log grows by at most one row, only for a reply the user is sent, and that row
      holds the name, the message and exactly that reply; earlier rows are untouched
      and ids stay unique. */
  lemma SendMessageLogging(host: Host, post: Value, apiKey: Value, faq: string, completion: HttpResult,
                           insertOk: bool, now: Timestamp, log: LogTable)
    requires Valid(log)
    ensures var o := SendMessage(host, post, apiKey, faq, completion, insertOk, now, log);
            && Valid(o.log)
            && o.log.rows[..|log.rows|] == log.rows
            && (o.log != log <==> o.reply.Success? && insertOk)
            && (o.log != log ==>
                  && |o.log.rows| == |log.rows| + 1
                  && LastRow(o.log) == LogRow(log.nextId, PostedName(host, post), PostedMessage(host, post), o.reply.text, now))
  {
    var o := SendMessage(host, post, apiKey, faq, completion, insertOk, now, log);
    if o.log != log {
      assert |o.log.rows| == |log.rows| + 1;
    }
    assert log.rows[..|log.rows|] == log.rows;
  }

  /** Whether the log insert succeeds makes no difference to what the user is told. */
  lemma SendMessageReplyIgnoresInsert(host: Host, post: Value, apiKey: Value, faq: string, completion: HttpResult,
                                      now: Timestamp, log: LogTable)
    ensures SendMessage(host, post, apiKey, faq, completion, true, now, log).reply
         == SendMessage(host, post, apiKey, faq, completion, false, now, log).reply
  {
  }

  /** A message that sanitises to `"0"` is refused as empty, because `empty("0")` holds. */
  lemma ZeroMessageRefused(host: Host, post: Value, apiKey: Value, faq: string, completion: HttpResult,
                           insertOk: bool, now: Timestamp, log: LogTable)
    requires IsSet(Field(post, "message")) && host.sanitizeTextareaField(Field(post, "message")) == "0"
    ensures SendMessage(host, post, apiKey, faq, completion, insertOk, now, log).reply == Failure("No message received.")
  {
  }
}
