/** The sanitisers of the settings page: the API key and the four appearance options. */
module Settings {
  import opened Strings
  import opened Php
  import opened WordPress
  import opened ChatLog
  import opened Completion

  const DefaultPrimaryColour := "#0073aa"
  const DefaultSecondaryColour := "#e5e5e5"
  const DefaultWelcome := "Hello, <strong>%userName%</strong>! How can I help you? (You can change your name using /name [new_name])"
  const DefaultHeader := "AI Chatbot"

  /** `echo5_chatbot_sanitize_api_key`: the key as a plain text field. */
  function SanitizeApiKey(host: Host, input: Value): string {
    host.sanitizeTextField(input)
  }

  /** What the saved key means to the chat handler: a posted message is sent on exactly
      when the key sanitises to something other than `''` or `"0"`, and the request
      carries the sanitised key, not what was typed. */
  lemma StoredKeyGatesRequest(host: Host, input: Value, post: Value, faq: string, completion: HttpResult,
                              insertOk: bool, now: Timestamp, log: LogTable)
    ensures var key := SanitizeApiKey(host, input);
            var o := SendMessage(host, post, Str(key), faq, completion, insertOk, now, log);
            && (o.request.Some? <==> !Empty(Str(PostedMessage(host, post))) && key != "" && key != "0")
            && (o.request.Some? ==> o.request.value.apiKey == key)
  {
  }

  /** `isset($x) && !empty(trim($x))`: a header text worth keeping. */
  predicate HeaderGiven(v: Value) {
    IsSet(v) && !Empty(Str(PhpTrim(ToStr(v))))
  }

  function PrimaryColour(host: Host, input: Value): Value {
    var v := Field(input, "primary_color");
    if IsSet(v) then host.sanitizeHexColor(v) else Str(DefaultPrimaryColour)
  }

  function SecondaryColour(host: Host, input: Value): Value {
    var v := Field(input, "secondary_color");
    if IsSet(v) then host.sanitizeHexColor(v) else Str(DefaultSecondaryColour)
  }

  function WelcomeMessage(host: Host, input: Value): string {
    var v := Field(input, "welcome_message");
    if IsSet(v) then host.sanitizeTextareaField(v) else DefaultWelcome
  }

  function HeaderText(host: Host, input: Value): string {
    var v := Field(input, "chatbot_header_text");
    if HeaderGiven(v) then host.sanitizeTextField(v) else DefaultHeader
  }

  function AppearanceFields(host: Host, input: Value): seq<(string, Value)> {
    [ ("primary_color", PrimaryColour(host, input)),
      ("secondary_color", SecondaryColour(host, input)),
      ("welcome_message", Str(WelcomeMessage(host, input))),
      ("chatbot_header_text", Str(HeaderText(host, input))) ]
  }

  /** `echo5_chatbot_sanitize_appearance_options`: exactly the four known options, in a
      fixed order; every other key of the input is dropped. */
  function SanitizeAppearanceOptions(host: Host, input: Value): (r: Value)
    ensures r.Arr? && |r.entries| == 4
    ensures KeysOf(r.entries) == {StrKey("primary_color"), StrKey("secondary_color"),
                                  StrKey("welcome_message"), StrKey("chatbot_header_text")}
  {
    var fields := AppearanceFields(host, input);
    RecordKeys(fields);
    assert (set f | f in fields :: StrKey(f.0))
        == {StrKey("primary_color"), StrKey("secondary_color"), StrKey("welcome_message"), StrKey("chatbot_header_text")} by {
      assert fields[0] in fields && fields[1] in fields && fields[2] in fields && fields[3] in fields;
    }
    Record(fields)
  }

  /** What each stored option reads as: the sanitised input when given, else its default.
      The header falls back to the default also when it is blank or `"0"` after trimming. */
  lemma AppearanceValues(host: Host, input: Value)
    ensures var r := SanitizeAppearanceOptions(host, input);
            && Field(r, "primary_color")
               == (if IsSet(Field(input, "primary_color")) then host.sanitizeHexColor(Field(input, "primary_color")) else Str(DefaultPrimaryColour))
            && Field(r, "secondary_color")
               == (if IsSet(Field(input, "secondary_color")) then host.sanitizeHexColor(Field(input, "secondary_color")) else Str(DefaultSecondaryColour))
            && Field(r, "welcome_message")
               == Str(if IsSet(Field(input, "welcome_message")) then host.sanitizeTextareaField(Field(input, "welcome_message")) else DefaultWelcome)
            && Field(r, "chatbot_header_text")
               == Str(if HeaderGiven(Field(input, "chatbot_header_text")) then host.sanitizeTextField(Field(input, "chatbot_header_text")) else DefaultHeader)
  {
    var fields := AppearanceFields(host, input);
    AppearanceNamesDistinct(host, input);
    RecordField(fields, 0);
    RecordField(fields, 1);
    RecordField(fields, 2);
    RecordField(fields, 3);
  }

  lemma AppearanceNamesDistinct(host: Host, input: Value)
    ensures DistinctNames(AppearanceFields(host, input))
  {
    var f := AppearanceFields(host, input);
    assert |f[0].0| == 13 && |f[1].0| == 15 && |f[2].0| == 15 && |f[3].0| == 19;
    assert f[1].0[0] == 's' && f[2].0[0] == 'w';
  }

  /** A header of `"0"` is thrown away, since `empty("0")` holds in PHP. */
  lemma ZeroHeaderFallsBack(host: Host, input: Value)
    requires Field(input, "chatbot_header_text") == Str("0")
    ensures HeaderText(host, input) == DefaultHeader
  {
    var s := "0";
    assert !IsTrimSpace(s[0]);
    assert TrimStart(s, IsTrimSpace) == s;
    assert TrimEnd(s, IsTrimSpace) == s;
  }

  /** Saving the stored options again changes nothing, provided each WordPress helper
      gives back its own output unchanged, the colours were accepted and the header did
      not sanitise to a blank. */
  lemma ResaveIsStable(host: Host, input: Value)
    requires IsSet(PrimaryColour(host, input)) && IsSet(SecondaryColour(host, input))
    requires host.sanitizeHexColor(PrimaryColour(host, input)) == PrimaryColour(host, input)
    requires host.sanitizeHexColor(SecondaryColour(host, input)) == SecondaryColour(host, input)
    requires host.sanitizeTextareaField(Str(WelcomeMessage(host, input))) == WelcomeMessage(host, input)
    requires host.sanitizeTextField(Str(HeaderText(host, input))) == HeaderText(host, input)
    requires !Empty(Str(PhpTrim(HeaderText(host, input))))
    ensures SanitizeAppearanceOptions(host, SanitizeAppearanceOptions(host, input)) == SanitizeAppearanceOptions(host, input)
  {
    var r := SanitizeAppearanceOptions(host, input);
    StoredColoursReadBack(host, input);
    StoredTextsReadBack(host, input);
    assert AppearanceFields(host, r)[2..] == AppearanceFields(host, input)[2..];
    assert AppearanceFields(host, r) == AppearanceFields(host, input);
  }

  lemma StoredColoursReadBack(host: Host, input: Value)
    requires IsSet(PrimaryColour(host, input)) && IsSet(SecondaryColour(host, input))
    requires host.sanitizeHexColor(PrimaryColour(host, input)) == PrimaryColour(host, input)
    requires host.sanitizeHexColor(SecondaryColour(host, input)) == SecondaryColour(host, input)
    ensures var r := SanitizeAppearanceOptions(host, input);
            PrimaryColour(host, r) == PrimaryColour(host, input) && SecondaryColour(host, r) == SecondaryColour(host, input)
  {
    AppearanceValues(host, input);
  }

  lemma StoredTextsReadBack(host: Host, input: Value)
    requires host.sanitizeTextareaField(Str(WelcomeMessage(host, input))) == WelcomeMessage(host, input)
    requires host.sanitizeTextField(Str(HeaderText(host, input))) == HeaderText(host, input)
    requires !Empty(Str(PhpTrim(HeaderText(host, input))))
    ensures var r := SanitizeAppearanceOptions(host, input);
            WelcomeMessage(host, r) == WelcomeMessage(host, input) && HeaderText(host, r) == HeaderText(host, input)
  {
    var r := SanitizeAppearanceOptions(host, input);
    var w, h := WelcomeMessage(host, input), HeaderText(host, input);
    AppearanceValues(host, input);
    assert Field(r, "welcome_message") == Str(w);
    assert WelcomeMessage(host, r) == w;
    assert Field(r, "chatbot_header_text") == Str(h);
    assert HeaderGiven(Str(h));
  }

  /** A header that sanitises to nothing is stored as an empty string, and the next save
      replaces it with the default. */
  lemma BlankHeaderResetsOnResave(host: Host, input: Value)
    requires HeaderGiven(Field(input, "chatbot_header_text"))
    requires host.sanitizeTextField(Field(input, "chatbot_header_text")) == ""
    ensures HeaderText(host, input) == ""
    ensures HeaderText(host, SanitizeAppearanceOptions(host, input)) == DefaultHeader
  {
    AppearanceValues(host, input);
  }
}
