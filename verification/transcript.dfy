/** `echo5_chatbot_ajax_send_chat_transcript`: the conversation the widget posts when a
    chat ends is normalised item by item, rendered as an HTML list and mailed to the
    site administrator. */
module Transcript {
  import opened Php
  import opened WordPress
  import opened Wrappers

  /** One normalised message; every field is a string after normalisation. */
  datatype ChatMessage = ChatMessage(sender: string, name: string, text: string, timestamp: string)

  /** The `wp_mail` call: recipient, subject, HTML body and headers. */
  datatype Mail = Mail(to: Value, subject: string, body: string, headers: seq<string>)

  const HtmlHeader := "Content-Type: text/html; charset=UTF-8"

  // ---------------------------------------------------------------------------
  // Normalisation

  /** Fills in one posted item: each field is sanitised when present, else defaulted. */
  function NormaliseItem(host: Host, item: Value): ChatMessage {
    var sender := Field(item, "sender");
    var name := Field(item, "name");
    var text := Field(item, "text");
    var timestamp := Field(item, "timestamp");
    ChatMessage(
      if IsSet(sender) then host.sanitizeTextField(sender) else "unknown",
      if IsSet(name) then host.sanitizeTextField(name) else "Unknown",
      if IsSet(text) then host.sanitizeTextareaField(text) else "",
      if IsSet(timestamp) then host.sanitizeTextField(timestamp) else "")
  }

  /** The posted `conversation` when it is an array, else nothing. */
  function RawItems(post: Value): seq<Value> {
    var c := Field(post, "conversation");
    if c.Arr? then Items(c) else []
  }

  /** The items that are arrays, in order. */
  function ArrayItems(items: seq<Value>): (r: seq<Value>)
    ensures |r| <= |items|
    ensures forall k :: 0 <= k < |r| ==> r[k].Arr?
  {
    if items == [] then []
    else
      var last := items[|items| - 1];
      ArrayItems(items[..|items| - 1]) + (if last.Arr? then [last] else [])
  }

  /** What the `foreach` leaves in `$conversation` after visiting `items`. */
  function Normalised(host: Host, items: seq<Value>): seq<ChatMessage> {
    if items == [] then []
    else
      var last := items[|items| - 1];
      Normalised(host, items[..|items| - 1]) + (if last.Arr? then [NormaliseItem(host, last)] else [])
  }

  /** The normalisation `foreach`. */
  method NormaliseConversation(host: Host, items: seq<Value>) returns (conversation: seq<ChatMessage>)
    ensures conversation == Normalised(host, items)
  {
    conversation := [];
    var i := 0;
    while i < |items|
      invariant 0 <= i <= |items|
      invariant conversation == Normalised(host, items[..i])
    {
      assert items[..i + 1][..i] == items[..i];
      if items[i].Arr? {
        conversation := conversation + [NormaliseItem(host, items[i])];
      }
      i := i + 1;
    }
    assert items[..i] == items;
  }

  /** Normalisation maps every array item, in order, and nothing else. */
  lemma {:induction false} NormalisedIsMapOfArrayItems(host: Host, items: seq<Value>)
    ensures |Normalised(host, items)| == |ArrayItems(items)|
    ensures forall i :: 0 <= i < |ArrayItems(items)| ==>
              Normalised(host, items)[i] == NormaliseItem(host, ArrayItems(items)[i])
  {
    if items != [] {
      NormalisedIsMapOfArrayItems(host, items[..|items| - 1]);
    }
  }

  /** Where each kept item sits in the input. */
  function ArrayPositions(items: seq<Value>): seq<nat> {
    if items == [] then []
    else
      var n := |items| - 1;
      ArrayPositions(items[..n]) + (if items[n].Arr? then [n] else [])
  }

  /** The kept items sit at strictly increasing input positions, each an array, and every
      array position is among them, so the order of the input is kept and exactly the
      non-arrays are skipped. */
  lemma {:induction false} ArrayPositionsSpec(items: seq<Value>)
    ensures var ps := ArrayPositions(items); |ps| == |ArrayItems(items)|
    ensures var ps := ArrayPositions(items);
            forall k :: 0 <= k < |ps| ==> ps[k] < |items| && items[ps[k]] == ArrayItems(items)[k]
    ensures var ps := ArrayPositions(items); forall k, l :: 0 <= k < l < |ps| ==> ps[k] < ps[l]
    ensures var ps := ArrayPositions(items); forall j :: 0 <= j < |items| && items[j].Arr? ==> j in ps
  {
    if items != [] {
      var n := |items| - 1;
      var front := items[..n];
      ArrayPositionsSpec(front);
      var ps := ArrayPositions(front);
      var kept := ArrayItems(front);
      var r := ArrayPositions(items);
      assert r == ps + (if items[n].Arr? then [n] else []);
      assert ArrayItems(items) == kept + (if items[n].Arr? then [items[n]] else []);
      forall k | 0 <= k < |ps| ensures r[k] == ps[k] && items[ps[k]] == front[ps[k]] { }
      forall j | 0 <= j < n ensures items[j] == front[j] { }
    }
  }

  /** Each kept item gets the defaults for the fields it lacks. */
  lemma NormaliseItemDefaults(host: Host, item: Value)
    ensures var m := NormaliseItem(host, item);
            && (Field(item, "sender").Null? ==> m.sender == "unknown")
            && (Field(item, "name").Null? ==> m.name == "Unknown")
            && (Field(item, "text").Null? ==> m.text == "")
            && (Field(item, "timestamp").Null? ==> m.timestamp == "")
  {
  }

  /** The conversation is empty after normalisation exactly when no posted item is an array. */
  lemma NormalisedEmptyIff(host: Host, items: seq<Value>)
    ensures Normalised(host, items) == [] <==> forall i :: 0 <= i < |items| ==> !items[i].Arr?
  {
    NormalisedIsMapOfArrayItems(host, items);
    ArrayPositionsSpec(items);
    var ps := ArrayPositions(items);
    if ArrayItems(items) != [] {
      assert items[ps[0]].Arr?;
    }
  }

  // ---------------------------------------------------------------------------
  // The email

  /** The name shown for a line: `Bot` for the bot, else the escaped sender name. */
  function SenderLabel(host: Host, m: ChatMessage): string {
    if m.sender == "bot" then "Bot" else host.escHtml(m.name)
  }

  /** `nl2br`: `<br />` before every line break (`\r\n`, `\n\r`, `\n` or `\r`). */
  function Nl2br(s: string): string
    decreases |s|
  {
    if s == [] then []
    else if |s| >= 2 && ((s[0] == '\r' && s[1] == '\n') || (s[0] == '\n' && s[1] == '\r')) then
      "<br />" + s[..2] + Nl2br(s[2..])
    else if s[0] == '\n' || s[0] == '\r' then "<br />" + [s[0]] + Nl2br(s[1..])
    else [s[0]] + Nl2br(s[1..])
  }

  /** The bracketed time of a line: nothing for an empty timestamp (`"0"` included, as
      `empty` sees it), else the formatted time, or `Invalid Date` when the timestamp
      cannot be parsed (`formatTime` gives `None`). */
  function FormattedTime(m: ChatMessage, formatTime: string -> Option<string>): string {
    if Empty(Str(m.timestamp)) then ""
    else match formatTime(m.timestamp)
      case Some(t) => t
      case None => "Invalid Date"
  }

  // The fixed markup of one line.
  const LineOpen := "<li style='margin-bottom: 10px; padding: 5px; border-radius: 5px; background-color: #f9f9f9;'>"
  const TextOpen := "<div style='margin-top: 3px;'>"

  /** One `<li>`: the bracketed time, the label escaped again, and the escaped text with
      its line breaks kept as `<br />`. */
  function LineHtml(host: Host, formatTime: string -> Option<string>, m: ChatMessage): string {
    LineOpen
    + "<strong>[" + host.escHtml(FormattedTime(m, formatTime)) + "] " + host.escHtml(SenderLabel(host, m)) + ":</strong> "
    + TextOpen + Nl2br(host.escHtml(m.text)) + "</div></li>"
  }

  /** The lines of the messages, one after the other. */
  function LinesHtml(host: Host, formatTime: string -> Option<string>, ms: seq<ChatMessage>): string {
    if ms == [] then "" else LinesHtml(host, formatTime, ms[..|ms| - 1]) + LineHtml(host, formatTime, ms[|ms| - 1])
  }

  /** One more message adds its line at the end. */
  lemma LinesHtmlStep(host: Host, formatTime: string -> Option<string>, ms: seq<ChatMessage>, i: nat)
    requires i < |ms|
    ensures LinesHtml(host, formatTime, ms[..i + 1]) == LinesHtml(host, formatTime, ms[..i]) + LineHtml(host, formatTime, ms[i])
  {
    assert ms[..i + 1][..i] == ms[..i];
    assert ms[..i + 1][i] == ms[i];
  }

  /** String concatenation is associative. */
  lemma AppendAssoc(a: string, b: string, c: string)
    ensures (a + b) + c == a + (b + c)
  {
  }

  // The fixed markup of the email.
  const Title := "<h2>Chat Conversation Transcript</h2>"
  const UserLabel := "<p><strong>User:</strong> "
  const SiteLabel := "<p><strong>Site:</strong> "
  const DateLabel := "<p><strong>Date of Transcript Generation:</strong> "
  const ListOpen := "<hr><h3>Messages:</h3><ul style='list-style-type: none; padding-left: 0;'>"

  /** Everything before the list items: title, user, site, generation date, heading. */
  function EmailHead(host: Host, userName: string, siteName: string, generatedAt: string): string {
    Title
    + UserLabel + host.escHtml(userName) + "</p>"
    + SiteLabel + host.escHtml(siteName) + "</p>"
    + DateLabel + host.escHtml(generatedAt) + "</p>"
    + ListOpen
  }

  function TranscriptBody(host: Host, userName: string, siteName: string, generatedAt: string,
                          formatTime: string -> Option<string>, ms: seq<ChatMessage>): string {
    EmailHead(host, userName, siteName, generatedAt) + LinesHtml(host, formatTime, ms) + "</ul>"
  }

  /** The lines of a conversation are the lines of its parts, one after the other, so
      each message contributes exactly its own line, in its own place. */
  lemma {:induction false} LinesHtmlAppend(host: Host, formatTime: string -> Option<string>, a: seq<ChatMessage>, b: seq<ChatMessage>)
    ensures LinesHtml(host, formatTime, a + b) == LinesHtml(host, formatTime, a) + LinesHtml(host, formatTime, b)
    decreases |b|
  {
    if b == [] {
      assert a + b == a;
    } else {
      var b' := b[..|b| - 1];
      var last := LineHtml(host, formatTime, b[|b| - 1]);
      assert (a + b)[..|a + b| - 1] == a + b';
      assert (a + b)[|a + b| - 1] == b[|b| - 1];
      LinesHtmlAppend(host, formatTime, a, b');
      AppendAssoc(LinesHtml(host, formatTime, a), LinesHtml(host, formatTime, b'), last);
    }
  }

  /** The `foreach` that appends one line per message with `.=`. */
  method AppendLines(host: Host, formatTime: string -> Option<string>, ms: seq<ChatMessage>, start: string)
    returns (body: string)
    ensures body == start + LinesHtml(host, formatTime, ms)
  {
    body := start;
    var i := 0;
    assert ms[..0] == [];
    AppendAssoc(start, "", "");
    while i < |ms|
      invariant 0 <= i <= |ms|
      invariant body == start + LinesHtml(host, formatTime, ms[..i])
    {
      LinesHtmlStep(host, formatTime, ms, i);
      AppendAssoc(start, LinesHtml(host, formatTime, ms[..i]), LineHtml(host, formatTime, ms[i]));
      body := body + LineHtml(host, formatTime, ms[i]);
      i := i + 1;
    }
    assert ms[..i] == ms;
  }

  /** The email body: the head, the lines, then the end of the list. */
  method BuildTranscriptBody(host: Host, userName: string, siteName: string, generatedAt: string,
                             formatTime: string -> Option<string>, ms: seq<ChatMessage>) returns (body: string)
    ensures body == TranscriptBody(host, userName, siteName, generatedAt, formatTime, ms)
  {
    body := AppendLines(host, formatTime, ms, EmailHead(host, userName, siteName, generatedAt));
    body := body + "</ul>";
  }

  /** The bot's lines are labelled `Bot` whatever name they carry; every other line
      shows its own name, escaped (and escaped once more when the line is written). */
  lemma SenderLabelCases(host: Host, m: ChatMessage)
    ensures m.sender == "bot" ==> SenderLabel(host, m) == "Bot"
    ensures m.sender != "bot" ==> SenderLabel(host, m) == host.escHtml(m.name)
  {
  }

  // ---------------------------------------------------------------------------
  // The handler

  /** The posted `user_name`, sanitised, or `Anonymous`. */
  function PostedUserName(host: Host, post: Value): string {
    var u := Field(post, "user_name");
    if IsSet(u) then host.sanitizeTextField(u) else "Anonymous"
  }

  function Subject(userName: string, siteName: string): string {
    "Chat Transcript with " + userName + " - " + siteName
  }

  /** The whole handler. `adminEmail` is the `admin_email` option, `siteName` the blog
      name, `generatedAt` the formatted current time, `formatTime` the timestamp
      formatter and `delivered` what `wp_mail` reports. `mail` is the message handed to
      `wp_mail`, if the handler got that far. */
  method SendChatTranscript(host: Host, post: Value, adminEmail: Value, siteName: string, generatedAt: string,
                            formatTime: string -> Option<string>, delivered: bool)
    returns (reply: AjaxReply, mail: Option<Mail>)
    ensures Normalised(host, RawItems(post)) == [] ==>
              reply == Failure("No conversation data received.") && mail == None
    ensures Normalised(host, RawItems(post)) != [] && !host.isEmail(adminEmail) ==>
              reply == Failure("Admin email is not valid.") && mail == None
    ensures Normalised(host, RawItems(post)) != [] && host.isEmail(adminEmail) ==>
              var userName := PostedUserName(host, post);
              && mail == Some(Mail(adminEmail, Subject(userName, siteName),
                                   TranscriptBody(host, userName, siteName, generatedAt, formatTime, Normalised(host, RawItems(post))),
                                   [HtmlHeader]))
              && reply == if delivered then Success("message", "Transcript emailed successfully.")
                          else Failure("Failed to send email.")
  {
    var conversation := NormaliseConversation(host, RawItems(post));
    var userName := PostedUserName(host, post);
    if conversation == [] {
      return Failure("No conversation data received."), None;
    }
    if !host.isEmail(adminEmail) {
      return Failure("Admin email is not valid."), None;
    }
    var body := BuildTranscriptBody(host, userName, siteName, generatedAt, formatTime, conversation);
    mail := Some(Mail(adminEmail, Subject(userName, siteName), body, [HtmlHeader]));
    if delivered {
      reply := Success("message", "Transcript emailed successfully.");
    } else {
      reply := Failure("Failed to send email.");
    }
  }
}
