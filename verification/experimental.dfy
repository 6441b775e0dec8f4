/** The experimental settings: the sanitiser of the live-agent and Telegram options, and
    the `admin_init` clean-up that removes the Telegram credentials and transients. */
module Experimental {
  import opened Php
  import opened WordPress
  import Telegram

  // ---------------------------------------------------------------------------
  // The sanitiser

  function ExperimentalFields(host: Host, input: Value): seq<(string, Value)> {
    var toggle := Field(input, "live_agent_toggle");
    var token := Field(input, "telegram_bot_token");
    var chat := Field(input, "telegram_chat_id");
    [ ("live_agent_toggle", Bool(IsSet(toggle) && Truthy(toggle))),
      ("telegram_bot_token", Str(if IsSet(token) then host.sanitizeTextField(token) else "")),
      ("telegram_chat_id", Str(if IsSet(chat) then host.sanitizeTextField(chat) else "")) ]
  }

  lemma ExperimentalNamesDistinct(host: Host, input: Value)
    ensures DistinctNames(ExperimentalFields(host, input))
  {
    var f := ExperimentalFields(host, input);
    assert |f[0].0| == 17 && |f[1].0| == 18 && |f[2].0| == 16;
  }

  /** `echo5_chatbot_sanitize_experimental_options`: exactly three options; every other
      key of the input is dropped. */
  function SanitizeExperimentalOptions(host: Host, input: Value): (r: Value)
    ensures r.Arr? && |r.entries| == 3
    ensures KeysOf(r.entries) == {StrKey("live_agent_toggle"), StrKey("telegram_bot_token"), StrKey("telegram_chat_id")}
  {
    var fields := ExperimentalFields(host, input);
    RecordKeys(fields);
    assert (set f | f in fields :: StrKey(f.0))
        == {StrKey("live_agent_toggle"), StrKey("telegram_bot_token"), StrKey("telegram_chat_id")} by {
      assert fields[0] in fields && fields[1] in fields && fields[2] in fields;
    }
    Record(fields)
  }

  /** The toggle is the boolean cast of the input, false when absent (so the string
      `"false"` turns it on); the token and chat id are sanitised text, `''` when absent. */
  lemma ExperimentalValues(host: Host, input: Value)
    ensures var r := SanitizeExperimentalOptions(host, input);
            && Field(r, "live_agent_toggle") == Bool(IsSet(Field(input, "live_agent_toggle")) && Truthy(Field(input, "live_agent_toggle")))
            && Field(r, "telegram_bot_token")
               == Str(if IsSet(Field(input, "telegram_bot_token")) then host.sanitizeTextField(Field(input, "telegram_bot_token")) else "")
            && Field(r, "telegram_chat_id")
               == Str(if IsSet(Field(input, "telegram_chat_id")) then host.sanitizeTextField(Field(input, "telegram_chat_id")) else "")
  {
    var fields := ExperimentalFields(host, input);
    ExperimentalNamesDistinct(host, input);
    RecordField(fields, 0);
    RecordField(fields, 1);
    RecordField(fields, 2);
  }

  /** Saving the stored toggle again keeps it as it is. */
  lemma ToggleResaveIsStable(host: Host, input: Value)
    ensures var r := SanitizeExperimentalOptions(host, input);
            Field(SanitizeExperimentalOptions(host, r), "live_agent_toggle") == Field(r, "live_agent_toggle")
  {
    var r := SanitizeExperimentalOptions(host, input);
    ExperimentalValues(host, input);
    ExperimentalValues(host, r);
  }

  // ---------------------------------------------------------------------------
  // The admin_init clean-up

  const TransientStem := "_transient_echo5_telegram_"
  const TimeoutStem := "_transient_timeout_echo5_telegram_"

  /** The two `LIKE` patterns of the clean-up, written without escaping. */
  function TransientSweep(): string { TransientStem + "%" }
  function TimeoutSweep(): string { TimeoutStem + "%" }

  /** The options the clean-up removes. */
  predicate Swept(name: string) {
    || name == Telegram.TokenOption || name == Telegram.ChatIdOption
    || Like(name, TransientSweep()) || Like(name, TimeoutSweep())
  }

  function AfterCleanup(opts: map<string, Value>): map<string, Value> {
    map k | k in opts && !Swept(k) :: opts[k]
  }

  /** The closure registered on `admin_init`: it runs on every admin page load. */
  method AdminInitCleanup(store: OptionStore)
    modifies store
    ensures store.options == AfterCleanup(old(store.options))
  {
    store.DeleteOption(Telegram.TokenOption);
    store.DeleteOption(Telegram.ChatIdOption);
    store.DeleteWhereLike(TransientSweep());
    store.DeleteWhereLike(TimeoutSweep());
  }

  /** Since the patterns are not escaped, each `_` in them matches any character: an
      option is swept exactly when it starts with one of the stems in that looser sense. */
  lemma SweptIff(name: string)
    ensures Swept(name) <==> || name == Telegram.TokenOption || name == Telegram.ChatIdOption
                             || WildPrefix(TransientStem, name) || WildPrefix(TimeoutStem, name)
  {
    PlainPrefixLike(TransientStem, name);
    PlainPrefixLike(TimeoutStem, name);
  }

  /** After the clean-up the Telegram credentials are gone, no option starting with
      either stem is left, and every other option keeps its value. */
  lemma CleanupEffect(opts: map<string, Value>)
    ensures var r := AfterCleanup(opts);
            && Telegram.TokenOption !in r && Telegram.ChatIdOption !in r
            && (forall k :: k in r ==> !FoldedPrefix(TransientStem, k) && !FoldedPrefix(TimeoutStem, k))
            && (forall k :: k in opts && !Swept(k) ==> k in r && r[k] == opts[k])
  {
    forall k | k in AfterCleanup(opts)
      ensures !FoldedPrefix(TransientStem, k) && !FoldedPrefix(TimeoutStem, k)
    {
      SweptIff(k);
    }
  }

  /** A name that differs from both stems, up to case, at a position where neither has
      a wildcard is not swept, unless it is one of the two credentials. */
  lemma NotSweptAt(name: string, i: nat)
    requires name != Telegram.TokenOption && name != Telegram.ChatIdOption
    requires i < |TransientStem| && i < |name|
    requires TransientStem[i] != '_' && Fold(name[i]) != Fold(TransientStem[i])
    requires TimeoutStem[i] != '_' && Fold(name[i]) != Fold(TimeoutStem[i])
    ensures !Swept(name)
  {
    SweptIff(name);
  }

  /** The Telegram class's own bookkeeping options do not start with a swept stem, so
      the session map and the update offset survive the clean-up. */
  lemma CleanupKeepsTelegramBookkeeping(opts: map<string, Value>)
    ensures Telegram.MessagesOption in opts ==> Telegram.MessagesOption in AfterCleanup(opts)
    ensures Telegram.OffsetOption in opts ==> Telegram.OffsetOption in AfterCleanup(opts)
  {
    assert TransientStem[1] == 't' && TimeoutStem[1] == 't';
    assert |Telegram.MessagesOption| != |Telegram.TokenOption| && |Telegram.MessagesOption| != |Telegram.ChatIdOption|;
    assert |Telegram.OffsetOption| != |Telegram.TokenOption| && |Telegram.OffsetOption| != |Telegram.ChatIdOption|;
    assert Telegram.MessagesOption[1] == 'c';
    NotSweptAt(Telegram.MessagesOption, 1);
    assert Telegram.OffsetOption[1] == 'c';
    NotSweptAt(Telegram.OffsetOption, 1);
  }

  /** Every pending Telegram response is among the swept options. */
  lemma PendingRowsAreSwept(k: string)
    ensures Like(k, Telegram.PendingPattern()) ==> Swept(k)
  {
    Telegram.PendingPatternMatches(k);
    SweptIff(k);
    assert Telegram.PendingStem[..|TransientStem|] == TransientStem;
    FoldedPrefixShorter(TransientStem, Telegram.PendingStem, k);
  }

  lemma FoldedPrefixShorter(w: string, v: string, s: string)
    requires |w| <= |v| && v[..|w|] == w
    ensures FoldedPrefix(v, s) ==> WildPrefix(w, s)
  {
    if FoldedPrefix(v, s) {
      forall i | 0 <= i < |w| ensures Fold(s[i]) == Fold(w[i]) {
        assert w[i] == v[i];
      }
    }
  }

  /** After the clean-up no pending Telegram response is left to collect, and a Telegram
      integration built afterwards reads an empty token, so its sends fail the
      configuration check. */
  lemma CleanupDisablesTelegram(opts: map<string, Value>)
    ensures Telegram.Matched(AfterCleanup(opts)) == {}
    ensures Empty(if Telegram.TokenOption in AfterCleanup(opts) then AfterCleanup(opts)[Telegram.TokenOption] else Str(""))
  {
    var r := AfterCleanup(opts);
    forall k | k in r ensures !Like(k, Telegram.PendingPattern()) {
      PendingRowsAreSwept(k);
    }
    CleanupEffect(opts);
  }
}
