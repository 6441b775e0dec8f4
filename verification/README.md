# Echo5 AI Chatbot — a Dafny model of its core

Echo5 AI Chatbot is a WordPress plugin that adds a chat widget to a site. The widget
posts each message to an AJAX action. The action asks an OpenAI chat-completion
endpoint for a reply and writes the exchange to a chat-log table. When a chat ends,
the widget can mail its transcript to the site administrator. The admin side has
four parts:

- a settings page with the API key and appearance options;
- experimental settings for a live-agent mode relayed through Telegram;
- a Chat Logs page that pages through the log and deletes rows in bulk;
- a Telegram integration class that relays messages and collects replies.

This project models that logic in Dafny and proves what it promises. Each module
follows one source component.

- `Strings`, `Php`, `WordPress`, `Wrappers`: the host the plugin runs on.
  - Strings and trimming.
  - PHP arrays, `isset`, `empty`, the bool, int and string casts.
  - The WordPress helpers, kept abstract as a `Host` record of functions.
  - HTTP results and JSON replies.
  - The options table with its transients, as an `OptionStore` class over a map.
  - SQL `LIKE` on option names, under a case-insensitive collation.
- `ChatLog`: the `echo5_chatbot_logs` table, as rows with increasing ids.
- `Colour`: the darker shade of the primary colour, which the plugin computes and then never uses.
- `Transcript`: `echo5_chatbot_ajax_send_chat_transcript`.
  - Normalising the posted conversation.
  - The HTML body built line by line.
  - The mail.
- `Completion`: `echo5_chatbot_get_openai_response` and `echo5_chatbot_ajax_send_message`.
- `AjaxHandlers`: `echo5_chatbot_handle_message`, the second handler registered for
  the same action. It is kept separate from the first.
- `Telegram`: `Echo5_Telegram_Integration`, a class whose methods update the options
  table in place. It covers:
  - the session map;
  - the update-offset cursor advanced in a loop;
  - pending responses stored as transients, then read and deleted in a loop.
- `Settings` and `Experimental`: the option sanitisers, and the `admin_init` clean-up.
- `LogsPage`: the page number, offset, newest-first slice, page count and bulk delete.
- `Widget`: the front-end script, as a `ChatWidget` class.
  - Each event handler is one atomic method.
  - Timers are a set of active poll handles plus an auto-maximise flag.
  - The two pure helpers are modelled as functions.

Some behaviours of the code are reproduced as written, and proved:

- Both message handlers are registered for the same action, but they disagree:
  - a status-500 body that carries content is an error for one and a reply for the other;
  - one trims the reply and the other does not.
- `(bool) "false"` is true, so posting `false` turns live-agent mode on.
- A message or header of `"0"` counts as empty.
- Pending Telegram responses:
  - they are keyed by `time()`, so responses handled in the same second collapse into the last one;
  - they are global rather than per session.
- The `admin_init` clean-up runs on every admin page load. Its effects:
  - it deletes the two credential options the Telegram constructor reads, so a
    Telegram integration built afterwards refuses to send;
  - its `LIKE` patterns are not escaped, so each `_` in them matches any character;
  - it keeps the session map and the update offset.
- `LIKE` compares letters without regard to case, while `str_replace` is case-sensitive. A pending row spelled in capitals is therefore returned by every collection and never deleted.
- `intval` reads `2e1` as 20, so `paged=2e1` opens page 20.
- The colour regular expression's `$` lets one trailing newline through.

## Model

| member | source | states |
|---|---|---|
| `Colour.Hex2` | echo5-ai-chatbot.php:115 | `%02x` writes two lower-case hex digits that read back as the value |
| `Colour.FormatHex` | echo5-ai-chatbot.php:115 | the output matches the colour pattern, is lower-case, and each channel reads back as given |
| `Colour.DarkerColour` | echo5-ai-chatbot.php:105-116 | a non-matching colour comes back unchanged; a matching one becomes seven lower-case characters, each channel max(0, c − 25) |
| `Colour.DarkerTwice` | echo5-ai-chatbot.php:105-116 | darkening twice lowers each channel by 50, floored at 0 |
| `Colour.TrailingNewlineDropped` | echo5-ai-chatbot.php:106 | `#ffffff` plus a newline matches, and darkens to `#e6e6e6` without the newline |
| `Transcript.NormaliseConversation` | echo5-ai-chatbot.php:170-182 | the `foreach` yields exactly the normalised array items |
| `Transcript.NormalisedIsMapOfArrayItems` | echo5-ai-chatbot.php:170-182 | the output has one message per array item, the k-th being that item with defaults filled in |
| `Transcript.ArrayPositionsSpec` | echo5-ai-chatbot.php:170-174 | kept items sit at strictly increasing input positions, and every array position is kept: order is preserved and only non-arrays are skipped |
| `Transcript.NormaliseItemDefaults` | echo5-ai-chatbot.php:177-180 | a missing field gets `unknown`, `Unknown` or `''` |
| `Transcript.NormalisedEmptyIff` | echo5-ai-chatbot.php:170-188 | the conversation is empty exactly when no posted item is an array |
| `Transcript.SenderLabelCases` | echo5-ai-chatbot.php:215 | the label is `Bot` for sender `bot`, else the escaped name |
| `Transcript.LinesHtmlAppend` | echo5-ai-chatbot.php:213-236 | the lines of a conversation are the lines of its parts, concatenated |
| `Transcript.AppendLines` | echo5-ai-chatbot.php:213-236 | the `.=` loop yields the start followed by one line per message, in order |
| `Transcript.BuildTranscriptBody` | echo5-ai-chatbot.php:205-237 | the body is the head, the lines and the closing `</ul>` |
| `Transcript.SendChatTranscript` | echo5-ai-chatbot.php:162-247 | an empty conversation, then an invalid admin email, are refused with no mail; otherwise one HTML mail goes to the admin, and the reply follows `wp_mail`'s result |
| `Completion.ClassifyCompletion` | echo5-ai-chatbot.php:302-316 | a transport failure is `openai_request_failed`; a reply exists exactly for status 200 with content, and is the trimmed content; any other response is `openai_response_error` |
| `Completion.SendMessage` | echo5-ai-chatbot.php:327-381 | checks run in order: an empty message is refused before the key is read, an empty key before any request, and a failed completion is reported with no log row; a success sends the reply and logs it unless the insert fails |
| `Completion.SendMessageLogging` | echo5-ai-chatbot.php:359-379 | the log gains one row exactly on success with a working insert, holding the name, the message and the reply sent; ids stay valid |
| `Completion.SendMessageReplyIgnoresInsert` | echo5-ai-chatbot.php:364-379 | a failed insert does not change the reply |
| `Completion.ZeroMessageRefused` | echo5-ai-chatbot.php:339-342 | a message that sanitises to `"0"` is refused as empty |
| `ChatLog.Insert` | echo5-ai-chatbot.php:364-373 | an insert appends exactly one row holding the next id, the name, message, response and time, keeps the earlier rows, advances the next id by one, and keeps ids increasing and below the next id |
| `AjaxHandlers.HandleMessage` | includes/ajax-handlers.php:17-113 | live-agent mode answers with the queue notice, reads no key and logs the tagged message; otherwise an empty key is refused, a transport error or an `error` member is reported with no log row, content is sent and logged untrimmed, and anything else is "Invalid response from AI" |
| `AjaxHandlers.HandleMessageLogging` | includes/ajax-handlers.php:24-109 | the log gains one row exactly when a reply is sent and the insert works, and that row's response is the reply |
| `AjaxHandlers.FalseStringMeansLiveAgent` | includes/ajax-handlers.php:22 | posting the string `false` turns live-agent mode on |
| `AjaxHandlers.HandlersDisagreeOnStatus` | includes/ajax-handlers.php:87-109 | a 500 response with content is an error for one handler and a reply for the other |
| `AjaxHandlers.HandlersDisagreeOnSpaces` | includes/ajax-handlers.php:92-109 | content with surrounding spaces is trimmed by one handler and sent as it is by the other |
| `Telegram.TelegramIntegration.constructor` | includes/telegram-integration.php:8-11 | the token and chat id are read once from the options, defaulting to `''` |
| `Telegram.NotificationLayout` | includes/telegram-integration.php:18-20 | the text is the bell header and name, then `Session ID:` and the id, then a blank line and the message |
| `Telegram.TelegramIntegration.SendToTelegram` | includes/telegram-integration.php:13-43 | an empty token or chat id gives `telegram_config` with no request and no change; a transport error is passed on; a reply without `ok` gives `telegram_error` with its description or "Unknown error" and no change; success records the message id for the session |
| `Telegram.TelegramIntegration.StoreTelegramMessageId` | includes/telegram-integration.php:45-52 | the session map gets the session's `{message_id, timestamp}` record and nothing else changes |
| `Telegram.RecordSentLookup` | includes/telegram-integration.php:45-52 | the session maps to the new record and every other session keeps its entry |
| `Telegram.ResendOverwrites` | includes/telegram-integration.php:45-52 | a later send for the same session replaces the earlier record |
| `Telegram.TelegramIntegration.CheckTelegramUpdates` | includes/telegram-integration.php:54-81 | no token means no request and false; a failed or unacknowledged answer returns false and changes nothing; otherwise the options become the batch applied in order, each update with its own clock readings |
| `Telegram.TelegramIntegration.HandleUpdate` | includes/telegram-integration.php:72-78 | one update stores its text if it has one, then sets the offset to `update_id + 1` |
| `Telegram.OffsetAfterBatch` | includes/telegram-integration.php:72-78 | after a batch, the offset is one past the last update's id |
| `Telegram.TextlessBatchOnlyMovesOffset` | includes/telegram-integration.php:72-78 | a batch without text changes no option but the offset |
| `Telegram.BatchStoresLastTextPerSecond` | includes/telegram-integration.php:72-89 | after a batch, the transient of each second holds the last text whose key was read in that second, with that update's timestamp; a second with no text keeps what it had |
| `Telegram.BatchKeepsLastText` | includes/telegram-integration.php:72-89 | texts handled in the same second share one key, so only the last of them survives |
| `Telegram.TextsInTwoSecondsBothKept` | includes/telegram-integration.php:72-89 | two texts whose keys are read a second apart are both kept |
| `Telegram.TelegramIntegration.ProcessTelegramResponse` | includes/telegram-integration.php:83-90 | the text is stored under the key of the first clock reading, with the second reading as its timestamp, expiring 3600 s after the third |
| `Telegram.ResponseKeyInjective` | includes/telegram-integration.php:85 | two responses get the same key exactly when they arrive in the same second |
| `Telegram.PendingPatternMatches` | includes/telegram-integration.php:96-102 | the escaped pattern matches exactly the names starting with `_transient_echo5_telegram_response_`, up to case |
| `Telegram.ResponseKeyName` | includes/telegram-integration.php:105 | removing `_transient_` from a stored response's option name gives back its transient key |
| `Telegram.TelegramIntegration.GetPendingResponses` | includes/telegram-integration.php:92-114 | on any options table, it returns the value of every truthy pending row, each once, and deletes the transient each row's name gives, with its expiry when the transient was there |
| `Telegram.TelegramIntegration.ReadRows` | includes/telegram-integration.php:104-111 | the loop over the rows returns exactly the truthy ones, reading values as they were when queried, and `delete_transient` removes each one's target, and the target's expiry only when the target existed |
| `WordPress.OptionStore.DeleteTransient` | includes/telegram-integration.php:109 | the value option is removed when present, and the expiry only then; the result says whether the value was there |
| `Telegram.PendingNameHead` | includes/telegram-integration.php:96-105 | the transient name of any row the pattern matches is non-empty and does not start with `t`, so it never names an expiry |
| `Telegram.DrainedRemovesReturned` | includes/telegram-integration.php:104-111 | a returned row is gone afterwards exactly when some returned row's name targets it, so a row that names its own transient always goes; every option not deleted keeps its value |
| `Telegram.DrainedHasNothingPending` | includes/telegram-integration.php:92-114 | a second collection with no new responses returns exactly the returned rows no row targeted, so nothing when every pending row names its own transient |
| `Telegram.MisnamedRowCollectedForever` | includes/telegram-integration.php:96-111 | a truthy matched row whose stripped name is not its own is returned by every later collection |
| `Telegram.ShoutedRowCollectedForever` | includes/telegram-integration.php:96-111 | the row `_TRANSIENT_ECHO5_TELEGRAM_RESPONSE_1` matches the case-insensitive `LIKE` but keeps its name through `str_replace`, so it is returned again and again |
| `Telegram.UnstrippedName` | includes/telegram-integration.php:105 | a name without lower-case letters passes through `str_replace` unchanged |
| `Telegram.RecordSentValid` | includes/telegram-integration.php:45-52 | recording a send keeps the session map an array |
| `Telegram.RecordSentKeepsWellFormed` | includes/telegram-integration.php:45-52 | recording a send keeps every pending row naming its own transient |
| `Telegram.StoreResponseValid` | includes/telegram-integration.php:83-90 | storing a response leaves the session map an array |
| `Telegram.StoreResponseKeepsWellFormed` | includes/telegram-integration.php:83-90 | the row a response is stored under names its own transient, so pending rows stay well-formed |
| `Telegram.ApplyUpdateValid` | includes/telegram-integration.php:72-78 | handling an update keeps the session map an array |
| `Telegram.ApplyUpdateKeepsWellFormed` | includes/telegram-integration.php:72-78 | handling an update keeps pending rows well-formed |
| `Telegram.DrainedValid` | includes/telegram-integration.php:104-111 | collecting keeps the session map an array |
| `Telegram.DrainedKeepsWellFormed` | includes/telegram-integration.php:104-111 | collecting keeps pending rows well-formed |
| `Settings.StoredKeyGatesRequest` | admin/settings-page.php:25-30 | with the sanitised key stored, a posted message is sent on exactly when the key is neither `''` nor `"0"`, and the request carries the sanitised key |
| `Settings.SanitizeAppearanceOptions` | admin/settings-page.php:215-255 | the output holds exactly the four option keys; any other input key is dropped |
| `Settings.AppearanceValues` | admin/settings-page.php:224-252 | each colour is the sanitised input or its default; the welcome message is the sanitised input or the template; the header is the sanitised input when it is set and non-empty after trimming, else `AI Chatbot` |
| `Settings.ZeroHeaderFallsBack` | admin/settings-page.php:248-252 | a header of `"0"` falls back to `AI Chatbot` |
| `Settings.ResaveIsStable` | admin/settings-page.php:215-255 | saving the stored options again changes nothing, when the helpers fix their own output, the colours were accepted and the header is not blank |
| `Settings.StoredColoursReadBack` | admin/settings-page.php:224-236 | stored colours read back as themselves on the next save |
| `Settings.StoredTextsReadBack` | admin/settings-page.php:238-252 | the stored welcome message and header read back as themselves on the next save |
| `Settings.BlankHeaderResetsOnResave` | admin/settings-page.php:248-252 | a header that sanitises to `''` is stored empty and replaced by the default on the next save |
| `Experimental.SanitizeExperimentalOptions` | admin/experimental-settings.php:156-167 | the output holds exactly the three option keys; any other input key is dropped |
| `Experimental.ExperimentalValues` | admin/experimental-settings.php:160-164 | the toggle is the boolean cast, false when absent; the token and chat id are sanitised text, `''` when absent |
| `Experimental.ToggleResaveIsStable` | admin/experimental-settings.php:160 | saving the stored toggle again keeps it |
| `Experimental.AdminInitCleanup` | admin/experimental-settings.php:170-176 | the options become those that are neither a credential nor matched by either `LIKE` pattern |
| `Experimental.SweptIff` | admin/experimental-settings.php:174-175 | an option is swept exactly when it is a credential or starts with a stem, where each `_` of the stem matches any character |
| `Experimental.CleanupEffect` | admin/experimental-settings.php:170-176 | afterwards both credentials are gone, no option starts with either stem, and every other option keeps its value |
| `Experimental.CleanupKeepsTelegramBookkeeping` | admin/experimental-settings.php:174-175 | the session map and the update offset survive the clean-up |
| `Experimental.PendingRowsAreSwept` | admin/experimental-settings.php:174 | every pending Telegram response is swept |
| `Experimental.CleanupDisablesTelegram` | admin/experimental-settings.php:170-176 | afterwards no pending response is left, and the token reads as empty |
| `LogsPage.SortedByTime` | admin/admin-menu.php:209-213 | the ordering is a permutation of the rows |
| `LogsPage.SortedByTimeIsNewestFirst` | admin/admin-menu.php:210 | the ordering is by timestamp, newest first |
| `LogsPage.CurrentPage` | admin/admin-menu.php:204 | the page is at least 1: 1 when `paged` is absent or below 1, else `intval(paged)` |
| `Php.LeadingIntOfDigits` | admin/admin-menu.php:204 | a run of digits reads as its value, and a value beyond the largest integer saturates to it |
| `Php.LeadingIntOfNegative` | admin/admin-menu.php:191 | a minus sign and digits read as the negated value, saturated at the smallest integer |
| `Php.LeadingIntOfExponent` | admin/admin-menu.php:204 | digits, `e` and digits read as the first number times ten to the second, saturated |
| `Php.ExponentPageNumber` | admin/admin-menu.php:204 | `intval("2e1")` is 20, not 2, so by `LogsPage.CurrentPage` the request `paged=2e1` opens page 20 |
| `Php.IntValOfString` | admin/admin-menu.php:191 | `intval` reads back the decimal form of every integer in PHP's range |
| `LogsPage.PageRows` | admin/admin-menu.php:205-213 | the slice holds at most 20 rows, the i-th being row offset + i of the ordering, and it is as long as the rows allow |
| `LogsPage.TotalPages` | admin/admin-menu.php:280 | the count is the ceiling of total / 20 |
| `LogsPage.PageLinksIff` | admin/admin-menu.php:280-281 | page links show exactly when there are more than 20 rows |
| `LogsPage.RowOnItsPage` | admin/admin-menu.php:203-213 | every row is on page i / 20 + 1, at position i mod 20, within the page count |
| `LogsPage.DeleteIds` | admin/admin-menu.php:191-196 | no remaining row has a listed id, and the rows left are a sub-multiset of the old ones |
| `LogsPage.DeleteIdsKeeps` | admin/admin-menu.php:189-196 | a row remains exactly when it was there and its id is not listed |
| `LogsPage.DeleteKeepsValid` | admin/admin-menu.php:193-196 | bulk deletion keeps ids increasing and below the next id |
| `LogsPage.ChatLogsPage` | admin/admin-menu.php:171-213 | a missing table gives only the notice; a bulk delete runs only for `action = bulk_delete` with `delete_logs`; the view shows the current page of the newest-first rows, the total and the page count |
| `Widget.JsTrimIsTrim` | js/echo5-chat.js:184 | the widget's trim is the shared trim over JavaScript white space |
| `Widget.JsTrimEmptyIff` | js/echo5-chat.js:241-242 | a typed text is ignored exactly when it is all white space |
| `Widget.PersonalizeWithoutPlaceholder` | js/echo5-chat.js:203-205 | a template without `%userName%` comes back unchanged |
| `Widget.PersonalizeFirst` | js/echo5-chat.js:203-205 | the first placeholder becomes the name, the text before it is kept, and the rest is personalised in turn |
| `Widget.JsPersonalizeAgrees` | js/echo5-chat.js:204 | for a name without `$`, the code as written substitutes literally |
| `Widget.DollarAmpersandName` | js/echo5-chat.js:204 | for the name `$&`, the code as written shows the placeholder itself |
| `Widget.TypingDelay` | js/echo5-chat.js:230-237 | the delay is between 500 and 3000 ms, never more than 500 + 25 ms per character, and is 3000 or exactly that |
| `Widget.TypingDelayMonotone` | js/echo5-chat.js:230-237 | a longer reply never waits less |
| `Widget.ErrorText` | js/echo5-chat.js:284 | an error shows `Error: ` and its message, or "Something went wrong" when there is none |
| `Widget.ReplyEffect` | js/echo5-chat.js:268-289 | a success in live-agent mode shows nothing and waits not at all; a reply outside it is shown after the typing delay; every failure shows an `Error:` text without delay; an unreachable server, or a success without `reply` outside live mode, shows exactly "Error: Could not connect to the server." |
| `Widget.ChatWidget.constructor` | js/echo5-chat.js:23-27 | the widget starts minimised, not in live mode, with no poll and the stored name; as the markup renders it (includes/chat-interface.php:35-53), the name prompt is shown and the message input and Send button are disabled |
| `Widget.ChatWidget.Minimize` | js/echo5-chat.js:57-61 | minimised, and the auto-maximise is cancelled; nothing else changes |
| `Widget.ChatWidget.Maximize` | js/echo5-chat.js:63-70 | opened, and the auto-maximise is cancelled; nothing else changes |
| `Widget.ChatWidget.ClickContainer` | js/echo5-chat.js:30-35 | a click opens a minimised widget and does nothing to an open one |
| `Widget.ChatWidget.AutoMaximizeFires` | js/echo5-chat.js:165-167 | the armed timer opens the widget |
| `Widget.ChatWidget.InitializeChat` | js/echo5-chat.js:139-168 | with no name the prompt shows and the input is disabled; with a name the input is enabled and the welcome-back message shown, personalised by the page's own `replace` call (`Widget.JsPersonalize`); both start minimised with the timer armed |
| `Widget.ChatWidget.StartPolling` | js/echo5-chat.js:88-112 | the previous poll is cleared and exactly one new poll runs |
| `Widget.ChatWidget.ToggleLiveAgent` | js/echo5-chat.js:116-135 | the mode flips; turning on shows the connecting notice and leaves exactly one poll running; turning off shows the switch-back notice and stops the poll |
| `Widget.ChatWidget.SubmitName` | js/echo5-chat.js:183-192 | a blank name changes nothing; otherwise the name is set and stored, the prompt hidden, the input enabled and the welcome shown, personalised by the page's own `replace` call (`Widget.JsPersonalize`) |
| `Widget.ChatWidget.SendMessage` | js/echo5-chat.js:240-253 | a blank message changes nothing; otherwise it is shown under the user's name, the input is disabled, the typing indicator shown and the request sent |
| `Widget.ChatWidget.ReceiveReply` | js/echo5-chat.js:254-292 | the indicator goes, the reply or error is shown, and the input is enabled again on every outcome |

## Left out

- Nonce, capability and referer checks; `wp_unslash`; translations (`__`, `esc_html__`) are taken as the identity.
- WordPress's own helpers (`sanitize_*`, `esc_html`, `is_email`, `sanitize_hex_color`, the date formatter) are opaque functions. JSON decoding, the HTTP transport, `wp_mail`, SQL execution and `maybe_unserialize` are represented by their results, passed in as parameters.
- The clock (`time()`, `current_time`) is a parameter. Where a handler reads it several times, each reading is its own parameter: the Telegram update loop reads it twice per text update and `set_transient` once more. The FAQ file's contents are a parameter.
- `$wpdb->insert` failing is a boolean parameter. Column-width truncation and the storage format of `DATETIME` values are not modelled; a timestamp is a number ordered as the column orders.
- The typed `WP_Error` data payload (`details`) and `error_log` output are not modelled.
- PHP 8 `TypeError`s are not modelled. Examples: `array_map` over a non-array `delete_logs`, or `+ 1` on a non-numeric `update_id`. The model reads such values with `intval`'s rules instead.
- Arrays passed to `trim` or `sanitize_*`, and PHP's normalisation of numeric-string array keys, are not modelled.
- Ties in `ORDER BY timestamp DESC` are broken by keeping older rows first; SQL leaves that order open. Collation is ASCII case folding only.
- The `SHOW TABLES` result is a boolean parameter. The HTML of the admin pages, the settings-page rendering and `register_setting` wiring are not modelled.
- Telegram: the class is never instantiated in the plugin's files, and `includes/ajax-handlers.php` is never loaded by the main plugin file; both are modelled as they stand. An options map whose session-map option is not an array is excluded by the class invariant of the methods that write that map; collecting pending responses accepts any options table. Transient expiry is not checked by `get_pending_responses`, and the model does not check it either.
- Telegram.TelegramIntegration.GetPendingResponses: the order in which the query returns rows is not fixed; it is a ghost output of the model.
- The widget's poll requests `echo5_check_live_agent_responses`, which has no server handler in these files; the poll's own requests and their results are not modelled, only which poll is running.
- The live-agent toggle element does not appear in the plugin's chat markup; the model takes its `active` class to start absent.
- Real timers and async interleavings: each handler is one atomic step, and at most one reply is awaited at a time. Focus, scrolling, the DOM structure, HTML injection through `innerHTML`, and a missing-element early return are not modelled.
- Widget.ChatWidget.constructor: the name prompt starts shown because the markup gives it no inline style; the plugin's stylesheet, which could hide it, is not part of this model. `initializeChat` sets both the prompt and the input straight after, so no handler sees the starting flags.
- Widget.TypingDelay: the source divides by the floating-point constant 0.04; the model uses the exact 25 ms per character.
- The message length in the typing delay counts characters; JavaScript counts UTF-16 code units.
- The integer conversion follows PHP 7.1 and later: a numeric prefix with a fraction or exponent is read as a number and truncated. The model uses exact decimal arithmetic where PHP rounds to a double first, so prefixes with more than about 15 significant digits can differ by the rounding. A prefix beyond the double range (such as `1e400`) becomes infinity in PHP and converts to 0; the model saturates it instead.
- When the completion reply's `error` member is a string rather than an object, `$body['error']['message']` (includes/ajax-handlers.php:88) is a string offset: a warning in PHP 7, an error in PHP 8. The model reads the missing message as `''`.
- `$primary_color_darker` (echo5-ai-chatbot.php:105-116) is computed and never used: the inline CSS written right after it (echo5-ai-chatbot.php:118-138) reads only the stored colours. The model states what the computation yields; it has no effect on the page.
- LogsPage.Offset: PHP's 64-bit integer arithmetic is not modelled. For a page number near PHP_INT_MAX (such as `?paged=99999999999999999999`, which `intval` saturates), `($current_page - 1) * $per_page` (includes/admin-menu.php:204-205) overflows to a float, and `%d` in `$wpdb->prepare` then turns it into 0, so PHP lists the newest 20 rows; the model's unbounded offset lies past the table and gives an empty page.
- Telegram.ApplyUpdate: `$update['update_id'] + 1` (includes/telegram-integration.php:77) becomes a float at PHP_INT_MAX; the model adds one without bound.
- WordPress.OptionStore.SetTransient: always writes both the value and its `_transient_timeout_` option. WordPress's `set_transient` writes the timeout with `add_option` when the value option is absent, so an existing timeout option left behind without its value keeps its old expiry there; the model overwrites it.
- The `echo5_test_api_key_handler` admin probe, the updater, the Elementor widget, script enqueueing and the dynamic CSS string are not part of this model.

## Findings

| source | as written | input that shows it | evidently intended | confidence | as-written member | corrected member |
|---|---|---|---|---|---|---|
| js/echo5-chat.js:204 | `template.replace(/%userName%/g, name)` passes the user's name as a replacement pattern, so `$&`, `$$`, `` $` `` and `$'` in the name are expanded | the name `$&` with template `%userName%` shows `%userName%` instead of `$&` (`Widget.DollarAmpersandName`) | the name inserted literally at every placeholder | not executed | `Widget.JsPersonalize` | `Widget.Personalize` |

The widget methods (`Widget.ChatWidget.InitializeChat`, `Widget.ChatWidget.SubmitName`) use the code as written, `Widget.JsPersonalize`; `Widget.JsPersonalizeAgrees` shows that it gives the corrected result for every name without `$`.
