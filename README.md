# Majed option bot: admin check, branded captions and broadcast commands

This project models the decision logic of a small Telegram bot (`bot.py`). An
administrator uses the bot to post trade alerts, optionally with a photo, to
one premium channel. The model covers:

- the admin check `is_admin`, including its safe default: an `ADMIN_USER_ID`
  of 0 means nobody is admin;
- the caption composer `brand_caption`. The clock reading is passed in as a
  `stamp` string, so the caption is a function of the settings, the stamp and
  the lines. Equal inputs therefore give equal captions by construction. The
  header carries `DISPLAY_NAME`. The footer carries the stamp, the raw
  `TIMEZONE` setting and the fixed disclaimer;
- the subscribe keyboard `sub_keyboard`, which holds one button bound to
  `SALLA_URL`;
- `send_to_channel`, which chooses between a photo message and a text message;
- the handlers `newpost` and `update_trade`. Each checks the caller, joins
  the arguments or falls back to a placeholder, picks a photo (`newpost`
  only), sends to the channel and then acknowledges.

Modules:

- `Wrappers`: `Option`, standing for Python's `None` or a value.
- `Strings`: `sep.join` for a one-character separator, and its inverse
  `Split`. The bot itself never splits a string; `Split` has the meaning of
  Python's `str.split` and exists to state that joining loses nothing. Two
  round trips are proved: splitting a join gives the parts back, and joining
  a split gives the string back.
- `BotHelpers`: the settings and the pure helpers of `bot.py`.
- `BotCommands`: the per-command effect specifications, and the class
  `Outbox`. Its handler methods append to `channelOut` (messages to the
  premium channel) and `replies` (texts sent back to the caller). The field
  `trace` records both kinds in the order they were sent. `Valid()` ties the
  two outboxes to the two projections of `trace`.

Behaviour kept as written in the code:

- The footer prints `CFG.get('TIMEZONE')` with no default. A missing setting
  is therefore printed as `None`, although the clock itself falls back to
  `Asia/Riyadh`. `TimezoneLabel` models exactly this.
- `send_to_channel` tests the file id for truthiness. A present but empty
  file id therefore takes the text path (`HasPhoto`).
- No check that `SALLA_URL` or the channel id is set is invented. The code
  does not make one, so the model carries both as `Option` values and
  passes them through unchanged.

## Model

| member | source | states |
|---|---|---|
| `BotHelpers.AdminIds` | bot.py:43-44 | the set of admin callers has at most one element and is empty exactly when the configured id is 0 |
| `BotHelpers.IsAdmin` | bot.py:43-44 | a caller is admin exactly when it belongs to the admin set |
| `BotHelpers.ZeroAdminDisablesAll` | bot.py:43-44 | with `ADMIN_USER_ID` 0, no caller is admin, not even user 0 |
| `BotHelpers.SingleAdmin` | bot.py:43-44 | any two admin callers are the same caller, namely the configured id |
| `BotHelpers.Header` | bot.py:48 | the header starts with the fire mark, then has the display name at a fixed offset, and ends in a newline |
| `BotHelpers.TimezoneLabel` | bot.py:49 | the footer shows the raw `TIMEZONE` setting when it is present, and `None` when it is missing |
| `BotHelpers.Footer` | bot.py:49 | the footer starts with a newline, has the stamp and then the timezone label at fixed offsets, and ends with the disclaimer |
| `BotHelpers.BrandCaption` | bot.py:46-50 | the caption is the header, then the lines joined by newlines, then the footer, each at the position these lengths give |
| `BotHelpers.CaptionRoundTrip` | bot.py:46-50 | for a non-empty list of newline-free lines, reading the body back from the caption gives exactly the lines, in order |
| `BotHelpers.CaptionLinesSound` | bot.py:46-50 | any text whose body can be read back is exactly the caption of the lines read from it |
| `BotHelpers.CaptionInjective` | bot.py:46-50 | under one stamp, two different non-empty newline-free line lists never give the same caption |
| `Strings.Join` | bot.py:50 | joining no parts gives the empty string; otherwise the result is as long as all parts together plus one separator between each pair of neighbours |
| `Strings.SplitJoin` | bot.py:50 | splitting a newline join gives the parts back when no part holds a newline |
| `Strings.JoinSplit` | bot.py:50 | joining the pieces of a split gives back the original string, for every string |
| `BotHelpers.SubKeyboard` | bot.py:52-53 | the keyboard has exactly one row of exactly one button, with the subscribe label and `SALLA_URL` as its link |
| `BotHelpers.HasPhoto` | bot.py:56 | a missing file id and an empty file id are both falsy; any non-empty file id is truthy |
| `BotHelpers.Dispatch` | bot.py:55-59 | the message is a photo exactly when the file id is truthy, otherwise a text; either way it goes to the premium channel with the same body and the subscribe keyboard |
| `BotHelpers.ArgsText` | bot.py:90 | without arguments the text is the placeholder; with space-free arguments, splitting the text at spaces gives the arguments back |
| `BotHelpers.PickPhoto` | bot.py:94-98 | a photo id exists exactly when there is a replied-to message with a non-empty photo list, and it is the file id of that list's last entry |
| `BotHelpers.LastIsLargest` | bot.py:96-97 | in a size list that grows from each entry to the next, the last entry has at least as many pixels as any entry |
| `BotHelpers.PickPhotoIsLargest` | bot.py:94-98 | for a replied-to photo whose sizes are listed smallest first, a photo id is chosen, it is the file id of the last size, and that size has at least as many pixels as any other |
| `BotCommands.NewPostEffects` | bot.py:82-101 | a non-admin gets exactly one refusal and nothing reaches the channel; the admin's channel outbox gains exactly one message, sent before the one acknowledgement; the message is a photo exactly when the picked file id is truthy, and its caption has the argument text or placeholder as its only line |
| `BotCommands.UpdateEffects` | bot.py:103-114 | a non-admin gets exactly one refusal and nothing reaches the channel; the admin's channel outbox gains exactly one message, a text-only one whose only line is the update marker followed by the argument text or placeholder, comes first, then the one acknowledgement |
| `BotCommands.Outbox.constructor` | bot.py:28-34 | the settings are fixed at creation, and both outboxes start empty |
| `BotCommands.Outbox.ReplyText` | bot.py:101 | one reply is appended and the channel outbox is unchanged |
| `BotCommands.Outbox.SendToChannel` | bot.py:55-59 | exactly the dispatched message is appended to the channel outbox, and the replies are unchanged |
| `BotCommands.Outbox.NewPost` | bot.py:82-101 | the sent effects are exactly those of `NewPostEffects`, appended in order, and each outbox grows by its projection of them |
| `BotCommands.Outbox.UpdateTrade` | bot.py:103-114 | the sent effects are exactly those of `UpdateEffects`, appended in order, and each outbox grows by its projection of them |

## Left out

- Reading `config.json`, applying its defaults, reading `BOT_TOKEN` and the fatal exit when the token is missing (bot.py:24-39). These are file and environment I/O, so the settings are a constructor parameter instead.
- Send failures. If `send_photo` or `send_message` raises, the handler stops before the acknowledgement (bot.py:100-101, bot.py:113-114). The model has no failing send, so every admin command ends with its acknowledgement.
- Logging setup (bot.py:17-21): it has no effect on behaviour.
- `datetime.now(TZ).strftime(...)` and `ZoneInfo` (bot.py:34, bot.py:47). These read the clock and the timezone database, so the formatted stamp is a parameter. Its `YYYY-MM-DD HH:MM` format is not checked.
- The Telegram calls `send_photo`, `send_message` and `reply_text`, and the async event loop. They are modelled as appends to the outboxes. Delivery failures, rate limits and caption length limits of the library are not modelled.
- `main`, handler registration and `run_polling` (bot.py:125-141): these are framework wiring.
- The `start`, `help_cmd` and `setadmin` handlers (bot.py:63-80, bot.py:116-123). They send fixed texts, and their only logic is `is_admin`, which is modelled.
- `WATERMARK_ENABLED`, `WATERMARK_FILE` and `imghdr` (bot.py:5, bot.py:32-33): they are declared but never used.
- The order in which the chat service lists photo sizes is outside the code. The code relies on the sizes being listed smallest first, so `PickPhotoIsLargest` takes that order as its precondition.
