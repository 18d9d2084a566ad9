# Per-user decision layer of the AI-tools Telegram bot

This project models the logic of `bot.py` that decides what happens to each
update the bot receives, and proves properties of it in Dafny.

The bot keeps four pieces of per-user state:

- the `users` table, keyed by user id, holding a username and a first name;
- the `banned_users` table, a set of user ids;
- the module-level cooldown dictionary `_last_request`, from user id to the time of the last accepted tool selection;
- each user's active tool, the token of the last accepted menu button.

The model also covers four handlers:

- `/start` registers the caller with `INSERT OR IGNORE` and greets them.
- A button press goes through three steps in order: the ban check, the 6-unit cooldown, then recording the tool and replying with its prompt.
- `/admin` shows the admin panel, and stays silent for anyone but the administrator.
- `/ban <id>` has the same silent gate. Then it parses the id with `int()`: a missing or malformed id gets a usage hint. An id that fits SQLite's signed 64-bit INTEGER is inserted into the ban set and confirmed. A larger or smaller id makes the INSERT raise: the error handler only logs it, so nothing is inserted and nothing is sent.

Modules:

- `Wrappers`: `Option`, which stands for Python's `None`.
- `Decimal`: the base-10 integer grammar that `int()` accepts for the `/ban` argument: an optional sign, ASCII digits, and single underscores between digits. Also the decimal text an f-string gives an `int`, and the round trip between the two.
- `Handlers`: the state as a value, the update events, the reply kinds and their exact texts, the tool table, and every handler as a pure function from (state, event, clock) to (new state, reply). The clock is an integer argument.
- `Traces`: `Run` handles a sequence of updates one after another. The lemmas here hold for every such sequence: who can end up banned, first-write-wins for user rows, the spacing of accepted selections, and what a banned user can change. It also holds two worked scenarios (cooldown keeps the tool; ban then malformed ban).
- `Bot`: the class `BotState`, which holds the four pieces of state as fields that its methods update in place. Each method is proved to produce exactly the new state and reply of the pure handler it implements. `HandleAll` is the polling loop: it dispatches a sequence of updates in order, and is proved to end in the state `Traces.Run` gives and to return the replies `Traces.ReplyAt` gives. So every `Traces` lemma holds of the object.

Two behaviours of the code worth noting:

- A user missing from the cooldown dictionary counts as last seen at time 0 (`_last_request.get(user_id, 0)`), not "infinitely long ago". So the first selection is accepted exactly when `now >= 6`.
- A token missing from the tool table produces the prompt text `None`, which is what the f-string renders for `dict.get`'s missing value. It does not produce an empty prompt.

## Model

| member | source | states |
|---|---|---|
| `Handlers.AddUser` | bot.py:74-80 | The keys afterwards are the old keys plus the id. Every row already present is unchanged, so an existing id keeps its first row. A new id gets the given row. |
| `Handlers.AddUserFirstWriteWins` | bot.py:74-80 | Registering an id twice gives the same table as registering it once. The id's row is the old row if there was one, otherwise the first row given. |
| `Handlers.RateLimit` | bot.py:93-102 | Accepts exactly when `now - last >= 6`, where `last` defaults to 0 for an absent user. So an unseen user is accepted exactly when `now >= 6`. On rejection the dictionary is unchanged. On acceptance the user's entry becomes `now` and no other user's entry changes. |
| `Handlers.RateLimitAfterAcceptance` | bot.py:96-102 | After an acceptance at `t0`, the same user is accepted at `t1` exactly when `t1 - t0 >= 6`. |
| `Handlers.ToolPrompt` | bot.py:143-152 | A listed token yields its table entry. The prompt is the text `None` exactly when the token is not in the table. |
| `Handlers.MenuTokensHavePrompts` | bot.py:107-152 | Every menu button's callback token has a prompt, and the table has no other key. |
| `Handlers.ReplyText` | bot.py:126-209 | A reply has a text exactly when it is not the silent reply. |
| `Handlers.BanConfirmationNamesTarget` | bot.py:209 | The text between the fixed parts of the ban confirmation parses back to the banned id. |
| `Handlers.StartHandler` | bot.py:122-138 | `/start` replies with the welcome. Its only state change is the first-write-wins insert of the caller's row. |
| `Handlers.ToolsHandler` | bot.py:154-174 | Never touches the users or ban tables. A banned user gets the banned reply with no state change, so the rate limiter is never consulted. A user still within the cooldown gets the cooldown reply with no state change, so the active tool keeps its old value. The reply is an activation exactly when the user is not banned and at least 6 units have passed. An activation records `now` and the tool for that user and carries the tool's prompt. |
| `Handlers.AdminHandler` | bot.py:179-190 | The reply is silent exactly when the caller is not the administrator. Otherwise it is the admin panel. |
| `Handlers.BanArgument` | bot.py:196-198 | With no arguments the result is the parse failure. Otherwise the result is the parse of the first argument, and the other arguments are ignored. |
| `Handlers.BanHandler` | bot.py:192-215 | Only the ban set can change. A non-administrator gets no reply and no change. For the administrator, the reply is the usage hint exactly when the argument does not parse, and then nothing changes. A parsed id outside the SQLite INTEGER range gets no reply and no change, because the INSERT raises and the error handler only logs. The reply is a confirmation exactly when the administrator's argument parses to an id in range. A confirmation names the parsed id and adds exactly that id. The set changes only when a new id is confirmed. |
| `Handlers.BanIdempotent` | bot.py:202-207 | After a ban of an in-range id the id is banned, and banning it again leaves the same state. |
| `Handlers.BanDecimalId` | bot.py:196-215 | For every integer n, the administrator's `/ban` with n written in decimal bans and confirms n exactly when n fits the SQLite INTEGER range. Otherwise it changes nothing and sends nothing. |
| `Handlers.Step` | bot.py:225-228 | Only `/start` changes the users table. Only `/ban` changes the ban set. Only a button press changes the cooldown dictionary or the active tools. No update makes any user's last accepted time go back. |
| `Decimal.ParseInt` | bot.py:197 | The empty string does not parse. A string that parses contains only digits, signs and underscores. A plain digit string parses to its decimal value. |
| `Decimal.IntToString` | bot.py:209 | The text starts with `-` exactly for negative numbers. The rest is a non-empty run of digits with no leading zero: the canonical form `str` gives. |
| `Decimal.ParseIntToString` | bot.py:197-209 | Parsing the decimal text of any integer gives that integer back. |
| `Traces.Run` | bot.py:220-233 | The ban set after any sequence of updates contains the initial ban set. |
| `Traces.RunKeepsUserRow` | bot.py:74-80 | A row already in the users table is still there, unchanged, after any sequence of updates. |
| `Traces.RunLastRequestGrows` | bot.py:96-102 | A user's last accepted time never decreases over any sequence of updates. |
| `Traces.StepBanned` | bot.py:192-207 | After one update, an id is banned exactly when it was banned before or the update is the administrator's well-formed, in-range `/ban` for it. |
| `Traces.RunBanned` | bot.py:192-207 | After any sequence, an id is banned exactly when it was banned initially or the administrator sent a well-formed `/ban` for it with the id in the SQLite INTEGER range. Nobody else can ban, a malformed or out-of-range argument bans nothing, and nothing unbans. |
| `Traces.BannedUserAlwaysRefused` | bot.py:160-162 | Every button press from an initially banned user gets the banned reply. |
| `Traces.BannedUserFrozen` | bot.py:160-162 | For an initially banned user, the cooldown entry and the active tool are the same after any sequence of updates as before. |
| `Traces.RunUserKeys` | bot.py:122-124 | An id is in the users table after a sequence exactly when it was there before or some `/start` came from it. |
| `Traces.RunUserRowIsFirst` | bot.py:74-80 | A new id's row after any sequence is the one carried by its first `/start`. Later `/start`s with other names do not change it. |
| `Traces.AcceptedAfterInitialCooldown` | bot.py:96-102 | Every accepted selection comes at least 6 units after the user's initial entry, which is 0 for an unseen user. |
| `Traces.AcceptedSelectionsSpaced` | bot.py:96-102 | Two accepted selections of the same user are at least 6 units apart, whatever lies between them and even if clock readings go backwards. |
| `Traces.ScenarioCooldownKeepsTool` | bot.py:122-174 | On a fresh database: `/start` from 42, then `yt` at time 100, then `ig` at time 100. User 42 is registered, `yt` is activated with its YouTube prompt, `ig` gets the cooldown reply, and the active tool stays `yt`. |
| `Traces.ScenarioBanThenMalformed` | bot.py:192-209 | With administrator 7: `/ban 99` confirms and bans 99. Then `/ban abc` gets the usage hint, and the ban set stays `{99}`. |
| `Bot.BotState.constructor` | bot.py:43-72 | A process starts with the persisted tables unchanged, an empty cooldown dictionary and no active tools. |
| `Bot.BotState.AddUser` | bot.py:74-80 | Updates the users field as `Handlers.AddUser` says. An id already present leaves the table untouched. |
| `Bot.BotState.IsBanned` | bot.py:82-88 | The result is true exactly when the id is in the ban set. The method changes nothing. |
| `Bot.BotState.RateLimit` | bot.py:93-102 | Returns `Handlers.RateLimit`'s verdict and leaves its dictionary in the field. A rejection leaves the field untouched. |
| `Bot.BotState.Start` | bot.py:122-138 | The new state and the reply are those of `Handlers.StartHandler`. |
| `Bot.BotState.ToolsHandler` | bot.py:154-174 | The new state and the reply are those of `Handlers.ToolsHandler`. A reply other than an activation leaves the active tools unchanged. |
| `Bot.BotState.Admin` | bot.py:179-190 | The reply is `Handlers.AdminHandler`'s, so it is silent exactly for non-administrators. Nothing changes. |
| `Bot.BotState.Ban` | bot.py:192-215 | The new state and the reply are those of `Handlers.BanHandler`, including the silent outcome for an out-of-range id. A confirmed id is in the ban set afterwards. |
| `Bot.BotState.Dispatch` | bot.py:225-228 | Routing one update gives the new state and the reply of `Handlers.Step`. |
| `Bot.BotState.HandleAll` | bot.py:225-233 | Handling a sequence of updates in order leaves the object in the state `Traces.Run` gives. It returns one reply per update, each the one `Traces.ReplyAt` gives. |

## Left out

- Telegram transport is not modelled. This covers `query.answer()`, the delivery of replies, Markdown parse modes and the layout of the `main_menu` keyboard. Replies are modelled as kinds with their exact texts; of the menu, only its callback tokens are kept.
- SQLite I/O is not modelled: connections, commits, and the `CREATE TABLE IF NOT EXISTS` schema. The tables are a map and a set. Storage faults are not modelled. The error handler is modelled only through its outcome for an out-of-range `/ban` id: no reply and no change.
- The `joined_at` column is not modelled. It is a timestamp that the database fills in, so it is a clock reading outside the model.
- `usage_logs` and `ad_logs` are created but never written by any handler, so they are not modelled.
- Environment loading (`load_dotenv`, the `BOT_TOKEN` check) and logging are not modelled. The administrator id is a constructor parameter. `FORCE_SUB_CHANNEL` and `ADS_ENABLED` are read but never used.
- The asyncio event loop is not modelled. Each update is one atomic step, so handlers that interleave at `await` points are not covered, for example between the ban check and the rate limit.
- Time is an integer argument `now` rather than the float wall clock.
- The admin panel advertises `/stats`, `/unban` and `/broadcast`, but no handler is registered for them. The model has no events for them.
- Decimal.ParseInt: rejects the non-ASCII Unicode decimal digits that Python's `int()` also accepts. Surrounding whitespace, which `int()` strips, never reaches it, because command arguments are split on whitespace.
- A callback query with no data is not modelled. Every tool token is a string.
- The ids that Telegram supplies for callers are taken to fit the SQLite INTEGER range, so `/start`, the ban check and the button handler bind them without the range check that `/ban` needs for an id typed by the administrator.
