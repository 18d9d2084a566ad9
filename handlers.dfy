/**
 * The per-user decision layer of the bot, as pure functions from
 * (state, event, clock) to (new state, reply).
 *
 * The four pieces of state are the `users` table (keyed by user id), the
 * `banned_users` table, the in-memory cooldown dictionary, and each user's
 * active tool. Replies are kinds; ReplyText gives the text each one sends.
 */
module Handlers {
  import opened Wrappers
  import opened Decimal

  /** The fixed cooldown between two accepted tool selections of one user. */
  const COOLDOWN: int := 6

  /** A row of the `users` table apart from its key and its join timestamp. */
  datatype UserRow = UserRow(username: Option<string>, firstName: string)

  datatype State = State(
    users: map<int, UserRow>,
    banned: set<int>,
    lastRequest: map<int, int>,
    activeTool: map<int, string>)

  /** One inbound update, routed as the bot registers its handlers. */
  datatype Event =
    | Start(uid: int, username: Option<string>, firstName: string)
    | ToolSelection(uid: int, tool: string, now: int)
    | AdminCommand(caller: int)
    | BanCommand(caller: int, args: seq<string>)

  datatype Reply =
    | NoReply
    | Welcome
    | Banned
    | Cooldown
    | ToolActivated(prompt: string)
    | AdminPanel
    | BanUsage
    | BanConfirmed(target: int)

  // ---------------------------------------------------------------------
  // Tables and texts

  /** The callback tokens of the main menu's buttons, top to bottom. */
  const MENU_TOKENS: seq<string> :=
    ["ig", "yt", "fb", "img_pdf", "pdf_img", "tts", "caption", "hashtag"]

  const TOOL_MESSAGES: map<string, string> := map[
    "ig" := "\U{1F4E5} Send Instagram Reel link",
    "yt" := "\U{25B6}\U{FE0F} Send YouTube video link",
    "fb" := "\U{1F4D8} Send Facebook video link",
    "img_pdf" := "\U{1F5BC} Send image to convert into PDF",
    "pdf_img" := "\U{1F4C4} Send PDF to convert into images",
    "tts" := "\U{1F50A} Send text to convert into voice",
    "caption" := "\U{270D}\U{FE0F} Send topic for caption",
    "hashtag" := "\U{1F3F7} Send topic for hashtags"
  ]

  /**
   * The prompt interpolated into the activation reply: the table's entry,
   * or the text that Python renders for the `None` a missing key yields.
   */
  function ToolPrompt(tool: string): (p: string)
    ensures tool in TOOL_MESSAGES ==> p == TOOL_MESSAGES[tool]
    ensures p == "None" <==> tool !in TOOL_MESSAGES
  {
    if tool in TOOL_MESSAGES then TOOL_MESSAGES[tool] else "None"
  }

  /** Every button of the menu has a prompt, and the table has no other key. */
  lemma MenuTokensHavePrompts()
    ensures forall i :: 0 <= i < |MENU_TOKENS| ==> MENU_TOKENS[i] in TOOL_MESSAGES
    ensures TOOL_MESSAGES.Keys == set t | t in MENU_TOKENS
  {
  }

  const WELCOME_TEXT: string :=
    "\U{1F44B} *Welcome to AI Tools + Downloader FREE Bot*\n\n"
    + "\U{2705} Unlimited Free Tools\n"
    + "\U{26A1} Fast & Secure\n"
    + "\U{1F6AB} No Payment Required\n\n"
    + "\U{1F447} Select a tool below"

  const ADMIN_PANEL_TEXT: string :=
    "\U{1F451} *Admin Panel*\n\n"
    + "/stats\n"
    + "/ban <user_id>\n"
    + "/unban <user_id>\n"
    + "/broadcast <message>"

  /** The text a reply sends, or None when the handler stays silent. */
  function ReplyText(r: Reply): (t: Option<string>)
    ensures t.None? <==> r.NoReply?
  {
    match r
    case NoReply => None
    case Welcome => Some(WELCOME_TEXT)
    case Banned => Some("\U{1F6AB} You are banned.")
    case Cooldown => Some("\U{23F3} Please wait before next request.")
    case ToolActivated(prompt) => Some("\U{1F6E0} *Tool Activated*\n\n" + prompt)
    case AdminPanel => Some(ADMIN_PANEL_TEXT)
    case BanUsage => Some("Usage: /ban <user_id>")
    case BanConfirmed(target) => Some(BAN_PREFIX + IntToString(target) + BAN_SUFFIX)
  }

  const BAN_PREFIX: string := "\U{1F6AB} User "
  const BAN_SUFFIX: string := " banned"

  /** The confirmation names the banned id: the text between its fixed parts parses back to it. */
  lemma BanConfirmationNamesTarget(target: int)
    ensures
      var t := ReplyText(BanConfirmed(target)).value;
      && |t| >= |BAN_PREFIX| + |BAN_SUFFIX|
      && ParseInt(t[|BAN_PREFIX|..|t| - |BAN_SUFFIX|]) == Some(target)
  {
    var t := ReplyText(BanConfirmed(target)).value;
    assert t[|BAN_PREFIX|..|t| - |BAN_SUFFIX|] == IntToString(target);
    ParseIntToString(target);
  }

  // ---------------------------------------------------------------------
  // Users table

  /**
   * INSERT OR IGNORE on the primary key: a new id gets the row, an id that
   * is already present keeps the row it has.
   */
  function AddUser(users: map<int, UserRow>, uid: int, row: UserRow): (r: map<int, UserRow>)
    ensures r.Keys == users.Keys + {uid}
    ensures forall u :: u in users ==> r[u] == users[u]
    ensures uid !in users ==> r[uid] == row
  {
    if uid in users then users else users[uid := row]
  }

  /** Registering an id twice is registering it once: the first row wins. */
  lemma AddUserFirstWriteWins(users: map<int, UserRow>, uid: int, first: UserRow, second: UserRow)
    ensures AddUser(AddUser(users, uid, first), uid, second) == AddUser(users, uid, first)
    ensures AddUser(users, uid, first)[uid] == if uid in users then users[uid] else first
  {
  }

  // ---------------------------------------------------------------------
  // Rate limiter

  /** The last accepted time of a user; a user never seen counts as time 0. */
  function LastRequestOf(last: map<int, int>, uid: int): int {
    if uid in last then last[uid] else 0
  }

  datatype Throttle = Throttle(accepted: bool, last: map<int, int>)

  function RateLimit(last: map<int, int>, uid: int, now: int): (r: Throttle)
    ensures r.accepted <==> now - LastRequestOf(last, uid) >= COOLDOWN
    ensures uid !in last ==> (r.accepted <==> now >= COOLDOWN)
    ensures !r.accepted ==> r.last == last
    ensures r.accepted ==> r.last.Keys == last.Keys + {uid} && r.last[uid] == now
    ensures forall u :: u != uid ==> LastRequestOf(r.last, u) == LastRequestOf(last, u)
    ensures forall u :: u in last && u != uid ==> u in r.last && r.last[u] == last[u]
  {
    if now - LastRequestOf(last, uid) < COOLDOWN then Throttle(false, last)
    else Throttle(true, last[uid := now])
  }

  /**
   * After an acceptance at t0, the same user is accepted at t1 exactly when
   * at least COOLDOWN has passed since t0.
   */
  lemma RateLimitAfterAcceptance(last: map<int, int>, uid: int, t0: int, t1: int)
    requires RateLimit(last, uid, t0).accepted
    ensures RateLimit(RateLimit(last, uid, t0).last, uid, t1).accepted <==> t1 - t0 >= COOLDOWN
  {
  }

  // ---------------------------------------------------------------------
  // Handlers

  /** The `/start` command: register the caller, then greet. */
  function StartHandler(s: State, uid: int, username: Option<string>, firstName: string): (r: (State, Reply))
    ensures r.1 == Welcome
    ensures r.0.users == AddUser(s.users, uid, UserRow(username, firstName))
    ensures r.0 == s.(users := r.0.users)
  {
    (s.(users := AddUser(s.users, uid, UserRow(username, firstName))), Welcome)
  }

  /**
   * A button press: the ban check comes first, then the cooldown, and only
   * an accepted selection records the tool.
   */
  function ToolsHandler(s: State, uid: int, tool: string, now: int): (r: (State, Reply))
    ensures r.0.users == s.users && r.0.banned == s.banned
    ensures uid in s.banned ==> r == (s, Banned)
    ensures uid !in s.banned && now - LastRequestOf(s.lastRequest, uid) < COOLDOWN ==> r == (s, Cooldown)
    ensures r.1.ToolActivated? <==> uid !in s.banned && now - LastRequestOf(s.lastRequest, uid) >= COOLDOWN
    ensures r.1.ToolActivated? ==>
      && r.1.prompt == ToolPrompt(tool)
      && r.0.lastRequest == s.lastRequest[uid := now]
      && r.0.activeTool == s.activeTool[uid := tool]
    ensures r.1 in {Banned, Cooldown, ToolActivated(ToolPrompt(tool))}
  {
    if uid in s.banned then (s, Banned)
    else
      var t := RateLimit(s.lastRequest, uid, now);
      if !t.accepted then (s, Cooldown)
      else (s.(lastRequest := t.last, activeTool := s.activeTool[uid := tool]), ToolActivated(ToolPrompt(tool)))
  }

  /** `/admin`: silent to everyone but the administrator. */
  function AdminHandler(adminId: int, caller: int): (r: Reply)
    ensures r == NoReply <==> caller != adminId
    ensures r != NoReply ==> r == AdminPanel
  {
    if caller != adminId then NoReply else AdminPanel
  }

  /**
   * The integer that `int(context.args[0])` yields, or None for the
   * exception a missing or malformed argument raises.
   */
  function BanArgument(args: seq<string>): (r: Option<int>)
    ensures args == [] ==> r == None
    ensures r.Some? ==> |args| > 0 && ParseInt(args[0]) == r
    ensures |args| > 0 && ParseInt(args[0]).Some? ==> r.Some?
  {
    if |args| == 0 then None else ParseInt(args[0])
  }

  /**
   * The range of an SQLite INTEGER, a signed 64-bit value. Binding a Python
   * int outside it as a statement parameter raises before the statement runs.
   */
  const SQLITE_INTEGER_MIN: int := -0x8000_0000_0000_0000
  const SQLITE_INTEGER_MAX: int := 0x7FFF_FFFF_FFFF_FFFF

  predicate FitsSqliteInteger(n: int) {
    SQLITE_INTEGER_MIN <= n <= SQLITE_INTEGER_MAX
  }

  /**
   * `/ban`: the same silent gate as `/admin`, a usage hint for a missing or
   * malformed id, otherwise an INSERT OR IGNORE into the ban set. An id that
   * parses but does not fit an SQLite INTEGER makes the INSERT raise: the
   * error handler only logs it, so nothing is inserted and nothing is sent.
   */
  function BanHandler(adminId: int, s: State, caller: int, args: seq<string>): (r: (State, Reply))
    ensures r.0 == s.(banned := r.0.banned)
    ensures caller != adminId ==> r == (s, NoReply)
    ensures caller == adminId ==> (r.1 == BanUsage <==> BanArgument(args).None?)
    ensures r.1 == BanUsage ==> r.0 == s
    ensures caller == adminId && BanArgument(args).Some? && !FitsSqliteInteger(BanArgument(args).value) ==>
      r == (s, NoReply)
    ensures r.1.BanConfirmed? <==>
      caller == adminId && BanArgument(args).Some? && FitsSqliteInteger(BanArgument(args).value)
    ensures r.1.BanConfirmed? ==>
      && BanArgument(args) == Some(r.1.target)
      && r.0.banned == s.banned + {r.1.target}
    ensures r.0.banned != s.banned ==> r.1.BanConfirmed? && r.1.target !in s.banned
  {
    if caller != adminId then (s, NoReply)
    else match BanArgument(args)
      case None => (s, BanUsage)
      case Some(target) =>
        if !FitsSqliteInteger(target) then (s, NoReply)
        else (s.(banned := s.banned + {target}), BanConfirmed(target))
  }

  /**
   * Banning the same id again changes nothing, and an id that fits an
   * SQLite INTEGER is then banned.
   */
  lemma BanIdempotent(adminId: int, s: State, args: seq<string>)
    requires BanArgument(args).Some?
    ensures FitsSqliteInteger(BanArgument(args).value) ==>
      BanArgument(args).value in BanHandler(adminId, s, adminId, args).0.banned
    ensures
      var once := BanHandler(adminId, s, adminId, args).0;
      BanHandler(adminId, once, adminId, args).0 == once
  {
  }

  /**
   * `/ban n` from the administrator, with n written in decimal, bans n and
   * confirms it exactly when n fits an SQLite INTEGER; otherwise nothing
   * changes and nothing is sent.
   */
  lemma {:induction false} BanDecimalId(adminId: int, s: State, n: int)
    ensures FitsSqliteInteger(n) ==>
      BanHandler(adminId, s, adminId, [IntToString(n)]) == (s.(banned := s.banned + {n}), BanConfirmed(n))
    ensures !FitsSqliteInteger(n) ==>
      BanHandler(adminId, s, adminId, [IntToString(n)]) == (s, NoReply)
  {
    ParseIntToString(n);
  }

  /** Routing of one update to its handler. */
  function Step(adminId: int, s: State, e: Event): (r: (State, Reply))
    ensures !e.Start? ==> r.0.users == s.users
    ensures !e.BanCommand? ==> r.0.banned == s.banned
    ensures !e.ToolSelection? ==> r.0.lastRequest == s.lastRequest && r.0.activeTool == s.activeTool
    ensures forall u :: LastRequestOf(s.lastRequest, u) <= LastRequestOf(r.0.lastRequest, u)
  {
    match e
    case Start(uid, username, firstName) => StartHandler(s, uid, username, firstName)
    case ToolSelection(uid, tool, now) => ToolsHandler(s, uid, tool, now)
    case AdminCommand(caller) => (s, AdminHandler(adminId, caller))
    case BanCommand(caller, args) => BanHandler(adminId, s, caller, args)
  }
}
