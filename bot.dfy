/**
 * The bot's per-user state as the running process holds it: the users and
 * banned_users tables, the module-level cooldown dictionary, and each
 * user's active tool, updated in place by the handlers. Every method is
 * proved against the pure handler it implements.
 */
module Bot {
  import opened Wrappers
  import opened Handlers
  import opened Traces

  class BotState {
    /** The administrator's user id, fixed for the life of the process. */
    const adminId: int
    var users: map<int, UserRow>
    var banned: set<int>
    var lastRequest: map<int, int>
    var activeTool: map<int, string>

    function Snapshot(): State
      reads this
    {
      State(users, banned, lastRequest, activeTool)
    }

    /**
     * A process starting on an existing database: the tables keep their
     * rows, the in-memory cooldown and tool selections start empty.
     */
    constructor (adminId: int, users: map<int, UserRow>, banned: set<int>)
      ensures this.adminId == adminId
      ensures Snapshot() == State(users, banned, map[], map[])
    {
      this.adminId := adminId;
      this.users := users;
      this.banned := banned;
      this.lastRequest := map[];
      this.activeTool := map[];
    }

    /** INSERT OR IGNORE into the users table. */
    method AddUser(uid: int, username: Option<string>, firstName: string)
      modifies this`users
      ensures users == Handlers.AddUser(old(users), uid, UserRow(username, firstName))
      ensures old(uid in users) ==> users == old(users)
    {
      if uid !in users {
        users := users[uid := UserRow(username, firstName)];
      }
    }

    /** Membership in the banned_users table; reads only. */
    method IsBanned(uid: int) returns (b: bool)
      ensures b <==> uid in banned
    {
      b := uid in banned;
    }

    /** The cooldown check, recording the time only when it accepts. */
    method RateLimit(uid: int, now: int) returns (accepted: bool)
      modifies this`lastRequest
      ensures accepted == Handlers.RateLimit(old(lastRequest), uid, now).accepted
      ensures lastRequest == Handlers.RateLimit(old(lastRequest), uid, now).last
      ensures !accepted ==> lastRequest == old(lastRequest)
    {
      var last := if uid in lastRequest then lastRequest[uid] else 0;
      if now - last < COOLDOWN {
        return false;
      }
      lastRequest := lastRequest[uid := now];
      return true;
    }

    method Start(uid: int, username: Option<string>, firstName: string) returns (reply: Reply)
      modifies this`users
      ensures (Snapshot(), reply) == StartHandler(old(Snapshot()), uid, username, firstName)
    {
      AddUser(uid, username, firstName);
      reply := Welcome;
    }

    method ToolsHandler(uid: int, tool: string, now: int) returns (reply: Reply)
      modifies this`lastRequest, this`activeTool
      ensures (Snapshot(), reply) == Handlers.ToolsHandler(old(Snapshot()), uid, tool, now)
      ensures !reply.ToolActivated? ==> activeTool == old(activeTool)
    {
      var isBanned := IsBanned(uid);
      if isBanned {
        return Banned;
      }
      var accepted := RateLimit(uid, now);
      if !accepted {
        return Cooldown;
      }
      activeTool := activeTool[uid := tool];
      reply := ToolActivated(ToolPrompt(tool));
    }

    method Admin(caller: int) returns (reply: Reply)
      ensures reply == AdminHandler(adminId, caller)
      ensures reply == NoReply <==> caller != adminId
    {
      if caller != adminId {
        return NoReply;
      }
      reply := AdminPanel;
    }

    method Ban(caller: int, args: seq<string>) returns (reply: Reply)
      modifies this`banned
      ensures (Snapshot(), reply) == BanHandler(adminId, old(Snapshot()), caller, args)
      ensures reply.BanConfirmed? ==> reply.target in banned
    {
      if caller != adminId {
        return NoReply;
      }
      var target := BanArgument(args);
      if target.None? {
        return BanUsage;
      }
      if !FitsSqliteInteger(target.value) {
        // The INSERT raises on binding the id; the error handler only logs.
        return NoReply;
      }
      banned := banned + {target.value};
      reply := BanConfirmed(target.value);
    }

    /** Routes one update to the handler registered for it. */
    method Dispatch(e: Event) returns (reply: Reply)
      modifies this
      ensures (Snapshot(), reply) == Step(adminId, old(Snapshot()), e)
    {
      match e
      case Start(uid, username, firstName) =>
        reply := Start(uid, username, firstName);
      case ToolSelection(uid, tool, now) =>
        reply := ToolsHandler(uid, tool, now);
      case AdminCommand(caller) =>
        reply := Admin(caller);
      case BanCommand(caller, args) =>
        reply := Ban(caller, args);
    }

    /**
     * The polling loop: every update in the order it arrives, each handled
     * to completion before the next. The state afterwards is Run of the
     * updates, and each reply is the one ReplyAt gives, so every lemma about
     * Run holds of this object.
     */
    method HandleAll(es: seq<Event>) returns (replies: seq<Reply>)
      modifies this
      ensures Snapshot() == Run(adminId, old(Snapshot()), es)
      ensures |replies| == |es|
      ensures forall k :: 0 <= k < |es| ==> replies[k] == ReplyAt(adminId, old(Snapshot()), es, k)
    {
      ghost var s0 := Snapshot();
      replies := [];
      var i := 0;
      while i < |es|
        invariant 0 <= i <= |es|
        invariant Snapshot() == Run(adminId, s0, es[..i])
        invariant |replies| == i
        invariant forall k :: 0 <= k < i ==> replies[k] == ReplyAt(adminId, s0, es, k)
      {
        var reply := Dispatch(es[i]);
        RunOneMore(adminId, s0, es, i);
        replies := replies + [reply];
        i := i + 1;
      }
      assert es[..|es|] == es;
    }
  }
}
