/**
 * Sequences of updates handled one after another, and what holds of every
 * such sequence: which ids end up banned, which rows the users table keeps,
 * how far apart two accepted tool selections of one user are, and that a
 * banned user's cooldown entry and active tool never move.
 */
module Traces {
  import opened Wrappers
  import opened Handlers

  /** The state a process starts from on an empty database. */
  const FRESH: State := State(map[], {}, map[], map[])

  /** The state after handling every update of es, in order. */
  function Run(adminId: int, s: State, es: seq<Event>): (r: State)
    ensures s.banned <= r.banned
    decreases |es|
  {
    if es == [] then s else Step(adminId, Run(adminId, s, es[..|es| - 1]), es[|es| - 1]).0
  }

  /** No update changes a row already in the users table. */
  lemma {:induction false} RunKeepsUserRow(adminId: int, s: State, es: seq<Event>, u: int)
    requires u in s.users
    ensures u in Run(adminId, s, es).users && Run(adminId, s, es).users[u] == s.users[u]
    decreases |es|
  {
    if es != [] {
      RunKeepsUserRow(adminId, s, es[..|es| - 1], u);
    }
  }

  /** A user's last accepted time never goes back. */
  lemma {:induction false} RunLastRequestGrows(adminId: int, s: State, es: seq<Event>, u: int)
    ensures LastRequestOf(s.lastRequest, u) <= LastRequestOf(Run(adminId, s, es).lastRequest, u)
    decreases |es|
  {
    if es != [] {
      RunLastRequestGrows(adminId, s, es[..|es| - 1], u);
    }
  }

  /** The reply to the update at index i of es. */
  function ReplyAt(adminId: int, s: State, es: seq<Event>, i: int): Reply
    requires 0 <= i < |es|
  {
    Step(adminId, Run(adminId, s, es[..i]), es[i]).1
  }

  lemma RunOneMore(adminId: int, s: State, es: seq<Event>, i: int)
    requires 0 <= i < |es|
    ensures Run(adminId, s, es[..i + 1]) == Step(adminId, Run(adminId, s, es[..i]), es[i]).0
  {
    assert es[..i + 1][..i] == es[..i];
  }

  lemma {:induction false} RunAppend(adminId: int, s: State, a: seq<Event>, b: seq<Event>)
    ensures Run(adminId, s, a + b) == Run(adminId, Run(adminId, s, a), b)
    decreases |b|
  {
    if b == [] {
      assert a + b == a;
    } else {
      var n := |b| - 1;
      RunAppend(adminId, s, a, b[..n]);
      assert (a + b)[..|a + b| - 1] == a + b[..n];
    }
  }

  // ---------------------------------------------------------------------
  // Bans

  /** An update that inserts an id into the ban set. */
  predicate GrantsBan(adminId: int, e: Event) {
    && e.BanCommand?
    && e.caller == adminId
    && BanArgument(e.args).Some?
    && FitsSqliteInteger(BanArgument(e.args).value)
  }

  /** The update at index i of es is a well-formed `/ban x` from the administrator, with x in range. */
  predicate BansAt(adminId: int, es: seq<Event>, i: int, x: int)
    requires 0 <= i < |es|
  {
    GrantsBan(adminId, es[i]) && BanArgument(es[i].args).value == x
  }

  lemma StepBanned(adminId: int, s: State, e: Event, x: int)
    ensures x in Step(adminId, s, e).0.banned <==>
      x in s.banned || (GrantsBan(adminId, e) && BanArgument(e.args).value == x)
  {
  }

  /** The last update of a non-empty sequence bans x, or x was banned before it. */
  lemma RunBannedLast(adminId: int, s: State, es: seq<Event>, x: int)
    requires es != []
    ensures x in Run(adminId, s, es).banned <==>
      x in Run(adminId, s, es[..|es| - 1]).banned || BansAt(adminId, es, |es| - 1, x)
  {
    var n := |es| - 1;
    StepBanned(adminId, Run(adminId, s, es[..n]), es[n], x);
  }

  /**
   * An id is banned after any sequence of updates exactly when it was
   * banned before or the administrator sent a well-formed `/ban` for it:
   * nobody else, and nothing else, adds to the ban set, and nothing
   * removes from it.
   */
  lemma {:induction false} RunBanned(adminId: int, s: State, es: seq<Event>, x: int)
    ensures x in Run(adminId, s, es).banned <==> x in s.banned || exists i :: 0 <= i < |es| && BansAt(adminId, es, i, x)
    decreases |es|
  {
    if es != [] {
      var n := |es| - 1;
      var pre := es[..n];
      RunBanned(adminId, s, pre, x);
      RunBannedLast(adminId, s, es, x);
      BansAtPrefix(adminId, es, n, x);
      if BansAt(adminId, es, n, x) {
        assert 0 <= n < |es| && BansAt(adminId, es, n, x);
      }
      if exists i :: 0 <= i < |es| && BansAt(adminId, es, i, x) {
        var i :| 0 <= i < |es| && BansAt(adminId, es, i, x);
        if i < n {
          assert 0 <= i < |pre| && BansAt(adminId, pre, i, x);
        }
      }
    }
  }

  /** A prefix bans at each of its indices exactly what the whole sequence does there. */
  lemma BansAtPrefix(adminId: int, es: seq<Event>, n: int, x: int)
    requires 0 <= n <= |es|
    ensures forall i :: 0 <= i < n ==> (BansAt(adminId, es[..n], i, x) <==> BansAt(adminId, es, i, x))
  {
    forall i | 0 <= i < n ensures BansAt(adminId, es[..n], i, x) <==> BansAt(adminId, es, i, x) {
      assert es[..n][i] == es[i];
    }
  }

  /** Every update a banned user sends as a tool selection is answered with the banned reply. */
  lemma {:induction false} BannedUserAlwaysRefused(adminId: int, s: State, es: seq<Event>, i: int)
    requires 0 <= i < |es| && es[i].ToolSelection? && es[i].uid in s.banned
    ensures ReplyAt(adminId, s, es, i) == Banned
  {
  }

  /** A key whose entry the two maps agree on, present or absent. */
  predicate SameAt<V(==)>(m: map<int, V>, m': map<int, V>, u: int) {
    (u in m <==> u in m') && (u in m ==> m[u] == m'[u])
  }

  /**
   * A user banned from the start never has their cooldown entry or their
   * active tool changed, whatever they or anyone else send.
   */
  lemma {:induction false} BannedUserFrozen(adminId: int, s: State, es: seq<Event>, u: int)
    requires u in s.banned
    ensures SameAt(Run(adminId, s, es).lastRequest, s.lastRequest, u)
    ensures SameAt(Run(adminId, s, es).activeTool, s.activeTool, u)
    decreases |es|
  {
    if es != [] {
      BannedUserFrozen(adminId, s, es[..|es| - 1], u);
    }
  }

  // ---------------------------------------------------------------------
  // Users

  predicate Registers(e: Event, u: int) {
    e.Start? && e.uid == u
  }

  /** An id is in the users table after es exactly when it was before or some `/start` came from it. */
  lemma {:induction false} RunUserKeys(adminId: int, s: State, es: seq<Event>, u: int)
    ensures u in Run(adminId, s, es).users <==> u in s.users || exists i :: 0 <= i < |es| && Registers(es[i], u)
    decreases |es|
  {
    if es != [] {
      var n := |es| - 1;
      RunUserKeys(adminId, s, es[..n], u);
      if exists i :: 0 <= i < n && Registers(es[..n][i], u) {
        var i :| 0 <= i < n && Registers(es[..n][i], u);
        assert Registers(es[i], u);
      }
      if exists i :: 0 <= i < |es| && Registers(es[i], u) {
        var i :| 0 <= i < |es| && Registers(es[i], u);
        if i < n {
          assert Registers(es[..n][i], u);
        }
      }
    }
  }

  /**
   * First write wins across any sequence: a new id's row is the one its
   * first `/start` carried, and later `/start`s with other names do not
   * change it.
   */
  lemma {:induction false} RunUserRowIsFirst(adminId: int, s: State, es: seq<Event>, u: int, i: int)
    requires u !in s.users
    requires 0 <= i < |es| && Registers(es[i], u)
    requires forall k :: 0 <= k < i ==> !Registers(es[k], u)
    ensures u in Run(adminId, s, es).users
    ensures Run(adminId, s, es).users[u] == UserRow(es[i].username, es[i].firstName)
  {
    RunUserKeys(adminId, s, es[..i], u);
    forall k | 0 <= k < i ensures !Registers(es[..i][k], u) {
      assert es[..i][k] == es[k];
    }
    RunOneMore(adminId, s, es, i);
    var mid := Run(adminId, s, es[..i + 1]);
    assert mid.users[u] == UserRow(es[i].username, es[i].firstName);
    RunAppend(adminId, s, es[..i + 1], es[i + 1..]);
    assert es[..i + 1] + es[i + 1..] == es;
    RunKeepsUserRow(adminId, mid, es[i + 1..], u);
  }

  // ---------------------------------------------------------------------
  // Cooldown

  /** An accepted selection comes COOLDOWN after the user's entry and sets it to its own time. */
  lemma AcceptedStep(adminId: int, st: State, e: Event)
    requires e.ToolSelection? && Step(adminId, st, e).1.ToolActivated?
    ensures e.now >= LastRequestOf(st.lastRequest, e.uid) + COOLDOWN
    ensures LastRequestOf(Step(adminId, st, e).0.lastRequest, e.uid) == e.now
  {
  }

  /**
   * Every accepted tool selection comes at least COOLDOWN after the user's
   * initial cooldown entry (time 0 for a user never seen).
   */
  lemma {:induction false} AcceptedAfterInitialCooldown(adminId: int, s: State, es: seq<Event>, i: int)
    requires 0 <= i < |es| && es[i].ToolSelection?
    requires ReplyAt(adminId, s, es, i).ToolActivated?
    ensures es[i].now >= LastRequestOf(s.lastRequest, es[i].uid) + COOLDOWN
  {
    AcceptedStep(adminId, Run(adminId, s, es[..i]), es[i]);
    RunLastRequestGrows(adminId, s, es[..i], es[i].uid);
  }

  /**
   * Two accepted tool selections of the same user are at least COOLDOWN
   * apart, whatever happens between them and whether or not the clock
   * readings increase.
   */
  lemma {:induction false} AcceptedSelectionsSpaced(adminId: int, s: State, es: seq<Event>, i: int, j: int)
    requires 0 <= i < j < |es|
    requires es[i].ToolSelection? && es[j].ToolSelection? && es[i].uid == es[j].uid
    requires ReplyAt(adminId, s, es, i).ToolActivated? && ReplyAt(adminId, s, es, j).ToolActivated?
    ensures es[j].now - es[i].now >= COOLDOWN
  {
    var u := es[i].uid;
    RunOneMore(adminId, s, es, i);
    AcceptedStep(adminId, Run(adminId, s, es[..i]), es[i]);
    AcceptedStep(adminId, Run(adminId, s, es[..j]), es[j]);
    var mid := Run(adminId, s, es[..i + 1]);
    RunAppend(adminId, s, es[..i + 1], es[i + 1..j]);
    assert es[..i + 1] + es[i + 1..j] == es[..j];
    RunLastRequestGrows(adminId, mid, es[i + 1..j], u);
  }

  // ---------------------------------------------------------------------
  // Scenarios

  /**
   * `/start` from 42, then "yt" at time 100, then "ig" at the same time:
   * the row is registered, "yt" is activated, "ig" is refused for the
   * cooldown, and the active tool stays "yt".
   */
  lemma ScenarioCooldownKeepsTool()
    ensures
      var es := [Start(42, Some("alice"), "Alice"), ToolSelection(42, "yt", 100), ToolSelection(42, "ig", 100)];
      && Run(7, FRESH, es).users == map[42 := UserRow(Some("alice"), "Alice")]
      && ReplyAt(7, FRESH, es, 1) == ToolActivated("\U{25B6}\U{FE0F} Send YouTube video link")
      && ReplyAt(7, FRESH, es, 2) == Cooldown
      && Run(7, FRESH, es).activeTool == map[42 := "yt"]
  {
    var es := [Start(42, Some("alice"), "Alice"), ToolSelection(42, "yt", 100), ToolSelection(42, "ig", 100)];
    assert es[..0] == [] && es[..1][..0] == [] && es[..2][..1] == es[..1] && es[..3] == es;
    assert Run(7, FRESH, es[..1][..0]) == FRESH && es[..1][0] == es[0];
    var s1 := Run(7, FRESH, es[..1]);
    assert s1 == Step(7, FRESH, es[0]).0;
    assert s1 == FRESH.(users := map[42 := UserRow(Some("alice"), "Alice")]);
    var s2 := Run(7, FRESH, es[..2]);
    assert s2 == s1.(lastRequest := map[42 := 100], activeTool := map[42 := "yt"]);
    assert Run(7, FRESH, es) == Step(7, s2, es[2]).0;
  }

  /**
   * With administrator 7: `/ban 99` bans 99; `/ban abc` then replies with
   * the usage hint and leaves the ban set as it was.
   */
  lemma ScenarioBanThenMalformed()
    ensures
      var es := [BanCommand(7, ["99"]), BanCommand(7, ["abc"])];
      && ReplyAt(7, FRESH, es, 0) == BanConfirmed(99)
      && ReplyAt(7, FRESH, es, 1) == BanUsage
      && Run(7, FRESH, es).banned == {99}
  {
  }
}
