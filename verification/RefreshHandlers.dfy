/**
 The handlers of `handlers/auth.rs` over the token table, statement by statement.

 Between two repository calls other handlers run: `Others` executes an arbitrary list of
 their actions, so the caller's `env` argument ranges over every interleaving. Each handler
 returns the schedule it took part in and is proved to have moved the table exactly as
 `RefreshTokens.Run` says, which is what makes the theorems there apply to the handlers.
*/
module RefreshHandlers {
  import opened Options
  import Schedules
  import opened RefreshTokens

  datatype Reply = Issued(token: TokenId) | TokenRevoked | TokenExpired | NotFound | Forbidden

  /** Call `c` minted nothing between the two states. */
  ghost predicate MintedNothing(s: State, r: State, c: CallId) {
    forall t | t in r.rows && r.rows[t].mintedBy == c :: t in s.rows
  }

  lemma {:induction false} ForeignMintsNothing(s: State, actions: seq<Action>, c: CallId)
    requires Inv(s) && Foreign(actions, c)
    ensures MintedNothing(s, Run(s, actions), c)
    decreases |actions|
  {
    if actions != [] {
      var n := |actions| - 1;
      ForeignMintsNothing(s, actions[..n], c);
      RunKeepsInv(s, actions[..n]);
      if !Gains(actions[n]) {
        DoOnlyLoses(Run(s, actions[..n]), actions[n]);
      }
    }
  }

  /** The table when a refresh of a usable row reaches its try_revoke. */
  function AtTheRace(s: State, c: CallId, token: TokenId, actions: seq<Action>): State {
    Run(Do(s, PresentRefresh(c, token)), actions)
  }

  lemma Presents(s: State, c: CallId, token: TokenId)
    requires c !in s.calls
    ensures Do(s, PresentRefresh(c, token)) ==
              At(s, c, if token in s.rows then Classify(s.rows[token], token, s.now) else Finished)
  {
  }

  lemma ParentRevoked(s: State, t: TokenId, p: TokenId)
    requires Inv(s) && Succeeds(s, t, p)
    ensures p in s.rows && s.rows[p].revoked
  {
  }

  lemma NextUnused(s: State)
    requires Inv(s)
    ensures s.next !in s.rows
  {
  }

  /** What a refresh that won its token answers. */
  predicate Outcome(reply: Reply, account: Account, playerFound: bool) {
    match account
    case Missing => reply == NotFound
    case Inactive => reply == Forbidden
    case Active => if playerFound then reply.Issued? else reply == NotFound
  }

  class TokenService {
    var rows: map<TokenId, Row>
    var calls: map<CallId, Call>
    var next: TokenId
    var now: int

    function View(): State
      reads this
    {
      State(rows, calls, next, now)
    }

    constructor ()
      ensures View() == Init && Inv(View())
    {
      rows, calls, next, now := map[], map[], 0, 0;
    }

    // -------------------------------------------------------------- repository

    /** UPDATE ... WHERE id = $1 AND revoked_at IS NULL: true for the caller that revoked it. */
    method TryRevokeRow(token: TokenId) returns (won: bool)
      modifies this`rows
      ensures won == Live(old(View()), token)
      ensures rows == if won then old(rows)[token := old(rows[token]).(revoked := true)] else old(rows)
    {
      won := token in rows && !rows[token].revoked;
      if won {
        rows := RevokeRow(rows, token);
      }
    }

    method RevokeAllForUser(user: UserId)
      modifies this`rows
      ensures rows == RevokeUser(old(rows), user) && rows.Keys == old(rows).Keys
      ensures forall t | t in rows ::
                rows[t] == if old(rows)[t].user == user then old(rows)[t].(revoked := true) else old(rows)[t]
    {
      rows := RevokeUser(rows, user);
    }

    method Create(row: Row) returns (token: TokenId)
      modifies this`rows, this`next
      ensures token == old(next) && next == old(next) + 1
      ensures rows == old(rows)[token := row]
    {
      token := next;
      rows, next := rows[token := row], next + 1;
    }

    /** What every other handler does while this one waits. */
    method Others(actions: seq<Action>, ghost c: CallId)
      requires Inv(View()) && Foreign(actions, c)
      modifies this
      ensures View() == Run(old(View()), actions) && Inv(View())
      ensures c in calls <==> c in old(calls)
      ensures c in calls ==> calls[c] == old(calls[c])
      ensures RowsPersist(old(View()), View())
      ensures MintedNothing(old(View()), View(), c)
    {
      ForeignMintsNothing(View(), actions, c);
      RunKeepsInv(View(), actions);
      RunPersists(View(), actions);
      ForeignKeepsCall(View(), actions, c);
      var s := Run(View(), actions);
      rows, calls, next, now := s.rows, s.calls, s.next, s.now;
    }

    // -------------------------------------------------------------- handlers

    /** `login`, once the credentials are verified: one new row, which opens a family. */
    method Login(c: CallId, user: UserId, expiresAt: int) returns (token: TokenId)
      requires Inv(View()) && c !in calls
      modifies this
      ensures Inv(View()) && View() == Do(old(View()), SignIn(c, user, expiresAt))
      ensures token !in old(rows) && token in rows && rows == old(rows)[token := rows[token]]
      ensures Live(View(), token)
      ensures rows[token].user == user && rows[token].expiresAt == expiresAt && rows[token].family == token
    {
      hide Inv;
      NextUnused(View());
      SignInKeepsInv(View(), c, user, expiresAt);
      token := Create(Row(user, expiresAt, false, next, None, c));
      calls := calls[c := Finished];
    }

    /** `refresh`: look the row up, reject a revoked or expired one, else rotate it.
        `env[i]` is what other handlers do at the i-th wait. */
    method Refresh(c: CallId, token: TokenId, env: seq<seq<Action>>, landed: bool,
                   account: Account, playerFound: bool, expiresAt: int)
      returns (reply: Reply, ghost log: seq<Action>)
      requires Inv(View()) && c !in calls
      requires |env| == 4 && forall i | 0 <= i < 4 :: Foreign(env[i], c)
      modifies this
      ensures Inv(View()) && View() == Run(old(View()), log)
      ensures calls.Keys >= {c} && calls[c] == Finished
      ensures token !in old(rows) ==> reply == TokenRevoked
      ensures token in old(rows) && old(rows[token].revoked) ==> reply == TokenRevoked
      ensures token in old(rows) && !old(rows[token].revoked) && old(rows[token].expiresAt <= now) ==>
                reply == TokenExpired
      ensures token in old(rows) && !old(rows[token].revoked) && old(now < rows[token].expiresAt) ==>
                && (reply == TokenRevoked <==> !Live(AtTheRace(old(View()), c, token, env[0]), token))
                && reply != TokenExpired
                && (reply != TokenRevoked ==> Outcome(reply, account, playerFound))
      ensures token in old(rows) && landed && (old(rows[token].revoked) || reply == Forbidden) ==>
                NoLiveRow(View(), old(rows[token].user))
      ensures reply == TokenExpired && landed ==> !Live(View(), token)
      ensures !reply.Issued? ==> MintedNothing(old(View()), View(), c)
      ensures reply.Issued? ==>
                && Succeeds(View(), reply.token, token) && Live(View(), reply.token)
                && rows[reply.token].mintedBy == c && rows[token].revoked && reply.token !in old(rows)
                && Renews(rows[reply.token], old(rows[token]), expiresAt)
    {
      hide Inv, Do, Schedules.Fold;
      ghost var start := View();
      log := [PresentRefresh(c, token)];
      Schedules.FoldOne(Do, start, log[0]);
      DoKeepsInv(start, log[0]);
      Presents(start, c, token);
      assert MintedNothing(start, Run(start, log), c);
      if token !in rows {
        calls := calls[c := Finished];
        return TokenRevoked, log;
      }
      var stored := rows[token];
      calls := calls[c := Classify(stored, token, now)];
      var found := calls[c];
      if !found.Rotating? {
        reply, log := RejectStored(c, found, env[0], landed, start, log);
        return;
      }
      ghost var rest;
      reply, rest := Rotate(c, token, env, landed, account, playerFound, expiresAt);
      Schedules.FoldConcat(Do, start, log, rest);
      log := log + rest;
      if reply.Issued? {
        ParentRevoked(View(), reply.token, token);
      }
    }

    /** The early exits: replay detection sweeps the user, an expired row is revoked. */
    method RejectStored(c: CallId, found: Call, env: seq<Action>, landed: bool, ghost start: State,
                        ghost before: seq<Action>)
      returns (reply: Reply, ghost log: seq<Action>)
      requires found.Replaying? || found.Expiring?
      requires Inv(View()) && c in calls && calls[c] == found && Foreign(env, c)
      requires View() == Run(start, before)
      modifies this
      ensures Inv(View()) && View() == Run(start, log)
      ensures c in calls && calls[c] == Finished
      ensures reply == if found.Replaying? then TokenRevoked else TokenExpired
      ensures MintedNothing(old(View()), View(), c)
      ensures found.Replaying? && landed ==> NoLiveRow(View(), found.user)
      ensures found.Expiring? && landed ==> !Live(View(), found.token)
    {
      hide Inv;
      Others(env, c);
      Schedules.FoldConcat(Do, start, before, env);
      ghost var write := if found.Replaying? then RevokeAllWrite(c, landed) else ExpireWrite(c, landed);
      Schedules.FoldSnoc(Do, start, before + env, write);
      log := before + env + [write];
      DoKeepsInv(View(), write);
      calls := calls[c := Finished];
      if landed {
        if found.Replaying? {
          RevokeAllForUser(found.user);
        } else {
          rows := RevokeRow(rows, found.token);
        }
      }
      reply := if found.Replaying? then TokenRevoked else TokenExpired;
    }

    /** From the read of a usable row: consume it, or lose the race for it. */
    method Rotate(c: CallId, token: TokenId, env: seq<seq<Action>>, landed: bool,
                  account: Account, playerFound: bool, expiresAt: int)
      returns (reply: Reply, ghost log: seq<Action>)
      requires Inv(View()) && c in calls && calls[c].Rotating? && calls[c].token == token
      requires |env| == 4 && forall i | 0 <= i < 4 :: Foreign(env[i], c)
      modifies this
      ensures Inv(View()) && View() == Run(old(View()), log)
      ensures c in calls && calls[c] == Finished
      ensures RowsPersist(old(View()), View())
      ensures reply.Issued? ==>
                && Succeeds(View(), reply.token, token) && Live(View(), reply.token)
                && rows[reply.token].mintedBy == c && reply.token !in old(rows)
                && Renews(rows[reply.token], old(calls[c].row), expiresAt)
      ensures reply == TokenRevoked <==> !Live(Run(old(View()), env[0]), token)
      ensures reply != TokenRevoked ==> Outcome(reply, account, playerFound)
      ensures !reply.Issued? ==> MintedNothing(old(View()), View(), c)
      ensures reply == Forbidden && landed ==> NoLiveRow(View(), old(calls[c].row.user))
    {
      hide Inv;
      ghost var start := View();
      Others(env[0], c);
      ghost var read := View();
      Schedules.FoldSnoc(Do, start, env[0], TryRevoke(c));
      DoKeepsInv(read, TryRevoke(c));
      DoPersists(read, TryRevoke(c));
      log := env[0] + [TryRevoke(c)];
      var won := TryRevokeRow(token);
      if !won {
        calls := calls[c := Finished];
        return TokenRevoked, log;
      }
      calls := calls[c := Won(token, calls[c].row, NeedUser)];
      assert View() == Do(read, TryRevoke(c));
      ghost var rest;
      reply, rest := Replace(c, token, env[1..], landed, account, playerFound, expiresAt);
      Schedules.FoldConcat(Do, start, log, rest);
      log := log + rest;
    }

    /** After the win: the account gate, the player lookup, and the successor row. */
    method Replace(c: CallId, token: TokenId, env: seq<seq<Action>>, landed: bool,
                   account: Account, playerFound: bool, expiresAt: int)
      returns (reply: Reply, ghost log: seq<Action>)
      requires Inv(View()) && Holds(View(), c) && calls[c].stage == NeedUser && calls[c].token == token
      requires |env| == 3 && forall i | 0 <= i < 3 :: Foreign(env[i], c)
      modifies this
      ensures Inv(View()) && View() == Run(old(View()), log)
      ensures c in calls && calls[c] == Finished
      ensures RowsPersist(old(View()), View())
      ensures reply.Issued? ==>
                && Succeeds(View(), reply.token, token) && Live(View(), reply.token)
                && rows[reply.token].mintedBy == c && reply.token !in old(rows)
                && Renews(rows[reply.token], old(calls[c].row), expiresAt)
      ensures Outcome(reply, account, playerFound)
      ensures !reply.Issued? ==> MintedNothing(old(View()), View(), c)
      ensures reply == Forbidden && landed ==> NoLiveRow(View(), old(calls[c].row.user))
    {
      hide Inv;
      ghost var start := View();
      Others(env[0], c);
      ghost var step := LookupUser(c, account);
      Schedules.FoldSnoc(Do, start, env[0], step);
      DoKeepsInv(View(), step);
      log := env[0] + [step];
      match account {
        case Missing =>
          calls := calls[c := Finished];
          reply := NotFound;
        case Inactive =>
          var user := calls[c].row.user;
          calls := calls[c := Banning(user)];
          log := Banned(c, user, env[1], landed, start, log);
          RunPersists(start, log);
          reply := Forbidden;
        case Active =>
          calls := calls[c := calls[c].(stage := NeedPlayer)];
          ghost var rest;
          RunPersists(start, log);
          reply, rest := Issue(c, token, env[1], env[2], playerFound, expiresAt);
          Schedules.FoldConcat(Do, start, log, rest);
          log := log + rest;
      }
    }

    method Banned(c: CallId, user: UserId, env: seq<Action>, landed: bool, ghost start: State,
                  ghost before: seq<Action>)
      returns (ghost log: seq<Action>)
      requires Inv(View()) && c in calls && calls[c] == Banning(user) && Foreign(env, c)
      requires View() == Run(start, before)
      modifies this
      ensures Inv(View()) && View() == Run(start, log)
      ensures c in calls && calls[c] == Finished
      ensures RowsPersist(old(View()), View())
      ensures MintedNothing(old(View()), View(), c)
      ensures landed ==> NoLiveRow(View(), user)
    {
      hide Inv;
      Others(env, c);
      Schedules.FoldConcat(Do, start, before, env);
      Schedules.FoldSnoc(Do, start, before + env, RevokeAllWrite(c, landed));
      DoKeepsInv(View(), RevokeAllWrite(c, landed));
      DoPersists(View(), RevokeAllWrite(c, landed));
      log := before + env + [RevokeAllWrite(c, landed)];
      calls := calls[c := Finished];
      if landed {
        RevokeAllForUser(user);
      }
    }

    method Issue(c: CallId, token: TokenId, env1: seq<Action>, env2: seq<Action>, playerFound: bool, expiresAt: int)
      returns (reply: Reply, ghost log: seq<Action>)
      requires Inv(View()) && Holds(View(), c) && calls[c].stage == NeedPlayer && calls[c].token == token
      requires Foreign(env1, c) && Foreign(env2, c)
      modifies this
      ensures Inv(View()) && View() == Run(old(View()), log)
      ensures c in calls && calls[c] == Finished
      ensures RowsPersist(old(View()), View())
      ensures reply.Issued? ==>
                && Succeeds(View(), reply.token, token) && Live(View(), reply.token)
                && rows[reply.token].mintedBy == c && reply.token !in old(rows)
                && Renews(rows[reply.token], old(calls[c].row), expiresAt)
      ensures if playerFound then reply.Issued? else reply == NotFound
      ensures !reply.Issued? ==> MintedNothing(old(View()), View(), c)
    {
      hide Inv;
      ghost var start := View();
      Others(env1, c);
      Schedules.FoldSnoc(Do, start, env1, LookupPlayer(c, playerFound));
      DoKeepsInv(View(), LookupPlayer(c, playerFound));
      log := env1 + [LookupPlayer(c, playerFound)];
      if !playerFound {
        calls := calls[c := Finished];
        return NotFound, log;
      }
      calls := calls[c := calls[c].(stage := NeedMint)];
      Others(env2, c);
      Schedules.FoldConcat(Do, start, log, env2);
      log := log + env2;
      Schedules.FoldSnoc(Do, start, log, Mint(c, expiresAt));
      reply := MintSuccessor(c, token, expiresAt);
      log := log + [Mint(c, expiresAt)];
      RunPersists(start, log);
    }

    method MintSuccessor(c: CallId, token: TokenId, expiresAt: int) returns (reply: Reply)
      requires Inv(View()) && Holds(View(), c) && calls[c].stage == NeedMint && calls[c].token == token
      modifies this
      ensures Inv(View()) && View() == Do(old(View()), Mint(c, expiresAt))
      ensures c in calls && calls[c] == Finished
      ensures reply == Issued(old(next)) && old(next) !in old(rows)
      ensures Succeeds(View(), reply.token, token) && Live(View(), reply.token) && rows[reply.token].mintedBy == c
      ensures Renews(rows[reply.token], old(calls[c].row), expiresAt)
    {
      hide Inv;
      NextUnused(View());
      DoKeepsInv(View(), Mint(c, expiresAt));
      var won := calls[c];
      var minted := Create(Row(won.row.user, expiresAt, false, won.row.family, Some(token), c));
      calls := calls[c := Finished];
      reply := Issued(minted);
    }

    /** `logout`: revoke the presented token if it is still usable; never says which it was. */
    method Logout(c: CallId, token: TokenId, env: seq<Action>) returns (ghost log: seq<Action>)
      requires Inv(View()) && c !in calls && Foreign(env, c)
      modifies this
      ensures Inv(View()) && View() == Run(old(View()), log)
      ensures c in calls && calls[c] == Finished
      ensures !Live(View(), token) || token !in old(rows)
      ensures log == if Live(old(View()), token) then [PresentLogout(c, token)] + env + [LogoutWrite(c)]
                     else [PresentLogout(c, token)]
    {
      hide Inv;
      ghost var start := View();
      log := [PresentLogout(c, token)];
      Schedules.FoldOne(Do, start, log[0]);
      DoKeepsInv(start, log[0]);
      if token in rows && !rows[token].revoked {
        calls := calls[c := LoggingOut(token)];
        Others(env, c);
        Schedules.FoldConcat(Do, start, log, env);
        Schedules.FoldSnoc(Do, start, log + env, LogoutWrite(c));
        DoKeepsInv(View(), LogoutWrite(c));
        log := log + env + [LogoutWrite(c)];
        rows := RevokeRow(rows, token);
      }
      calls := calls[c := Finished];
    }

    /** `logout_all`: one statement over every row of the user. */
    method LogoutEverywhere(c: CallId, user: UserId)
      requires Inv(View()) && c !in calls
      modifies this
      ensures Inv(View()) && View() == Do(old(View()), LogoutAll(c, user))
      ensures rows.Keys == old(rows).Keys && NoLiveRow(View(), user)
      ensures forall t | t in rows && old(rows)[t].user != user :: rows[t] == old(rows)[t]
      ensures SessionsOver(View(), user) <==> NoHolder(old(View()), user)
    {
      hide Inv, SessionsOver, NoHolder;
      DoKeepsInv(View(), LogoutAll(c, user));
      LogoutAllIsFinalExactly(View(), c, user);
      RevokeAllForUser(user);
      calls := calls[c := Finished];
    }
  }
}
