/**
 `spin_wheel` and the session cancellation statement by statement, with the other callers
 running at every wait. Each method moves the tables exactly as `WheelSpin.Run` says.
*/
module WheelHandlers {
  import opened Options
  import opened WheelSpin
  import Schedules

  datatype Reply = Spun(game: nat, won: MapId) | Conflict | NoMaps

  predicate Foreign(actions: seq<Action>, c: CallId) {
    forall i | 0 <= i < |actions| :: actions[i].c != c
  }

  lemma {:induction false} ForeignKeepsCall(s: State, actions: seq<Action>, c: CallId)
    requires Foreign(actions, c)
    ensures var r := Run(s, actions);
            (c in r.calls <==> c in s.calls) && (c in s.calls ==> r.calls[c] == s.calls[c])
    decreases |actions|
  {
    if actions != [] {
      ForeignKeepsCall(s, actions[..|actions| - 1], c);
      OtherCalls(Run(s, actions[..|actions| - 1]), actions[|actions| - 1], c);
    }
  }

  lemma OtherCalls(s: State, a: Action, c: CallId)
    requires a.c != c
    ensures (c in Do(s, a).calls <==> c in s.calls) && (c in s.calls ==> Do(s, a).calls[c] == s.calls[c])
  {
  }

  /** The re-read session still fits the draw. */
  predicate Fits(z: Session, number: nat, drawn: MapId) {
    z.status.InProgress? && z.cursor == number && drawn in z.remaining && z.cursor <= z.games
  }

  class VetoTables {
    var session: Session
    var rows: map<nat, MapId>
    var spins: map<nat, MapId>
    var calls: map<CallId, Call>

    function View(): State
      reads this
    {
      State(session, rows, spins, calls)
    }

    /** A wheel session as `start_session` leaves it. */
    constructor (pool: seq<MapId>, games: nat)
      ensures View() == State(Session(pool, games, 1, pool, [], InProgress), map[], map[], map[])
      ensures Fresh(View()) && Inv(View())
    {
      session, rows, spins, calls := Session(pool, games, 1, pool, [], InProgress), map[], map[], map[];
      new;
      FreshIsInv(View());
    }

    /** The action row insert: a taken number returns the committed row. */
    method CreateAction(number: nat, m: MapId) returns (won: MapId)
      modifies this`rows
      ensures won == Committed(old(rows), number, m)
      ensures rows == old(rows)[number := won]
    {
      if number in rows {
        won := rows[number];
      } else {
        won := m;
        rows := rows[number := m];
      }
      assert rows == old(rows)[number := won];
    }

    /** The audit insert: the first row of a game stays. */
    method InsertSpin(game: nat, m: MapId)
      modifies this`spins
      ensures spins == if game in old(spins) then old(spins) else old(spins)[game := m]
    {
      if game !in spins {
        spins := spins[game := m];
      }
    }

    method Others(actions: seq<Action>, ghost c: CallId)
      requires Inv(View()) && Foreign(actions, c)
      modifies this
      ensures View() == Run(old(View()), actions) && Inv(View())
      ensures c in calls <==> c in old(calls)
      ensures c in calls ==> calls[c] == old(calls[c])
      ensures actions == [] ==> View() == old(View())
    {
      RunKeepsInv(View(), actions);
      ForeignKeepsCall(View(), actions, c);
      var s := Run(View(), actions);
      session, rows, spins, calls := s.session, s.actions, s.spins, s.calls;
    }

    /** `spin_wheel`: draw against the session as read, then perform and audit. */
    method SpinWheel(c: CallId, roll: nat, env: seq<seq<Action>>) returns (reply: Reply, ghost log: seq<Action>)
      requires Inv(View()) && c !in calls
      requires |env| == 4 && forall i | 0 <= i < 4 :: Foreign(env[i], c)
      modifies this
      ensures Inv(View()) && View() == Run(old(View()), log)
      ensures c in calls && calls[c] == Finished
      ensures reply.NoMaps? <==> old(session.remaining) == []
      ensures old(session.remaining) != [] ==>
                var z, drawn := Run(Do(old(View()), Draw(c, roll)), env[0]).session,
                    old(session.remaining[roll % |session.remaining|]);
                reply.Conflict? <==>
                  !(z.status.InProgress? && z.cursor == old(session.cursor) <= z.games && drawn in z.remaining)
      ensures old(session.remaining) != [] && (forall i | 0 <= i < 4 :: env[i] == []) &&
              old(session.status.InProgress? && session.cursor <= session.games && session.cursor !in rows) ==>
                && reply == Spun(old(session.cursor), old(session.remaining[roll % |session.remaining|]))
                && Advances(old(session), session, reply.won)
      ensures reply.Spun? ==>
                && reply.game == old(|session.selected|) + 1 == old(session.cursor)
                && reply.game in rows && rows[reply.game] == reply.won
                && reply.game in spins && spins[reply.game] == reply.won
    {
      hide Inv;
      hide Schedules.Fold, Next;
      ghost var start := View();
      GameIsNumber(start);
      NothingHappens(Do(start, Draw(c, roll)), env[0]);
      log := [Draw(c, roll)];
      Schedules.FoldOne(Do, start, log[0]);
      DoKeepsInv(start, log[0]);
      if session.remaining == [] {
        calls := calls[c := Finished];
        return NoMaps, log;
      }
      var game := |session.selected| + 1;
      var number := session.cursor;
      var drawn := session.remaining[roll % |session.remaining|];
      calls := calls[c := Drawn(game, number, drawn)];
      Others(env[0], c);
      Schedules.FoldConcat(Do, start, log, env[0]);
      Schedules.FoldSnoc(Do, start, log + env[0], Recheck(c));
      DoKeepsInv(View(), Recheck(c));
      log := log + env[0] + [Recheck(c)];
      if !Fits(session, number, drawn) {
        calls := calls[c := Finished];
        return Conflict, log;
      }
      calls := calls[c := Checked(session, game, drawn)];
      ghost var rest;
      reply, rest := PerformAndAudit(c, session, game, drawn, env[1], env[2], env[3]);
      Schedules.FoldConcat(Do, start, log, rest);
      log := log + rest;
    }

    /** `record_action_internal` on the session it was handed, then the audit row. */
    method PerformAndAudit(c: CallId, seen: Session, game: nat, drawn: MapId,
                           env1: seq<Action>, env2: seq<Action>, env3: seq<Action>)
      returns (reply: Reply, ghost log: seq<Action>)
      requires Inv(View()) && c in calls && calls[c] == Checked(seen, game, drawn)
      requires Foreign(env1, c) && Foreign(env2, c) && Foreign(env3, c)
      modifies this
      ensures Inv(View()) && View() == Run(old(View()), log)
      ensures c in calls && calls[c] == Finished
      ensures reply.Spun? && reply.game == game
      ensures game in rows && rows[game] == reply.won && game in spins && spins[game] == reply.won
      ensures env1 == [] && seen.cursor !in old(rows) ==> reply.won == drawn
      ensures env1 == env2 == env3 == [] && seen.cursor !in old(rows) ==> Advances(seen, session, drawn)
    {
      hide Inv;
      hide Schedules.Fold, Next;
      ghost var start := View();
      Others(env1, c);
      Schedules.FoldSnoc(Do, start, env1, LogAction(c));
      DoKeepsInv(View(), LogAction(c));
      log := env1 + [LogAction(c)];
      var won := CreateAction(seen.cursor, drawn);
      calls := calls[c := Logged(seen, game, won)];
      Others(env2, c);
      Schedules.FoldConcat(Do, start, log, env2);
      Schedules.FoldSnoc(Do, start, log + env2, Advance(c));
      DoKeepsInv(View(), Advance(c));
      log := log + env2 + [Advance(c)];
      NextAdvances(View(), c);
      session := Next(seen, won);
      calls := calls[c := Advanced(game, won)];
      ghost var rest := Audit(c, game, won, env3);
      Schedules.FoldConcat(Do, start, log, rest);
      log := log + rest;
      reply := Spun(game, won);
    }

    method Audit(c: CallId, game: nat, won: MapId, env: seq<Action>) returns (ghost log: seq<Action>)
      requires Inv(View()) && c in calls && calls[c] == Advanced(game, won) && Foreign(env, c)
      modifies this
      ensures Inv(View()) && View() == Run(old(View()), log)
      ensures c in calls && calls[c] == Finished
      ensures game in rows && rows[game] == won && game in spins && spins[game] == won
      ensures env == [] ==> session == old(session)
    {
      hide Inv;
      hide Schedules.Fold;
      ghost var start := View();
      Others(env, c);
      AdvancedIsLogged(View(), c);
      Schedules.FoldSnoc(Do, start, env, RecordSpin(c));
      DoKeepsInv(View(), RecordSpin(c));
      log := env + [RecordSpin(c)];
      InsertSpin(game, won);
      calls := calls[c := Finished];
      SpinsMatchLog(View(), game);
    }

    /** `cancel_session_for_match`: an ended session is left alone. */
    method CancelSession(c: CallId, env: seq<Action>) returns (ghost log: seq<Action>)
      requires Inv(View()) && c !in calls && Foreign(env, c)
      modifies this
      ensures Inv(View()) && View() == Run(old(View()), log)
      ensures c in calls && calls[c] == Finished
      ensures if old(session.status.InProgress?) then session.status.Cancelled? else session == old(session)
      ensures session.status.Cancelled? ==> (DeadForever(View()) <==> forall d :: !PastTheCheck(View(), d))
    {
      hide Inv;
      hide Schedules.Fold, DeadForever;
      ghost var start := View();
      log := [StopRead(c)];
      Schedules.FoldOne(Do, start, log[0]);
      DoKeepsInv(start, log[0]);
      if !session.status.InProgress? {
        calls := calls[c := Finished];
      } else {
        calls := calls[c := Stopping];
        Others(env, c);
        Schedules.FoldConcat(Do, start, log, env);
        Schedules.FoldSnoc(Do, start, log + env, StopWrite(c));
        DoKeepsInv(View(), StopWrite(c));
        log := log + env + [StopWrite(c)];
        session := session.(status := Cancelled);
        calls := calls[c := Finished];
      }
      if session.status.Cancelled? {
        CancelIsFinalExactly(View());
      }
    }
  }

  lemma NothingHappens(s: State, actions: seq<Action>)
    ensures actions == [] ==> Run(s, actions) == s
  {
  }

  lemma NextAdvances(s: State, c: CallId)
    requires Inv(s) && c in s.calls && s.calls[c].Logged?
    ensures var seen, won := s.calls[c].seen, s.calls[c].won;
            Advances(seen, Next(seen, won), won)
  {
    var seen, won := s.calls[c].seen, s.calls[c].won;
    assert CallOk(s.calls[c], s.session, s.actions);
    WonIsNew(s, seen, won);
  }

  lemma GameIsNumber(s: State)
    requires Inv(s)
    ensures |s.session.selected| + 1 == s.session.cursor
  {
    ShownLength(s.session, s.actions);
  }

  lemma AdvancedIsLogged(s: State, c: CallId)
    requires Inv(s) && c in s.calls && s.calls[c].Advanced?
    ensures s.calls[c].game in s.actions && s.actions[s.calls[c].game] == s.calls[c].won
  {
    assert CallOk(s.calls[c], s.session, s.actions);
  }

  lemma SpinsMatchLog(s: State, game: nat)
    requires Inv(s) && game in s.spins
    ensures game in s.actions && s.spins[game] == s.actions[game]
  {
  }
}
