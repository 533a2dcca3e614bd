/**
 `lock_pug` and `cancel_pug` statement by statement, with the other callers running at
 every wait. Each method moves the lobby exactly as `PugLock.Run` says.
*/
module PugHandlers {
  import opened Options
  import Schedules
  import opened PugLock
  import M = MatchLifecycle

  datatype Reply = Bound(m: MatchId) | Conflict | Failed | Unknown

  /** The answers of everything the handler consults: both validations, the map pool, the
      container creation, and whether its writes are refused by the database. */
  datatype World = World(valid: bool, stillValid: bool, poolOk: bool, made: bool, bindFails: bool, rollbackFails: bool,
                         cleanUpLost: bool)

  class Lobby {
    var status: Status
    var bound: Option<MatchId>
    var matches: map<MatchId, M.Status>
    var nextMatch: MatchId
    var calls: map<CallId, Call>
    var lockedBy: Option<CallId>

    function View(): State
      reads this
    {
      State(status, bound, matches, nextMatch, calls, lockedBy)
    }

    constructor ()
      ensures View() == Init && Inv(View())
    {
      status, bound, matches, nextMatch, calls, lockedBy := Gathering, None, map[], 0, map[], None;
    }

    /** UPDATE ... SET status = next WHERE status = expected; `locker` is who takes the lock. */
    method TransitionStatus(expected: Status, next: Status, locker: Option<CallId>) returns (won: bool)
      modifies this`status, this`lockedBy
      ensures won == (old(status) == expected)
      ensures if won then status == next && lockedBy == locker else status == old(status) && lockedBy == old(lockedBy)
    {
      won := status == expected;
      if won {
        status, lockedBy := next, locker;
      }
    }

    /** Attaches the match to the locked, matchless lobby. */
    method Attach(m: MatchId) returns (won: bool)
      modifies this`bound
      ensures won == old(Binds(View()))
      ensures bound == if won then Some(m) else old(bound)
    {
      won := status.MapSelection? && bound.None?;
      if won {
        bound := Some(m);
      }
    }

    /** The first half of a transition: the lifecycle service reads the match and asks the table. */
    method CheckTransition(m: MatchId, to: M.Status) returns (allowed: bool)
      ensures allowed == Allows(View(), m, to)
    {
      allowed := m in matches && to in M.Allowed(matches[m]);
    }

    /** The second half: UPDATE ... SET status WHERE id = m, whatever the status is by now. */
    method WriteTransition(m: MatchId, to: M.Status)
      modifies this`matches
      ensures matches == WriteMatch(old(View()), m, to).matches
    {
      if m in matches {
        matches := matches[m := to];
      }
    }

    method Others(actions: seq<Action>, ghost c: CallId)
      requires Inv(View()) && Foreign(actions, c)
      modifies this
      ensures View() == Run(old(View()), actions) && Inv(View())
      ensures c in calls <==> c in old(calls)
      ensures c in calls ==> calls[c] == old(calls[c])
    {
      RunKeepsInv(View(), actions);
      ForeignKeepsCall(View(), actions, c);
      var s := Run(View(), actions);
      status, bound, matches := s.status, s.bound, s.matches;
      nextMatch, calls, lockedBy := s.nextMatch, s.calls, s.lockedBy;
    }

    /** `lock_pug`. `env[i]` is what the others do at the i-th wait. */
    method LockPug(c: CallId, w: World, env: seq<seq<Action>>) returns (reply: Reply, ghost log: seq<Action>)
      requires Inv(View()) && c !in calls
      requires |env| == 7 && forall i | 0 <= i < 7 :: Foreign(env[i], c)
      modifies this
      ensures Inv(View()) && View() == Run(old(View()), log)
      ensures c in calls && calls[c] == Finished
      ensures reply.Bound? ==> bound == Some(reply.m) && status.MapSelection?
      ensures reply.Failed? && old(status).Gathering? && w.valid && !w.rollbackFails ==> !status.MapSelection?
      ensures !(old(status).Gathering? && w.valid) ==> reply == Failed && status == old(status) && bound == old(bound)
      ensures old(status).Gathering? && w.valid && (forall i | 0 <= i < 7 :: env[i] == []) ==>
                if w.stillValid && w.poolOk && w.made
                then matches == old(matches)[old(nextMatch) := M.PickBan] &&
                     reply == if w.bindFails then Unknown else Bound(old(nextMatch))
                else reply == Failed && status == if w.rollbackFails then MapSelection else Gathering
      ensures old(status).Gathering? && w.valid ==>
                var raced := Run(Do(old(View()), PrepareLock(c, true)), env[0]);
                !raced.status.Gathering? ==> reply == Conflict
    {
      hide Inv;
      hide Schedules.Fold, Do;
      ghost var start := View();
      var refusal;
      refusal, log := TakeLock(c, w.valid, env[0]);
      if refusal.Some? {
        return refusal.value, log;
      }
      ghost var rest;
      reply, rest := UnderLock(c, w, env[1..]);
      Schedules.FoldConcat(Do, start, log, rest);
      log := log + rest;
    }

    /** Validate the open lobby, and win the compare-and-set or lose it. */
    method TakeLock(c: CallId, valid: bool, env: seq<Action>) returns (refusal: Option<Reply>, ghost log: seq<Action>)
      requires Inv(View()) && c !in calls && Foreign(env, c)
      modifies this
      ensures Inv(View()) && View() == Run(old(View()), log)
      ensures if refusal.None? then Is(View(), c, Locked) else Is(View(), c, Finished)
      ensures !(old(status).Gathering? && valid) ==>
                refusal == Some(Failed) && status == old(status) && bound == old(bound)
      ensures old(status).Gathering? && valid ==>
                refusal == if Run(Do(old(View()), PrepareLock(c, true)), env).status.Gathering? then None
                           else Some(Conflict)
      ensures old(status).Gathering? && valid && env == [] ==>
                refusal.None? && Binds(View()) && nextMatch == old(nextMatch) && matches == old(matches)
    {
      hide Inv;
      hide Schedules.Fold, Do;
      ghost var start := View();
      OpenIsUnbound(start);
      Prepares(start, c, valid);
      log := [PrepareLock(c, valid)];
      Schedules.FoldOne(Do, start, log[0]);
      StepKeepsInv(start, log[0]);
      if !(status.Gathering? && valid) {
        calls := calls[c := Finished];
        return Some(Failed), log;
      }
      calls := calls[c := Validated];
      Others(env, c);
      Schedules.FoldConcat(Do, start, log, env);
      EmptyRun(Run(start, log), env);
      Schedules.FoldSnoc(Do, start, log + env, LockCas(c));
      StepKeepsInv(View(), LockCas(c));
      Locks(View(), c);
      log := log + env + [LockCas(c)];
      var won := TransitionStatus(Gathering, MapSelection, Some(c));
      calls := calls[c := if won then Locked else Finished];
      refusal := if won then None else Some(Conflict);
    }

    method UnderLock(c: CallId, w: World, env: seq<seq<Action>>) returns (reply: Reply, ghost log: seq<Action>)
      requires Inv(View()) && Is(View(), c, Locked)
      requires |env| == 6 && forall i | 0 <= i < 6 :: Foreign(env[i], c)
      modifies this
      ensures Inv(View()) && View() == Run(old(View()), log)
      ensures c in calls && calls[c] == Finished
      ensures reply.Bound? ==> bound == Some(reply.m) && status.MapSelection?
      ensures reply.Failed? && !w.rollbackFails ==> !status.MapSelection?
      ensures !(Binds(Run(old(View()), env[0])) && w.stillValid) ==> reply == Failed
      ensures old(Binds(View())) && (forall i | 0 <= i < 6 :: env[i] == []) ==>
                if w.stillValid && w.poolOk && w.made
                then matches == old(matches)[old(nextMatch) := M.PickBan] &&
                     reply == if w.bindFails then Unknown else Bound(old(nextMatch))
                else reply == Failed && status == if w.rollbackFails then MapSelection else Gathering
    {
      hide Inv;
      hide Schedules.Fold;
      ghost var start := View();
      Others(env[0], c);
      EmptyRun(start, env[0]);
      Schedules.FoldSnoc(Do, start, env[0], Replan(c, w.stillValid));
      StepKeepsInv(View(), Replan(c, w.stillValid));
      log := env[0] + [Replan(c, w.stillValid)];
      ghost var rest;
      if !(status.MapSelection? && bound.None? && w.stillValid) {
        calls := calls[c := RollingBack];
        rest := RollBack(c, w.rollbackFails, env[5]);
        reply := Failed;
      } else {
        calls := calls[c := Planned];
        reply, rest := CreateContainer(c, w, env[1..]);
      }
      Schedules.FoldConcat(Do, start, log, rest);
      log := log + rest;
    }

    /** The map pool, the container match, and the binding. */
    method CreateContainer(c: CallId, w: World, env: seq<seq<Action>>) returns (reply: Reply, ghost log: seq<Action>)
      requires Inv(View()) && Is(View(), c, Planned)
      requires |env| == 5 && forall i | 0 <= i < 5 :: Foreign(env[i], c)
      modifies this
      ensures Inv(View()) && View() == Run(old(View()), log)
      ensures c in calls && calls[c] == Finished
      ensures reply.Bound? ==> bound == Some(reply.m) && status.MapSelection?
      ensures reply.Failed? && !w.rollbackFails ==> !status.MapSelection?
      ensures old(Binds(View())) && (forall i | 0 <= i < 5 :: env[i] == []) ==>
                if w.poolOk && w.made
                then matches == old(matches)[old(nextMatch) := M.PickBan] &&
                     reply == if w.bindFails then Unknown else Bound(old(nextMatch))
                else reply == Failed && status == if w.rollbackFails then MapSelection else Gathering
    {
      hide Inv;
      hide Schedules.Fold;
      ghost var start := View();
      Others(env[0], c);
      EmptyRun(start, env[0]);
      Schedules.FoldSnoc(Do, start, env[0], ResolvePool(c, w.poolOk));
      StepKeepsInv(View(), ResolvePool(c, w.poolOk));
      log := env[0] + [ResolvePool(c, w.poolOk)];
      ghost var rest;
      if !w.poolOk {
        calls := calls[c := RollingBack];
        rest := RollBack(c, w.rollbackFails, env[4]);
        reply := Failed;
      } else {
        calls := calls[c := Pooled];
        reply, rest := BuildAndBind(c, w, env[1..]);
      }
      Schedules.FoldConcat(Do, start, log, rest);
      log := log + rest;
    }

    method BuildAndBind(c: CallId, w: World, env: seq<seq<Action>>) returns (reply: Reply, ghost log: seq<Action>)
      requires Inv(View()) && Is(View(), c, Pooled)
      requires |env| == 4 && forall i | 0 <= i < 4 :: Foreign(env[i], c)
      modifies this
      ensures Inv(View()) && View() == Run(old(View()), log)
      ensures c in calls && calls[c] == Finished
      ensures reply.Bound? ==> bound == Some(reply.m) && status.MapSelection?
      ensures reply.Failed? && !w.rollbackFails ==> !status.MapSelection?
      ensures old(Binds(View())) && (forall i | 0 <= i < 4 :: env[i] == []) ==>
                if w.made
                then matches == old(matches)[old(nextMatch) := M.PickBan] &&
                     reply == if w.bindFails then Unknown else Bound(old(nextMatch))
                else reply == Failed && status == if w.rollbackFails then MapSelection else Gathering
    {
      hide Inv;
      hide Schedules.Fold;
      ghost var start := View();
      Others(env[0], c);
      EmptyRun(start, env[0]);
      Schedules.FoldSnoc(Do, start, env[0], Materialize(c, w.made));
      StepKeepsInv(View(), Materialize(c, w.made));
      log := env[0] + [Materialize(c, w.made)];
      ghost var rest;
      if !w.made {
        calls := calls[c := RollingBack];
        rest := RollBack(c, w.rollbackFails, env[3]);
        reply := Failed;
      } else {
        calls, matches := calls[c := Materialized(nextMatch)], matches[nextMatch := M.PickBan];
        nextMatch := nextMatch + 1;
        reply, rest := Bind(c, nextMatch - 1, w.bindFails, w.cleanUpLost, env[1], env[2], env[3]);
      }
      Schedules.FoldConcat(Do, start, log, rest);
      log := log + rest;
    }

    /** `set_materialized`, and the tear-down of the container when it refuses. A refused
        statement is returned as it is: nothing rolls the lock back. */
    method Bind(c: CallId, m: MatchId, fails: bool, lost: bool, env1: seq<Action>, env2: seq<Action>, env3: seq<Action>)
      returns (reply: Reply, ghost log: seq<Action>)
      requires Inv(View()) && Is(View(), c, Materialized(m))
      requires Foreign(env1, c) && Foreign(env2, c) && Foreign(env3, c)
      modifies this
      ensures Inv(View()) && View() == Run(old(View()), log)
      ensures c in calls && calls[c] == Finished
      ensures !reply.Failed?
      ensures reply.Bound? ==> reply.m == m && bound == Some(m) && status.MapSelection?
      ensures var raced := Run(old(View()), env1);
              reply == if fails then Unknown else if Binds(raced) then Bound(m) else Conflict
      ensures env1 == [] ==> Run(old(View()), env1) == old(View())
      ensures env1 == [] && !reply.Conflict? ==> matches == old(matches)
    {
      hide Inv;
      hide Schedules.Fold;
      ghost var start := View();
      EmptyRun(start, env1);
      Others(env1, c);
      Schedules.FoldSnoc(Do, start, env1, SetMaterialized(c, fails));
      StepKeepsInv(View(), SetMaterialized(c, fails));
      log := env1 + [SetMaterialized(c, fails)];
      if fails {
        calls := calls[c := Finished];
        return Unknown, log;
      }
      var won := Attach(m);
      if won {
        calls := calls[c := Finished];
        return Bound(m), log;
      }
      calls := calls[c := Orphaned(m)];
      ghost var rest := DiscardOrphan(c, m, lost, env2, env3);
      Schedules.FoldConcat(Do, start, log, rest);
      log := log + rest;
      reply := Conflict;
    }

    /** The orphan's cancellation: its check, and the write if the table allowed it. */
    method DiscardOrphan(c: CallId, m: MatchId, lost: bool, env1: seq<Action>, env2: seq<Action>)
      returns (ghost log: seq<Action>)
      requires Inv(View()) && Is(View(), c, Orphaned(m)) && Foreign(env1, c) && Foreign(env2, c)
      modifies this
      ensures Inv(View()) && View() == Run(old(View()), log)
      ensures c in calls && calls[c] == Finished
      ensures Allows(Run(old(View()), env1), m, M.Cancelled) && !lost ==>
                Over(View(), m) && matches[m] == M.Cancelled
      ensures !Allows(Run(old(View()), env1), m, M.Cancelled) ==> matches == Run(old(View()), env1).matches
    {
      hide Inv;
      hide Schedules.Fold;
      ghost var start := View();
      Others(env1, c);
      Schedules.FoldSnoc(Do, start, env1, DiscardCheck(c));
      StepKeepsInv(View(), DiscardCheck(c));
      log := env1 + [DiscardCheck(c)];
      var allowed := CheckTransition(m, M.Cancelled);
      if !allowed {
        calls := calls[c := Finished];
        return;
      }
      calls := calls[c := Discarding(m)];
      Others(env2, c);
      OrphanIsThere(View(), c);
      Schedules.FoldConcat(Do, start, log, env2);
      log := log + env2;
      Schedules.FoldSnoc(Do, start, log, DiscardWrite(c, lost));
      StepKeepsInv(View(), DiscardWrite(c, lost));
      log := log + [DiscardWrite(c, lost)];
      if !lost {
        WriteTransition(m, M.Cancelled);
      }
      calls := calls[c := Finished];
    }

    method RollBack(c: CallId, fails: bool, env: seq<Action>) returns (ghost log: seq<Action>)
      requires Inv(View()) && Is(View(), c, RollingBack) && Foreign(env, c)
      modifies this
      ensures Inv(View()) && View() == Run(old(View()), log)
      ensures c in calls && calls[c] == Finished
      ensures !fails ==> !status.MapSelection?
      ensures env == [] && old(status).MapSelection? ==> status == if fails then MapSelection else Gathering
    {
      hide Inv;
      hide Schedules.Fold;
      ghost var start := View();
      EmptyRun(start, env);
      Others(env, c);
      Schedules.FoldSnoc(Do, start, env, Rollback(c, fails));
      StepKeepsInv(View(), Rollback(c, fails));
      log := env + [Rollback(c, fails)];
      if !fails {
        var reopened := TransitionStatus(MapSelection, Gathering, None);
      }
      calls := calls[c := Finished];
    }

    /** `cancel_pug`: the match it tears down is the one it read, not the one bound later; the
        tear-down is a check and a write with a wait between them, and its errors are only
        logged. `torn` is the state in which the tear-down ends. */
    method CancelPug(c: CallId, authorized: bool, lost: bool, fails: bool, env: seq<seq<Action>>)
      returns (accepted: bool, ghost log: seq<Action>, ghost torn: State)
      requires Inv(View()) && c !in calls
      requires |env| == 3 && forall i | 0 <= i < 3 :: Foreign(env[i], c)
      modifies this
      ensures Inv(View()) && View() == Run(old(View()), log)
      ensures c in calls && calls[c] == Finished
      ensures accepted == (authorized && !Terminal(old(status)))
      ensures !accepted ==> status == old(status) && bound == old(bound) && matches == old(matches)
      ensures accepted && !fails ==> status.Cancelled?
      ensures accepted && Settled(torn) ==> !LeavesMatchAlive(View())
      ensures accepted && old(bound).Some? ==>
                var m, checked := old(bound).value, Run(Do(old(View()), CancelRead(c, authorized)), env[0]);
                && torn.bound == bound == old(bound)
                && (if Allows(checked, m, M.Cancelled) && !lost then Over(torn, m) && torn.matches[m] == M.Cancelled
                    else Settled(torn) ==> Over(torn, m))
    {
      hide Inv;
      hide Schedules.Fold;
      ghost var start := View();
      log, torn := [CancelRead(c, authorized)], View();
      Schedules.FoldOne(Do, start, log[0]);
      StepKeepsInv(start, log[0]);
      accepted := authorized && !Terminal(status);
      if !accepted {
        calls := calls[c := Finished];
        return;
      }
      var seen := bound;
      calls := calls[c := Cancelling(seen)];
      ghost var first := TearDown(c, seen, lost, env[0], env[1]);
      Schedules.FoldConcat(Do, start, log, first);
      log, torn := log + first, View();
      ghost var rest := MarkCancelled(c, seen, fails, env[2]);
      Schedules.FoldConcat(Do, start, log, rest);
      log := log + rest;
    }

    /** The sweeper on a lobby that never went live, or whose match ended without it: torn down
        and cancelled like one that its creator cancels. */
    method SweepPug(c: CallId, lost: bool, fails: bool, env: seq<seq<Action>>)
      returns (swept: bool, ghost log: seq<Action>, ghost torn: State)
      requires Inv(View()) && c !in calls
      requires |env| == 3 && forall i | 0 <= i < 3 :: Foreign(env[i], c)
      modifies this
      ensures Inv(View()) && View() == Run(old(View()), log)
      ensures c in calls && calls[c] == Finished
      ensures swept <==> old(status).MapSelection? || old(status).AwaitingServer? ||
                         (old(status).Live? && old(bound).Some? && old(Over(View(), bound.value)))
      ensures !swept ==> status == old(status) && bound == old(bound) && matches == old(matches)
      ensures swept && !fails ==> status.Cancelled?
      ensures swept && Settled(torn) ==> !LeavesMatchAlive(View())
    {
      hide Inv;
      hide Schedules.Fold;
      ghost var start := View();
      log, torn := [SweepRead(c)], View();
      Schedules.FoldOne(Do, start, log[0]);
      StepKeepsInv(start, log[0]);
      var ended := bound.Some? && bound.value in matches && M.Terminal(matches[bound.value]);
      swept := status.MapSelection? || status.AwaitingServer? || (status.Live? && ended);
      if !swept {
        calls := calls[c := Finished];
        return;
      }
      var seen := bound;
      calls := calls[c := Cancelling(seen)];
      ghost var first := TearDown(c, seen, lost, env[0], env[1]);
      Schedules.FoldConcat(Do, start, log, first);
      log, torn := log + first, View();
      ghost var rest := MarkCancelled(c, seen, fails, env[2]);
      Schedules.FoldConcat(Do, start, log, rest);
      log := log + rest;
    }

    /** The sweeper on a gathering lobby whose time is over. */
    method ExpireStale(ghost c: CallId)
      modifies this
      ensures View() == Do(old(View()), Expire(c))
      ensures status == if old(status).Gathering? then Expired else old(status)
      ensures bound == old(bound) && matches == old(matches) && calls == old(calls)
    {
      var expired := TransitionStatus(Gathering, Expired, None);
    }

    /** The veto of the bound match is complete: the lobby waits for its server. */
    method OnVetoCompleted(ghost c: CallId, m: MatchId)
      modifies this
      ensures View() == Do(old(View()), VetoCompleted(c, m))
      ensures status == if old(bound) == Some(m) && old(status).MapSelection? then AwaitingServer else old(status)
      ensures bound == old(bound) && matches == old(matches) && calls == old(calls)
    {
      if bound == Some(m) {
        var waits := TransitionStatus(MapSelection, AwaitingServer, None);
      }
    }

    /** The server of the bound match went live. Whatever ends the lobby between the read and
        the write is overwritten. */
    method OnMatchLive(c: CallId, m: MatchId, env: seq<Action>) returns (ghost log: seq<Action>)
      requires Inv(View()) && c !in calls && Foreign(env, c)
      modifies this
      ensures Inv(View()) && View() == Run(old(View()), log)
      ensures c in calls && calls[c] == Finished
      ensures old(bound) == Some(m) && !old(status).Completed? && !old(status).Cancelled? && !old(status).Expired? ==>
                status.Live?
      ensures old(bound) != Some(m) || old(status).Completed? || old(status).Cancelled? || old(status).Expired? ==>
                status == old(status)
    {
      hide Inv;
      hide Schedules.Fold, Do;
      ghost var start := View();
      ReadsForLive(start, c, m);
      log := [LiveRead(c, m)];
      Schedules.FoldOne(Do, start, log[0]);
      StepKeepsInv(start, log[0]);
      if bound != Some(m) || Terminal(status) {
        calls := calls[c := Finished];
        return;
      }
      calls := calls[c := GoingLive];
      Others(env, c);
      Schedules.FoldConcat(Do, start, log, env);
      Schedules.FoldSnoc(Do, start, log + env, SetLive(c));
      StepKeepsInv(View(), SetLive(c));
      WritesLive(View(), c);
      log := log + env + [SetLive(c)];
      calls := calls[c := Finished];
      status, lockedBy := Live, None;
    }

    /** The series of the bound match is over: a late one does not revive a dead lobby. */
    method OnSeriesEnd(ghost c: CallId, m: MatchId)
      modifies this
      ensures View() == Do(old(View()), SeriesEnd(c, m))
      ensures status == if old(bound) == Some(m) && !old(status).Cancelled? && !old(status).Expired?
                        then Completed else old(status)
      ensures bound == old(bound) && matches == old(matches) && calls == old(calls)
    {
      if bound == Some(m) && !status.Cancelled? && !status.Expired? {
        status, lockedBy := Completed, None;
      }
    }

    /** Check, wait, write; with no match to tear down, or a refusal, nothing is written. */
    method TearDown(c: CallId, seen: Option<MatchId>, lost: bool, env1: seq<Action>, env2: seq<Action>)
      returns (ghost log: seq<Action>)
      requires Inv(View()) && Is(View(), c, Cancelling(seen)) && Foreign(env1, c) && Foreign(env2, c)
      modifies this
      ensures Inv(View()) && View() == Run(old(View()), log)
      ensures Is(View(), c, TornDown(seen))
      ensures seen.Some? ==> bound == seen
      ensures seen.Some? && Allows(Run(old(View()), env1), seen.value, M.Cancelled) && !lost ==>
                Over(View(), seen.value) && matches[seen.value] == M.Cancelled
      ensures seen.None? || !Allows(Run(old(View()), env1), seen.value, M.Cancelled) ==>
                matches == Run(old(View()), env1).matches && status == Run(old(View()), env1).status
    {
      hide Inv;
      hide Schedules.Fold;
      ghost var start := View();
      Others(env1, c);
      SeenIsBound(View(), c);
      Schedules.FoldSnoc(Do, start, env1, TearCheck(c));
      StepKeepsInv(View(), TearCheck(c));
      log := env1 + [TearCheck(c)];
      var allowed := false;
      if seen.Some? {
        allowed := CheckTransition(seen.value, M.Cancelled);
      }
      if !allowed {
        calls := calls[c := TornDown(seen)];
        return;
      }
      calls := calls[c := Tearing(seen.value)];
      ghost var rest := WriteTearDown(c, seen.value, lost, env2);
      Schedules.FoldConcat(Do, start, log, rest);
      log := log + rest;
    }

    method WriteTearDown(c: CallId, m: MatchId, lost: bool, env: seq<Action>) returns (ghost log: seq<Action>)
      requires Inv(View()) && Is(View(), c, Tearing(m)) && Foreign(env, c)
      modifies this
      ensures Inv(View()) && View() == Run(old(View()), log)
      ensures Is(View(), c, TornDown(Some(m)))
      ensures bound == Some(m) && (!lost ==> Over(View(), m) && matches[m] == M.Cancelled)
    {
      hide Inv;
      hide Schedules.Fold;
      ghost var start := View();
      Others(env, c);
      SeenIsBound(View(), c);
      Schedules.FoldSnoc(Do, start, env, TearWrite(c, lost));
      StepKeepsInv(View(), TearWrite(c, lost));
      log := env + [TearWrite(c, lost)];
      if !lost {
        WriteTransition(m, M.Cancelled);
      }
      calls := calls[c := TornDown(Some(m))];
    }

    method MarkCancelled(c: CallId, seen: Option<MatchId>, fails: bool, env: seq<Action>)
      returns (ghost log: seq<Action>)
      requires Inv(View()) && Is(View(), c, TornDown(seen)) && Foreign(env, c)
      modifies this
      ensures Inv(View()) && View() == Run(old(View()), log)
      ensures c in calls && calls[c] == Finished
      ensures seen.Some? ==> bound == seen
      ensures old(Settled(View())) ==> !LeavesMatchAlive(View())
      ensures !fails ==> status.Cancelled?
    {
      hide Inv;
      hide Schedules.Fold;
      ghost var start := View();
      Others(env, c);
      SeenIsBound(View(), c);
      Schedules.FoldSnoc(Do, start, env, SetCancelled(c, fails));
      StepKeepsInv(View(), SetCancelled(c, fails));
      log := env + [SetCancelled(c, fails)];
      if Settled(start) {
        SettledForever(start, log);
      }
      calls := calls[c := Finished];
      if !fails {
        status, lockedBy := Cancelled, None;
      }
    }
  }

  lemma Prepares(s: State, c: CallId, valid: bool)
    requires c !in s.calls
    ensures Do(s, PrepareLock(c, valid)) == At(s, c, if s.status.Gathering? && valid then Validated else Finished)
  {
  }

  lemma Locks(s: State, c: CallId)
    requires Is(s, c, Validated)
    ensures Do(s, LockCas(c)) ==
              if s.status.Gathering? then At(s, c, Locked).(status := MapSelection, lockedBy := Some(c))
              else At(s, c, Finished)
  {
  }

  lemma ReadsForLive(s: State, c: CallId, m: MatchId)
    requires c !in s.calls
    ensures Do(s, LiveRead(c, m)) ==
              At(s, c, if s.bound == Some(m) && !Terminal(s.status) then GoingLive else Finished)
  {
  }

  lemma WritesLive(s: State, c: CallId)
    requires Is(s, c, GoingLive)
    ensures Do(s, SetLive(c)) == At(s, c, Finished).(status := Live, lockedBy := None)
  {
  }

  lemma EmptyRun(s: State, actions: seq<Action>)
    ensures actions == [] ==> Run(s, actions) == s
  {
  }

  lemma OpenIsUnbound(s: State)
    requires Inv(s)
    ensures s.status.Gathering? ==> s.bound.None?
  {
  }

  /** What a cancelling handler saw is what the lobby is bound to. */
  lemma SeenIsBound(s: State, c: CallId)
    requires Inv(s) && c in s.calls && Cancels(s.calls[c])
    ensures Noted(s.calls[c]).Some? ==> s.bound == Noted(s.calls[c]) && s.bound.value in s.matches
  {
  }

  lemma OrphanIsThere(s: State, c: CallId)
    requires Inv(s) && c in s.calls && s.calls[c].Discarding?
    ensures s.calls[c].made in s.matches
  {
    assert Noted(s.calls[c]) == Some(s.calls[c].made);
  }
}
