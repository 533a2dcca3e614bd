/**
 Locking a pick-up game.

 One lobby row, raced by callers that lock it, cancel it, and by the sweeper and the
 status hooks. Every handler is cut at its repository calls; `Do` is one such call,
 `Run` a schedule of them, so a theorem over `Run` covers every interleaving and crash.
*/
module PugLock {
  import opened Options
  import Schedules
  import M = MatchLifecycle
  import opened Collections

  type CallId = nat
  type MatchId = nat

  datatype Status = Gathering | MapSelection | AwaitingServer | Live | Completed | Cancelled | Expired

  predicate Terminal(status: Status) {
    status.Completed? || status.Cancelled? || status.Expired?
  }

  /** Where a handler stands between two repository calls. */
  datatype Call =
    | Validated                               // lock_pug: the open lobby passed validation
    | Locked                                  // won gathering -> map_selection
    | Planned                                 // re-validated the frozen roster
    | Pooled                                  // resolved the map pool
    | Materialized(made: MatchId)             // created the container match
    | RollingBack                             // failed after the win
    | Orphaned(made: MatchId)                 // set_materialized refused its match
    | Discarding(made: MatchId)               // checked that the table allows its cancellation
    | Cancelling(seen: Option<MatchId>)       // read the row, about to tear its match down
    | Tearing(target: MatchId)                // checked that the table allows the cancellation
    | TornDown(seen: Option<MatchId>)         // about to write `cancelled`
    | Moving(of: MatchId, to: M.Status)       // any other transition, past its check
    | GoingLive                               // read a non-terminal row, about to write `live`
    | Finished

  /** `matches` are the container matches made so far. `lockedBy` records whose compare-and-set
      the current `map_selection` comes from; no column stores it. */
  datatype State = State(status: Status, bound: Option<MatchId>, matches: map<MatchId, M.Status>, nextMatch: MatchId,
                         calls: map<CallId, Call>, lockedBy: Option<CallId>)

  const Init := State(Gathering, None, map[], 0, map[], None)

  datatype Action =
    | PrepareLock(c: CallId, valid: bool)
    | LockCas(c: CallId)
    | Replan(c: CallId, valid: bool)
    | ResolvePool(c: CallId, ok: bool)
    | Materialize(c: CallId, ok: bool)
    | SetMaterialized(c: CallId, failed: bool)
    | DiscardCheck(c: CallId)
    | DiscardWrite(c: CallId, lost: bool)
    | Rollback(c: CallId, failed: bool)
    | CancelRead(c: CallId, authorized: bool)
    | SweepRead(c: CallId)
    | TearCheck(c: CallId)
    | TearWrite(c: CallId, lost: bool)
    | SetCancelled(c: CallId, failed: bool)
    | Expire(c: CallId)
    | VetoCompleted(c: CallId, m: MatchId)
    | LiveRead(c: CallId, m: MatchId)
    | SetLive(c: CallId)
    | SeriesEnd(c: CallId, m: MatchId)
    | MatchCheck(c: CallId, m: MatchId, to: M.Status)   // any other handler's transition: its check
    | MatchWrite(c: CallId)                             // and its write, which looks at nothing
    | MatchVoided(c: CallId, m: MatchId)                // a double forfeit, whatever the status
    | Crash(c: CallId)

  predicate Is(s: State, c: CallId, call: Call) {
    c in s.calls && s.calls[c] == call
  }

  function At(s: State, c: CallId, call: Call): State {
    s.(calls := s.calls[c := call])
  }

  /** Any write of the status other than the winning lock. */
  function SetStatus(s: State, status: Status): State {
    s.(status := status, lockedBy := None)
  }

  /** A transition reads the match and asks the table; its write, later, is unconditional. */
  predicate Allows(s: State, m: MatchId, to: M.Status) {
    m in s.matches && to in M.Allowed(s.matches[m])
  }

  function WriteMatch(s: State, m: MatchId, to: M.Status): State {
    if m in s.matches then s.(matches := s.matches[m := to]) else s
  }

  predicate Over(s: State, m: MatchId) {
    m in s.matches && M.Terminal(s.matches[m])
  }

  // ---------------------------------------------------------------- lock_pug

  function DoPrepareLock(s: State, c: CallId, valid: bool): State {
    if c in s.calls then s
    else At(s, c, if s.status.Gathering? && valid then Validated else Finished)
  }

  function DoLockCas(s: State, c: CallId): State {
    if !Is(s, c, Validated) then s
    else if s.status.Gathering? then At(s, c, Locked).(status := MapSelection, lockedBy := Some(c))
    else At(s, c, Finished)
  }

  function DoReplan(s: State, c: CallId, valid: bool): State {
    if !Is(s, c, Locked) then s
    else At(s, c, if s.status.MapSelection? && s.bound.None? && valid then Planned else RollingBack)
  }

  function DoResolvePool(s: State, c: CallId, ok: bool): State {
    if !Is(s, c, Planned) then s else At(s, c, if ok then Pooled else RollingBack)
  }

  function DoMaterialize(s: State, c: CallId, ok: bool): State {
    if !Is(s, c, Pooled) then s
    else if ok then
      At(s, c, Materialized(s.nextMatch)).(
        nextMatch := s.nextMatch + 1, matches := s.matches[s.nextMatch := M.PickBan])
    else At(s, c, RollingBack)
  }

  /** UPDATE ... WHERE status = 'map_selection' AND match_id IS NULL. */
  predicate Binds(s: State) {
    s.status.MapSelection? && s.bound.None?
  }

  function DoSetMaterialized(s: State, c: CallId, failed: bool): State {
    if !(c in s.calls && s.calls[c].Materialized?) then s
    else if failed then At(s, c, Finished)
    else if Binds(s) then At(s, c, Finished).(bound := Some(s.calls[c].made))
    else At(s, c, Orphaned(s.calls[c].made))
  }

  /** An orphan is cancelled if the table allows it; every error is swallowed. */
  function DoDiscard(s: State, a: Action): State
    requires a.DiscardCheck? || a.DiscardWrite?
  {
    match a
    case DiscardCheck(c) =>
      if !(c in s.calls && s.calls[c].Orphaned?) then s
      else At(s, c, if Allows(s, s.calls[c].made, M.Cancelled) then Discarding(s.calls[c].made) else Finished)
    case DiscardWrite(c, lost) =>
      if !(c in s.calls && s.calls[c].Discarding?) then s
      else if lost then At(s, c, Finished)
      else WriteMatch(At(s, c, Finished), s.calls[c].made, M.Cancelled)
  }

  function DoRollback(s: State, c: CallId, failed: bool): State {
    if !Is(s, c, RollingBack) then s
    else if !failed && s.status.MapSelection? then SetStatus(At(s, c, Finished), Gathering)
    else At(s, c, Finished)
  }

  // ---------------------------------------------------------------- cancel and sweep

  function DoCancelRead(s: State, c: CallId, authorized: bool): State {
    if c in s.calls then s
    else At(s, c, if authorized && !Terminal(s.status) then Cancelling(s.bound) else Finished)
  }

  /** The sweeper picks up a stalled pug, or one whose match already ended. */
  function DoSweepRead(s: State, c: CallId): State {
    if c in s.calls then s
    else
      var stalled := s.status.MapSelection? || s.status.AwaitingServer?;
      var desynced := (stalled || s.status.Live?) && s.bound.Some? && Over(s, s.bound.value);
      At(s, c, if stalled || desynced then Cancelling(s.bound) else Finished)
  }

  /** The tear-down checks, then writes, and goes on whatever comes of it: a forbidden
      transition is only logged, and so is a failed one. */
  function DoTearCheck(s: State, c: CallId): State {
    if !(c in s.calls && s.calls[c].Cancelling?) then s
    else
      var seen := s.calls[c].seen;
      At(s, c, if seen.Some? && Allows(s, seen.value, M.Cancelled) then Tearing(seen.value) else TornDown(seen))
  }

  function DoTearWrite(s: State, c: CallId, lost: bool): State {
    if !(c in s.calls && s.calls[c].Tearing?) then s
    else
      var m := s.calls[c].target;
      var r := At(s, c, TornDown(Some(m)));
      if lost then r else WriteMatch(r, m, M.Cancelled)
  }

  function DoSetCancelled(s: State, c: CallId, failed: bool): State {
    if !(c in s.calls && s.calls[c].TornDown?) then s
    else if failed then At(s, c, Finished)
    else SetStatus(At(s, c, Finished), Cancelled)
  }

  // ---------------------------------------------------------------- status hooks

  /** The hooks that are one conditional write each, and the sweeper's expiry. */
  function DoHook(s: State, a: Action): State
    requires a.Expire? || a.VetoCompleted? || a.SeriesEnd?
  {
    match a
    case Expire(_) => if s.status.Gathering? then SetStatus(s, Expired) else s
    case VetoCompleted(_, m) => if s.bound == Some(m) && s.status.MapSelection? then SetStatus(s, AwaitingServer) else s
    case SeriesEnd(_, m) =>
      if s.bound == Some(m) && !s.status.Cancelled? && !s.status.Expired? then SetStatus(s, Completed) else s
  }

  function DoMatch(s: State, a: Action): State
    requires a.MatchCheck? || a.MatchWrite? || a.MatchVoided?
  {
    match a
    case MatchCheck(c, m, to) => if c in s.calls || !Allows(s, m, to) then s else At(s, c, Moving(m, to))
    case MatchWrite(c) =>
      if !(c in s.calls && s.calls[c].Moving?) then s
      else WriteMatch(At(s, c, Finished), s.calls[c].of, s.calls[c].to)
    case MatchVoided(_, m) => WriteMatch(s, m, M.Cancelled)
  }

  function DoLiveRead(s: State, c: CallId, m: MatchId): State {
    if c in s.calls then s
    else At(s, c, if s.bound == Some(m) && !Terminal(s.status) then GoingLive else Finished)
  }

  function DoSetLive(s: State, c: CallId): State {
    if !Is(s, c, GoingLive) then s else SetStatus(At(s, c, Finished), Live)
  }

  function Do(s: State, a: Action): State {
    match a
    case PrepareLock(c, valid) => DoPrepareLock(s, c, valid)
    case LockCas(c) => DoLockCas(s, c)
    case Replan(c, valid) => DoReplan(s, c, valid)
    case ResolvePool(c, ok) => DoResolvePool(s, c, ok)
    case Materialize(c, ok) => DoMaterialize(s, c, ok)
    case SetMaterialized(c, failed) => DoSetMaterialized(s, c, failed)
    case DiscardCheck(_) => DoDiscard(s, a)
    case DiscardWrite(_, _) => DoDiscard(s, a)
    case Rollback(c, failed) => DoRollback(s, c, failed)
    case CancelRead(c, authorized) => DoCancelRead(s, c, authorized)
    case SweepRead(c) => DoSweepRead(s, c)
    case TearCheck(c) => DoTearCheck(s, c)
    case TearWrite(c, lost) => DoTearWrite(s, c, lost)
    case SetCancelled(c, failed) => DoSetCancelled(s, c, failed)
    case LiveRead(c, m) => DoLiveRead(s, c, m)
    case SetLive(c) => DoSetLive(s, c)
    case MatchCheck(_, _, _) => DoMatch(s, a)
    case MatchWrite(_) => DoMatch(s, a)
    case MatchVoided(_, _) => DoMatch(s, a)
    case Crash(c) => if c in s.calls then At(s, c, Finished) else s
    case _ => DoHook(s, a)
  }

  /** A schedule of actions, the last one taken last. */
  function Run(s: State, actions: seq<Action>): State {
    Schedules.Fold(Do, s, actions)
  }

  // ---------------------------------------------------------------- the invariant

  /** Between its winning compare-and-set and its exit. */
  predicate InLock(s: State, c: CallId) {
    c in s.calls && match s.calls[c]
    case Locked => true
    case Planned => true
    case Pooled => true
    case Materialized(_) => true
    case RollingBack => true
    case Orphaned(_) => true
    case Discarding(_) => true
    case _ => false
  }

  /** The match a handler made or saw. */
  function Noted(call: Call): Option<MatchId> {
    match call
    case Materialized(m) => Some(m)
    case Orphaned(m) => Some(m)
    case Cancelling(seen) => seen
    case Discarding(m) => Some(m)
    case Tearing(m) => Some(m)
    case TornDown(seen) => seen
    case _ => None
  }

  ghost predicate OneLocker(s: State) {
    && (forall c, d | InLock(s, c) && InLock(s, d) :: c == d)
    && (forall c | InLock(s, c) :: !s.status.Gathering? && s.bound.None?)
    && (forall c: CallId | InLock(s, c) && s.status.MapSelection? :: s.lockedBy == Some(c))
  }

  /** A handler on its way to writing `cancelled`. */
  predicate Cancels(call: Call) {
    call.Cancelling? || call.Tearing? || call.TornDown?
  }

  ghost predicate BoundIsFinal(s: State) {
    && (forall m: MatchId :: m in s.matches <==> m < s.nextMatch)
    && (s.bound.Some? ==> !s.status.Gathering? && s.bound.value < s.nextMatch)
    && (forall c | c in s.calls && Noted(s.calls[c]).Some? :: Noted(s.calls[c]).value < s.nextMatch)
    && (forall c | c in s.calls && Cancels(s.calls[c]) && Noted(s.calls[c]).Some? :: s.bound == Noted(s.calls[c]))
    && (forall c | c in s.calls && s.calls[c].GoingLive? :: s.bound.Some?)
  }

  ghost predicate Inv(s: State) {
    OneLocker(s) && BoundIsFinal(s)
  }

  /** What one action can do to the row and to whom it lets into the lock. */
  lemma Effects(s: State, a: Action)
    ensures var r := Do(s, a);
            && (r.status.Gathering? ==> s.status.Gathering? || (InLock(s, a.c) && !InLock(r, a.c)))
            && (r.bound == s.bound || (Binds(s) && InLock(s, a.c) && !InLock(r, a.c) && r.status == s.status))
            && (InLock(r, a.c) && !InLock(s, a.c) ==>
                  s.status.Gathering? && r.lockedBy == Some(a.c) && r.status.MapSelection?)
            && (r.status.MapSelection? ==>
                  (s.status.MapSelection? && r.lockedBy == s.lockedBy) ||
                    (s.status.Gathering? && r.lockedBy == Some(a.c)))
  {
  }

  lemma Frame(s: State, a: Action)
    ensures var r := Do(s, a);
            forall d | d != a.c :: (d in r.calls <==> d in s.calls) && (d in s.calls ==> r.calls[d] == s.calls[d])
  {
  }

  lemma DoKeepsOneLocker(s: State, a: Action)
    requires OneLocker(s) && (s.bound.Some? ==> !s.status.Gathering?)
    ensures OneLocker(Do(s, a))
  {
    hide Do;
    var r := Do(s, a);
    Effects(s, a);
    Frame(s, a);
    assert forall d | d != a.c :: InLock(r, d) <==> InLock(s, d);
    assert InLock(s, a.c) || !InLock(s, a.c);
  }

  lemma Notes(s: State, a: Action)
    requires a.c in Do(s, a).calls
    ensures var r := Do(s, a); var call := r.calls[a.c];
            || (a.c in s.calls && s.calls[a.c] == call)
            || Noted(call).None?
            || (r.nextMatch == s.nextMatch + 1 && call == Materialized(s.nextMatch))
            || (!call.Materialized? && a.c in s.calls && Noted(s.calls[a.c]) == Noted(call)
                && (Cancels(call) <==> Cancels(s.calls[a.c])))
            || (call.Cancelling? && Noted(call) == s.bound == r.bound)
  {
  }

  lemma DoKeepsBound(s: State, a: Action)
    requires Inv(s)
    ensures BoundIsFinal(Do(s, a))
  {
    hide Do;
    var r := Do(s, a);
    Effects(s, a);
    Grows(s, a);
    Frame(s, a);
    if a.c in r.calls {
      Notes(s, a);
    }
    assert InLock(s, a.c) ==> s.bound.None?;
  }

  lemma Grows(s: State, a: Action)
    requires BoundIsFinal(s)
    ensures var r := Do(s, a);
            && s.nextMatch <= r.nextMatch
            && (forall m: MatchId :: m in r.matches <==> m < r.nextMatch)
            && (r.bound.Some? ==> r.bound.value < r.nextMatch)
            && (a.c in r.calls && r.calls[a.c].GoingLive? ==> r.bound.Some?)
  {
  }

  lemma {:induction false} RunKeepsInv(s: State, actions: seq<Action>)
    requires Inv(s)
    ensures Inv(Run(s, actions))
    decreases |actions|
  {
    if actions != [] {
      var n := |actions| - 1;
      RunKeepsInv(s, actions[..n]);
      DoKeepsOneLocker(Run(s, actions[..n]), actions[n]);
      DoKeepsBound(Run(s, actions[..n]), actions[n]);
    }
  }

  // ---------------------------------------------------------------- what every run keeps

  /** Over every interleaving and crash, at most one caller is inside the lock. */
  lemma AtMostOneLocker(actions: seq<Action>, c: CallId, d: CallId)
    requires InLock(Run(Init, actions), c) && InLock(Run(Init, actions), d)
    ensures c == d
  {
    RunKeepsInv(Init, actions);
  }

  /** A rollback that reopens the lobby takes back the caller's own lock, never another's:
      the `map_selection` it undoes comes from its own compare-and-set, untouched since. */
  lemma RollbackUndoesOwnLock(actions: seq<Action>, c: CallId, failed: bool)
    requires var s := Run(Init, actions); Do(s, Rollback(c, failed)).status != s.status
    ensures var s := Run(Init, actions); s.lockedBy == Some(c) && s.bound.None? && InLock(s, c)
  {
    RunKeepsInv(Init, actions);
    var s := Run(Init, actions);
    assert InLock(s, c);
  }

  /** Once bound, a match stays the lobby's match and the lobby never gathers again. */
  lemma {:induction false} BoundForever(s: State, actions: seq<Action>)
    requires Inv(s) && s.bound.Some?
    ensures Run(s, actions).bound == s.bound && !Run(s, actions).status.Gathering?
    decreases |actions|
  {
    RunKeepsInv(s, actions);
    if actions != [] {
      var n := |actions| - 1;
      BoundForever(s, actions[..n]);
      Effects(Run(s, actions[..n]), actions[n]);
    }
  }

  // ---------------------------------------------------------------- where the comments err

  /** The comment at the failed binding calls it unreachable after the winning
      compare-and-set. It happens exactly when someone moved the status in between. */
  lemma BindingFailsExactly(actions: seq<Action>, c: CallId, m: MatchId)
    requires Is(Run(Init, actions), c, Materialized(m))
    ensures var s := Run(Init, actions);
            Is(Do(s, SetMaterialized(c, false)), c, Orphaned(m)) <==> !s.status.MapSelection?
  {
    var s := Run(Init, actions);
    RunKeepsInv(Init, actions);
    assert InLock(s, c);
  }


  const Lock: seq<Action> :=
    [PrepareLock(0, true), LockCas(0), Replan(0, true), ResolvePool(0, true), Materialize(0, true)]

  const CancelDuringLock: seq<Action> :=
    Lock + [CancelRead(1, true), TearCheck(1), SetCancelled(1, false), SetMaterialized(0, false)]

  const BindDuringCancel: seq<Action> :=
    Lock + [CancelRead(1, true), TearCheck(1), SetMaterialized(0, false), SetCancelled(1, false)]

  const CancelLive: seq<Action> :=
    Lock + [SetMaterialized(0, false), MatchCheck(2, 0, M.InProgress), MatchWrite(2), LiveRead(3, 0), SetLive(3),
            CancelRead(1, true), TearCheck(1), SetCancelled(1, false)]

  const CancelOvertaken: seq<Action> :=
    Lock + [SetMaterialized(0, false), MatchCheck(2, 0, M.InProgress), CancelRead(1, true), TearCheck(1),
            TearWrite(1, false), MatchWrite(2), SetCancelled(1, false)]

  lemma RunStep(actions: seq<Action>, n: nat)
    requires n < |actions|
    ensures Run(Init, actions[..n + 1]) == Do(Run(Init, actions[..n]), actions[n])
  {
    Schedules.FoldPrefix(Do, Init, actions, n);
  }

  lemma BindingCanFail()
    ensures Is(Run(Init, CancelDuringLock), 0, Orphaned(0))
  {
    hide Run;
    LockUpToMaterialize(CancelDuringLock);
    CancelWithoutMatch(CancelDuringLock);
    RunStep(CancelDuringLock, 7);
    RunStep(CancelDuringLock, 8);
    assert CancelDuringLock[..9] == CancelDuringLock;
  }

  const AfterMaterialize := State(MapSelection, None, map[0 := M.PickBan], 1, map[0 := Materialized(0)], Some(0))

  lemma LockUpToMaterialize(actions: seq<Action>)
    requires |actions| >= 5
    requires actions[..5] == Lock
    ensures Run(Init, actions[..5]) == AfterMaterialize
  {
    assert actions[..0] == [];
    RunStep(actions[..5], 0);
    RunStep(actions[..5], 1);
    RunStep(actions[..5], 2);
    RunStep(actions[..5], 3);
    RunStep(actions[..5], 4);
    assert actions[..5][..0] == [] && actions[..5][..5] == actions[..5];
  }

  lemma CancelWithoutMatch(actions: seq<Action>)
    requires |actions| >= 7 && actions[5] == CancelRead(1, true) && actions[6] == TearCheck(1)
    requires Run(Init, actions[..5]) == AfterMaterialize
    ensures Run(Init, actions[..7]) == AfterMaterialize.(calls := map[0 := Materialized(0), 1 := TornDown(None)])
  {
    hide Run;
    RunStep(actions, 5);
    RunStep(actions, 6);
  }

  // ---------------------------------------------------------------- what a cancel leaves behind

  /** A cancelled lobby whose match goes on. */
  predicate LeavesMatchAlive(s: State) {
    s.status.Cancelled? && s.bound.Some? && !Over(s, s.bound.value)
  }

  predicate Foreign(actions: seq<Action>, c: CallId) {
    forall i | 0 <= i < |actions| :: actions[i].c != c
  }

  lemma {:induction false} ForeignKeepsCall(s: State, actions: seq<Action>, c: CallId)
    requires Foreign(actions, c)
    ensures var r := Run(s, actions);
            (c in r.calls <==> c in s.calls) && (c in s.calls ==> r.calls[c] == s.calls[c])
    decreases |actions|
  {
    if actions != [] {
      ForeignKeepsCall(s, actions[..|actions| - 1], c);
      Frame(Run(s, actions[..|actions| - 1]), actions[|actions| - 1]);
    }
  }

  /** Past its check and about to put the match in a status that is not terminal. */
  predicate Revives(s: State, d: CallId, m: MatchId) {
    d in s.calls && s.calls[d].Moving? && s.calls[d].of == m && !M.Terminal(s.calls[d].to)
  }

  /** Over, and nobody is about to write something else. */
  ghost predicate Dead(s: State, m: MatchId) {
    Over(s, m) && forall d :: !Revives(s, d, m)
  }

  lemma DeadStep(s: State, a: Action, m: MatchId)
    requires Dead(s, m) && BoundIsFinal(s)
    ensures Dead(Do(s, a), m)
  {
    var r := Do(s, a);
    Frame(s, a);
    OverUnlessRevived(s, a, m);
    assert !Revives(s, a.c, m);
    forall d ensures !Revives(r, d, m) {
      if d == a.c {
        NoNewReviver(s, a, m);
      } else {
        assert !Revives(s, d, m);
      }
    }
  }

  lemma OverUnlessRevived(s: State, a: Action, m: MatchId)
    requires Over(s, m) && BoundIsFinal(s) && !Revives(s, a.c, m)
    ensures Over(Do(s, a), m)
  {
  }

  lemma NoNewReviver(s: State, a: Action, m: MatchId)
    requires Over(s, m) && !Revives(s, a.c, m)
    ensures !Revives(Do(s, a), a.c, m)
  {
  }

  lemma {:induction false} DeadForever(s: State, actions: seq<Action>, m: MatchId)
    requires Dead(s, m) && Inv(s)
    ensures Dead(Run(s, actions), m)
    decreases |actions|
  {
    if actions != [] {
      var n := |actions| - 1;
      DeadForever(s, actions[..n], m);
      RunKeepsInv(s, actions[..n]);
      DeadStep(Run(s, actions[..n]), actions[n], m);
    }
  }

  ghost predicate StaysOver(s: State, m: MatchId) {
    forall actions :: Over(Run(s, actions), m)
  }

  /** A match stays over, whatever anyone does, if and only if it is over and no transition that
      was checked before is still to be written. A tear-down that took is not enough. */
  lemma TornDownMeansDead(s: State, m: MatchId)
    requires Inv(s) && m in s.matches
    ensures StaysOver(s, m) <==> Dead(s, m)
  {
    if Dead(s, m) {
      forall actions ensures Over(Run(s, actions), m) {
        DeadForever(s, actions, m);
      }
    } else if !Over(s, m) {
      assert Run(s, []) == s;
    } else {
      var d :| Revives(s, d, m);
      Schedules.FoldOne(Do, s, MatchWrite(d));
      assert !Over(Run(s, [MatchWrite(d)]), m);
    }
  }

  /** Whatever the others do before handler `c` writes `cancelled`, and anyone after it, no match
      goes on under the cancelled lobby. */
  ghost predicate NeverLeavesMatch(s: State, c: CallId) {
    forall before, after | Foreign(before, c) :: !LeavesMatchAlive(Ending(s, c, before, after))
  }

  function Ending(s: State, c: CallId, before: seq<Action>, after: seq<Action>): State {
    Run(Do(Run(s, before), SetCancelled(c, false)), after)
  }

  /** This locker can still bind a running match, or roll back to a lobby someone else locks. */
  ghost predicate CanBind(s: State, d: CallId) {
    && InLock(s, d) && !s.calls[d].Orphaned? && !s.calls[d].Discarding?
    && (s.calls[d].Materialized? ==> !Dead(s, s.calls[d].made))
  }

  /** No match runs under the lobby, and none can get there. */
  ghost predicate Settled(s: State) {
    if s.bound.Some? then Dead(s, s.bound.value)
    else !s.status.Gathering? && (s.status.MapSelection? ==> forall d :: !CanBind(s, d))
  }

  lemma SettledStep(s: State, a: Action)
    requires Inv(s) && Settled(s)
    ensures Settled(Do(s, a))
  {
    var r := Do(s, a);
    Effects(s, a);
    if s.bound.Some? {
      DeadStep(s, a, s.bound.value);
    } else if Binds(s) {
      BindsDead(s, a);
      hide Do;
      forall d | CanBind(r, d) ensures false {
        CannotBind(s, a, d);
      }
    } else {
      assert !r.status.MapSelection?;
    }
  }

  lemma BindsDead(s: State, a: Action)
    requires Inv(s) && Settled(s) && Binds(s)
    ensures Do(s, a).bound.Some? ==> Dead(Do(s, a), Do(s, a).bound.value)
    ensures !Do(s, a).status.Gathering?
  {
    assert !CanBind(s, a.c);
    if Do(s, a).bound.Some? {
      DeadStep(s, a, s.calls[a.c].made);
    }
  }

  lemma CannotBind(s: State, a: Action, d: CallId)
    requires Inv(s) && Settled(s) && Binds(s)
    ensures !CanBind(Do(s, a), d)
  {
    Frame(s, a);
    assert !CanBind(s, d);
    if InLock(s, d) && s.calls[d].Materialized? {
      DeadStep(s, a, s.calls[d].made);
    }
    LockMoves(s, a);
    hide Do, Dead;
  }

  /** How a locker can move on. */
  lemma LockMoves(s: State, a: Action)
    requires Binds(s)
    ensures var r := Do(s, a);
            InLock(r, a.c) ==>
              && InLock(s, a.c)
              && (s.calls[a.c].Orphaned? || s.calls[a.c].Discarding? ==>
                    r.calls[a.c].Orphaned? || r.calls[a.c].Discarding?)
              && (s.calls[a.c].Materialized? ==> r.calls[a.c] == s.calls[a.c] || r.calls[a.c].Orphaned?)
  {
  }

  lemma {:induction false} SettledForever(s: State, actions: seq<Action>)
    requires Inv(s) && Settled(s)
    ensures Settled(Run(s, actions))
    decreases |actions|
  {
    if actions != [] {
      var n := |actions| - 1;
      SettledForever(s, actions[..n]);
      RunKeepsInv(s, actions[..n]);
      SettledStep(Run(s, actions[..n]), actions[n]);
    }
  }

  // The runs that leave a running match after all, backwards from the last write.

  ghost predicate Leaves(s: State, c: CallId, others: seq<Action>) {
    Foreign(others, c) && LeavesMatchAlive(Ending(s, c, others, []))
  }

  lemma Before(s: State, c: CallId, a: Action, others: seq<Action>)
    requires a.c != c && Leaves(Do(s, a), c, others)
    ensures Leaves(s, c, [a] + others)
  {
    Schedules.FoldOne(Do, s, a);
    Schedules.FoldConcat(Do, s, [a], others);
  }

  lemma FromBound(s: State, c: CallId) returns (others: seq<Action>)
    requires c in s.calls && s.calls[c].TornDown? && s.bound.Some? && s.bound.value in s.matches &&
             !Dead(s, s.bound.value)
    ensures Leaves(s, c, others)
  {
    if Over(s, s.bound.value) {
      var d :| Revives(s, d, s.bound.value);
      assert Leaves(Do(s, MatchWrite(d)), c, []);
      Before(s, c, MatchWrite(d), []);
      others := [MatchWrite(d)] + [];
    } else {
      others := [];
    }
  }

  lemma FromMaterialized(s: State, c: CallId, d: CallId) returns (others: seq<Action>)
    requires c in s.calls && s.calls[c].TornDown? && Binds(s) && d in s.calls && s.calls[d].Materialized?
    requires s.calls[d].made in s.matches && !Dead(s, s.calls[d].made)
    ensures Leaves(s, c, others)
  {
    var a, m := SetMaterialized(d, false), s.calls[d].made;
    var r := Do(s, a);
    if Over(s, m) {
      var e :| Revives(s, e, m);
      assert Revives(r, e, m);
    }
    others := FromBound(r, c);
    Before(s, c, a, others);
    others := [a] + others;
  }

  lemma FromPooled(s: State, c: CallId, d: CallId) returns (others: seq<Action>)
    requires c in s.calls && s.calls[c].TornDown? && Binds(s) && Is(s, d, Pooled)
    ensures Leaves(s, c, others)
  {
    var a := Materialize(d, true);
    others := FromMaterialized(Do(s, a), c, d);
    Before(s, c, a, others);
    others := [a] + others;
  }

  lemma FromPlanned(s: State, c: CallId, d: CallId) returns (others: seq<Action>)
    requires c in s.calls && s.calls[c].TornDown? && Binds(s) && Is(s, d, Planned)
    ensures Leaves(s, c, others)
  {
    var a := ResolvePool(d, true);
    others := FromPooled(Do(s, a), c, d);
    Before(s, c, a, others);
    others := [a] + others;
  }

  lemma FromLocked(s: State, c: CallId, d: CallId) returns (others: seq<Action>)
    requires c in s.calls && s.calls[c].TornDown? && Binds(s) && Is(s, d, Locked)
    ensures Leaves(s, c, others)
  {
    var a := Replan(d, true);
    others := FromPlanned(Do(s, a), c, d);
    Before(s, c, a, others);
    others := [a] + others;
  }

  lemma FromValidated(s: State, c: CallId, d: CallId) returns (others: seq<Action>)
    requires c in s.calls && s.calls[c].TornDown? && s.status.Gathering? && s.bound.None? && Is(s, d, Validated)
    ensures Leaves(s, c, others)
  {
    var a := LockCas(d);
    others := FromLocked(Do(s, a), c, d);
    Before(s, c, a, others);
    others := [a] + others;
  }

  lemma FromGathering(s: State, c: CallId) returns (others: seq<Action>)
    requires c in s.calls && s.calls[c].TornDown? && s.status.Gathering? && s.bound.None?
    ensures Leaves(s, c, others)
  {
    var d := Unused(s.calls.Keys);
    var a := PrepareLock(d, true);
    others := FromValidated(Do(s, a), c, d);
    Before(s, c, a, others);
    others := [a] + others;
  }

  lemma FromLocker(s: State, c: CallId, d: CallId) returns (others: seq<Action>)
    requires Inv(s) && c in s.calls && s.calls[c].TornDown? && Binds(s) && CanBind(s, d)
    ensures Leaves(s, c, others)
  {
    match s.calls[d]
    case Locked => others := FromLocked(s, c, d);
    case Planned => others := FromPlanned(s, c, d);
    case Pooled => others := FromPooled(s, c, d);
    case Materialized(m) =>
      assert Noted(s.calls[d]) == Some(m);
      others := FromMaterialized(s, c, d);
    case RollingBack =>
      var a := Rollback(d, false);
      others := FromGathering(Do(s, a), c);
      Before(s, c, a, others);
      others := [a] + others;
  }

  /** From a handler's tear-down on: nothing anyone can do leaves a running match under the
      cancelled lobby, if and only if the lobby is settled. */
  lemma SettledExactly(s: State, c: CallId)
    requires Inv(s) && c in s.calls && s.calls[c].TornDown?
    ensures NeverLeavesMatch(s, c) <==> Settled(s)
  {
    if Settled(s) {
      forall before, after | Foreign(before, c) ensures !LeavesMatchAlive(Ending(s, c, before, after)) {
        SettledToTheEnd(s, c, before, after);
      }
    } else {
      var others: seq<Action>;
      if s.bound.Some? {
        others := FromBound(s, c);
      } else if s.status.Gathering? {
        others := FromGathering(s, c);
      } else {
        var d :| CanBind(s, d);
        others := FromLocker(s, c, d);
      }
      assert LeavesMatchAlive(Ending(s, c, others, []));
    }
  }

  lemma SettledToTheEnd(s: State, c: CallId, before: seq<Action>, after: seq<Action>)
    requires Inv(s) && Settled(s)
    ensures !LeavesMatchAlive(Ending(s, c, before, after))
  {
    hide Do;
    SettledForever(s, before);
    RunKeepsInv(s, before);
    var r := Do(Run(s, before), SetCancelled(c, false));
    SettledStep(Run(s, before), SetCancelled(c, false));
    StepKeepsInv(Run(s, before), SetCancelled(c, false));
    SettledForever(r, after);
  }

  lemma StepKeepsInv(s: State, a: Action)
    requires Inv(s)
    ensures Inv(Do(s, a))
  {
    DoKeepsOneLocker(s, a);
    DoKeepsBound(s, a);
  }

  /** The step of handler `c` that ends its tear-down: the check that finds nothing to cancel or
      is refused, or the write. */
  predicate EndsTearDown(s: State, c: CallId, a: Action) {
    && c in s.calls && !s.calls[c].TornDown? && a.c == c
    && c in Do(s, a).calls && Do(s, a).calls[c].TornDown?
  }

  /** `cancel_pug` promises that cancelling after the lock also cancels the match. When its
      tear-down ends, the promise is safe from everything anyone can still do, exactly when: the
      match it had read is over by now or is cancelled by this write, and no transition checked
      before is still to be written; or it had read none, and the lobby is settled all the same. */
  lemma CancelMissesMatchExactly(actions: seq<Action>, c: CallId, a: Action)
    requires EndsTearDown(Run(Init, actions), c, a)
    ensures var s := Run(Init, actions);
            NeverLeavesMatch(Do(s, a), c) <==>
            match Noted(s.calls[c])
            case Some(m) => (Over(s, m) || (a.TearWrite? && !a.lost)) && forall d :: !Revives(s, d, m)
            case None => Settled(s)
  {
    var s := Run(Init, actions);
    RunKeepsInv(Init, actions);
    StepKeepsInv(s, a);
    OnlyTearDown(s, c, a);
    hide Do, Run, Inv, Settled, NeverLeavesMatch;
    SettledExactly(Do(s, a), c);
    if Noted(s.calls[c]).Some? {
      SeenTearDown(s, c, a);
    } else {
      BlindTearDown(s, c);
    }
  }

  lemma OnlyTearDown(s: State, c: CallId, a: Action)
    requires EndsTearDown(s, c, a)
    ensures a.TearCheck? || a.TearWrite?
    ensures Noted(s.calls[c]).None? ==> s.calls[c] == Cancelling(None) && a == TearCheck(c)
  {
  }

  lemma SeenTearDown(s: State, c: CallId, a: Action)
    requires Inv(s) && EndsTearDown(s, c, a) && (a.TearCheck? || a.TearWrite?) && Noted(s.calls[c]).Some?
    ensures var m := Noted(s.calls[c]).value;
            Settled(Do(s, a)) <==> (Over(s, m) || (a.TearWrite? && !a.lost)) && forall d :: !Revives(s, d, m)
  {
    var r, m := Do(s, a), Noted(s.calls[c]).value;
    Frame(s, a);
    assert Cancels(s.calls[c]) && s.bound == Some(m) == r.bound && m in s.matches;
    assert forall d :: Revives(r, d, m) <==> Revives(s, d, m);
  }

  lemma BlindTearDown(s: State, c: CallId)
    requires Is(s, c, Cancelling(None))
    ensures Settled(Do(s, TearCheck(c))) <==> Settled(s)
  {
    var r := Do(s, TearCheck(c));
    assert forall d, m :: Revives(r, d, m) == Revives(s, d, m);
    assert forall m :: Dead(r, m) == Dead(s, m);
    assert forall d | d != c :: InLock(r, d) == InLock(s, d);
    assert !InLock(s, c) && !InLock(r, c);
    assert forall d :: CanBind(r, d) == CanBind(s, d);
  }

  /** A match bound after the read goes on. */
  lemma CancelCanMissMatch()
    ensures LeavesMatchAlive(Run(Init, BindDuringCancel))
  {
    hide Run;
    LockUpToMaterialize(BindDuringCancel);
    CancelWithoutMatch(BindDuringCancel);
    RunStep(BindDuringCancel, 7);
    RunStep(BindDuringCancel, 8);
    assert BindDuringCancel[..9] == BindDuringCancel;
  }

  /** So does a match that was bound and seen: the server had gone live, and the refusal to
      cancel a match in progress is only logged. No write is lost and nobody interferes. */
  lemma CancelLiveLeavesMatch()
    ensures LeavesMatchAlive(Run(Init, CancelLive))
  {
    hide Run;
    LockUpToMaterialize(CancelLive);
    GoesLive();
    RunStep(CancelLive, 10);
    RunStep(CancelLive, 11);
    RunStep(CancelLive, 12);
    assert CancelLive[..13] == CancelLive;
  }

  lemma GoesLive()
    requires Run(Init, CancelLive[..5]) == AfterMaterialize
    ensures Run(Init, CancelLive[..10]) ==
            State(Live, Some(0), map[0 := M.InProgress], 1, map[0 := Finished, 2 := Finished, 3 := Finished], None)
  {
    hide Run, Do;
    StartsPlaying();
    GoesLiveOn();
    RunStep(CancelLive, 8);
    RunStep(CancelLive, 9);
  }

  lemma StartsPlaying()
    requires Run(Init, CancelLive[..5]) == AfterMaterialize
    ensures Run(Init, CancelLive[..8]) == Playing
  {
    hide Run;
    RunStep(CancelLive, 5);
    RunStep(CancelLive, 6);
    RunStep(CancelLive, 7);
  }

  const Playing := State(MapSelection, Some(0), map[0 := M.InProgress], 1, map[0 := Finished, 2 := Finished], Some(0))

  lemma GoesLiveOn()
    ensures Do(Do(Playing, LiveRead(3, 0)), SetLive(3)) ==
            State(Live, Some(0), map[0 := M.InProgress], 1, map[0 := Finished, 2 := Finished, 3 := Finished], None)
  {
  }

  /** And so does one whose cancellation was written in time: the server's transition had passed
      its check, and writes after it. */
  lemma CancelCanBeOvertaken()
    ensures LeavesMatchAlive(Run(Init, CancelOvertaken))
  {
    hide Run;
    LockUpToMaterialize(CancelOvertaken);
    Overtaken();
    RunStep(CancelOvertaken, 9);
    RunStep(CancelOvertaken, 10);
    RunStep(CancelOvertaken, 11);
    assert CancelOvertaken[..12] == CancelOvertaken;
  }

  lemma Overtaken()
    requires Run(Init, CancelOvertaken[..5]) == AfterMaterialize
    ensures Run(Init, CancelOvertaken[..9]) ==
            State(MapSelection, Some(0), map[0 := M.PickBan], 1,
                  map[0 := Finished, 2 := Moving(0, M.InProgress), 1 := Tearing(0)], Some(0))
  {
    hide Run;
    RunStep(CancelOvertaken, 5);
    RunStep(CancelOvertaken, 6);
    RunStep(CancelOvertaken, 7);
    RunStep(CancelOvertaken, 8);
  }

  /** The lobby is locked and no locker is left to bind a match or roll back. */
  ghost predicate Abandoned(s: State) {
    s.status.MapSelection? && s.bound.None? && forall c :: !InLock(s, c)
  }

  /** The comment on the container creation expects a failed lock to leave the lobby
      gathering. When the locker dies instead of failing, the lobby never gathers again and
      never gets a match; only the sweep or the creator can cancel it. */
  lemma {:induction false} AbandonedNeverRecovers(s: State, actions: seq<Action>)
    requires Inv(s) && Abandoned(s)
    ensures var r := Run(s, actions);
            (r.status.MapSelection? || r.status.Cancelled?) && r.bound.None? && forall c :: !InLock(r, c)
    decreases |actions|
  {
    RunKeepsInv(s, actions);
    if actions != [] {
      var n := |actions| - 1;
      AbandonedNeverRecovers(s, actions[..n]);
      RunKeepsInv(s, actions[..n]);
      AbandonedStep(Run(s, actions[..n]), actions[n]);
    }
  }

  lemma AbandonedStep(s: State, a: Action)
    requires BoundIsFinal(s) && (s.status.MapSelection? || s.status.Cancelled?) && s.bound.None?
    requires forall c :: !InLock(s, c)
    ensures var r := Do(s, a);
            (r.status.MapSelection? || r.status.Cancelled?) && r.bound.None? && forall c :: !InLock(r, c)
  {
    Effects(s, a);
    Frame(s, a);
    assert !InLock(s, a.c);
    assert forall c | InLock(Do(s, a), c) && c != a.c :: InLock(s, c);
  }

  // ---------------------------------------------------------------- an ended lobby

  /** Whatever anyone does, the lobby is over. */
  ghost predicate EndedForGood(s: State) {
    forall actions :: Terminal(Run(s, actions).status)
  }

  ghost predicate NobodyGoesLive(s: State) {
    forall c | c in s.calls :: !s.calls[c].GoingLive?
  }

  lemma EndedStep(s: State, a: Action)
    requires Terminal(s.status) && NobodyGoesLive(s)
    ensures Terminal(Do(s, a).status) && NobodyGoesLive(Do(s, a))
  {
    Frame(s, a);
    Effects(s, a);
  }

  lemma {:induction false} EndedRun(s: State, actions: seq<Action>)
    requires Terminal(s.status) && NobodyGoesLive(s)
    ensures Terminal(Run(s, actions).status) && NobodyGoesLive(Run(s, actions))
    decreases |actions|
  {
    if actions != [] {
      EndedRun(s, actions[..|actions| - 1]);
      EndedStep(Run(s, actions[..|actions| - 1]), actions[|actions| - 1]);
    }
  }

  /** A completed, cancelled or expired lobby stays so, whatever anyone does, if and only if no
      hook has read it before it ended and is about to write that it is live. */
  lemma EndedForGoodExactly(s: State)
    requires Terminal(s.status)
    ensures EndedForGood(s) <==> NobodyGoesLive(s)
  {
    if NobodyGoesLive(s) {
      forall actions ensures Terminal(Run(s, actions).status) {
        EndedRun(s, actions);
      }
    } else {
      var c :| c in s.calls && s.calls[c].GoingLive?;
      Schedules.FoldOne(Do, s, SetLive(c));
      assert !Terminal(Run(s, [SetLive(c)]).status);
    }
  }
}
