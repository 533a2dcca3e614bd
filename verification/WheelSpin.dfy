/**
 Wheel spins.

 A spin is not one write: it reads the session, draws, re-reads and checks the action
 number, inserts the action row (returning the committed row when that number is already
 taken), writes the session computed from what it re-read, and records an audit row. `Do`
 is one of these repository calls; `Run` interleaves any number of spinners, cancellations
 and crashes. The action rows are the one record that is written once and never changed.
*/
module WheelSpin {
  import opened Options
  import Schedules

  type CallId = nat
  type MapId = string

  datatype Status = InProgress | Completed | Cancelled

  /** A veto session in a wheel format: `games` random actions over a duplicate-free pool. */
  datatype Session = Session(pool: seq<MapId>, games: nat, cursor: nat,
                             remaining: seq<MapId>, selected: seq<MapId>, status: Status)

  datatype Call =
    | Drawn(game: nat, number: nat, drawn: MapId)       // drew against a session it read
    | Checked(seen: Session, game: nat, drawn: MapId)   // re-read it: number and map still fit
    | Logged(seen: Session, game: nat, won: MapId)      // has the committed action row
    | Advanced(game: nat, won: MapId)                   // wrote the session
    | Stopping                                          // cancel read a session still open
    | Finished

  datatype State = State(session: Session, actions: map<nat, MapId>, spins: map<nat, MapId>, calls: map<CallId, Call>)

  datatype Action =
    | Draw(c: CallId, roll: nat)
    | Recheck(c: CallId)
    | LogAction(c: CallId)
    | Advance(c: CallId)
    | RecordSpin(c: CallId)
    | StopRead(c: CallId)
    | StopWrite(c: CallId)
    | Crash(c: CallId)

  function Without(maps: seq<MapId>, m: MapId): (r: seq<MapId>)
    ensures forall x :: x in r <==> x in maps && x != m
  {
    if maps == [] then []
    else if maps[0] == m then Without(maps[1..], m)
    else [maps[0]] + Without(maps[1..], m)
  }

  /** The session after its current action lands on `won`. */
  function Next(seen: Session, won: MapId): Session {
    seen.(cursor := seen.cursor + 1,
          remaining := Without(seen.remaining, won),
          selected := if won in seen.selected then seen.selected else seen.selected + [won],
          status := if seen.cursor + 1 > seen.games then Completed else InProgress)
  }

  function At(s: State, c: CallId, call: Call): State {
    s.(calls := s.calls[c := call])
  }

  function DoDraw(s: State, c: CallId, roll: nat): State {
    if c in s.calls then s
    else if s.session.remaining == [] then At(s, c, Finished)
    else At(s, c, Drawn(|s.session.selected| + 1, s.session.cursor, s.session.remaining[roll % |s.session.remaining|]))
  }

  function DoRecheck(s: State, c: CallId): State {
    if !(c in s.calls && s.calls[c].Drawn?) then s
    else
      var call, z := s.calls[c], s.session;
      if z.status.InProgress? && z.cursor == call.number && call.drawn in z.remaining && z.cursor <= z.games
      then At(s, c, Checked(z, call.game, call.drawn))
      else At(s, c, Finished)
  }

  /** INSERT ... ON CONFLICT DO NOTHING, then the row that is there. */
  function Committed(actions: map<nat, MapId>, number: nat, drawn: MapId): MapId {
    if number in actions then actions[number] else drawn
  }

  function DoLogAction(s: State, c: CallId): State {
    if !(c in s.calls && s.calls[c].Checked?) then s
    else
      var call := s.calls[c];
      var won := Committed(s.actions, call.seen.cursor, call.drawn);
      At(s, c, Logged(call.seen, call.game, won)).(actions := s.actions[call.seen.cursor := won])
  }

  function DoAdvance(s: State, c: CallId): State {
    if !(c in s.calls && s.calls[c].Logged?) then s
    else
      var call := s.calls[c];
      At(s, c, Advanced(call.game, call.won)).(session := Next(call.seen, call.won))
  }

  /** INSERT ... ON CONFLICT (pug, game_number): the first row of a game stays. */
  function DoRecordSpin(s: State, c: CallId): State {
    if !(c in s.calls && s.calls[c].Advanced?) then s
    else
      var call := s.calls[c];
      At(s, c, Finished).(spins := if call.game in s.spins then s.spins else s.spins[call.game := call.won])
  }

  function DoStop(s: State, a: Action): State
    requires a.StopRead? || a.StopWrite?
  {
    match a
    case StopRead(c) =>
      if c in s.calls then s else At(s, c, if s.session.status.InProgress? then Stopping else Finished)
    case StopWrite(c) =>
      if c in s.calls && s.calls[c].Stopping? then At(s, c, Finished).(session := s.session.(status := Cancelled))
          else s
  }

  function Do(s: State, a: Action): State {
    match a
    case Draw(c, roll) => DoDraw(s, c, roll)
    case Recheck(c) => DoRecheck(s, c)
    case LogAction(c) => DoLogAction(s, c)
    case Advance(c) => DoAdvance(s, c)
    case RecordSpin(c) => DoRecordSpin(s, c)
    case Crash(c) => if c in s.calls then At(s, c, Finished) else s
    case _ => DoStop(s, a)
  }

  function Run(s: State, actions: seq<Action>): State {
    Schedules.Fold(Do, s, actions)
  }

  /** `z` is `seen` after its current action landed on `won`, which was among the maps left; the
      session is completed by its last action. */
  ghost predicate Advances(seen: Session, z: Session, won: MapId) {
    && z.pool == seen.pool && z.games == seen.games
    && z.cursor == seen.cursor + 1 && z.selected == seen.selected + [won]
    && (forall m :: m in z.remaining <==> m in seen.remaining && m != won)
    && (z.status.Completed? <==> z.cursor > z.games) && (z.status.InProgress? <==> z.cursor <= z.games)
  }

  /** A session just started: nothing selected, no spinner on its way. */
  predicate Fresh(s: State) {
    && s.session == Session(s.session.pool, s.session.games, 1, s.session.pool, [], InProgress)
    && s.actions == map[] && s.spins == map[] && s.calls == map[]
  }

  // ---------------------------------------------------------------- the invariant

  /** The action rows are numbered from 1 without a gap, and land on distinct pool maps. */
  ghost predicate LogOk(s: State) {
    && (forall n | n in s.actions :: 1 <= n <= s.session.games && s.actions[n] in s.session.pool)
    && (forall n, m | n in s.actions && 1 <= m <= n :: m in s.actions)
    && (forall n, m | n in s.actions && m in s.actions && s.actions[n] == s.actions[m] :: n == m)
  }

  ghost predicate Rows(actions: map<nat, MapId>, k: nat) {
    forall n | 1 <= n <= k :: n in actions
  }

  /** The maps of the first `k` action rows, in order. */
  ghost function Landed(actions: map<nat, MapId>, k: nat): seq<MapId>
    requires Rows(actions, k)
  {
    if k == 0 then [] else Landed(actions, k - 1) + [actions[k]]
  }

  lemma {:induction false} LandedAt(actions: map<nat, MapId>, k: nat)
    requires Rows(actions, k)
    ensures |Landed(actions, k)| == k
    ensures forall n | 1 <= n <= k :: Landed(actions, k)[n - 1] == actions[n]
    ensures forall m | m in Landed(actions, k) :: exists n :: 1 <= n <= k && actions[n] == m
  {
    if k > 0 {
      LandedAt(actions, k - 1);
    }
  }

  lemma {:induction false} LandedExtends(small: map<nat, MapId>, big: map<nat, MapId>, k: nat)
    requires Rows(small, k) && Extends(big, small)
    ensures Rows(big, k) && Landed(big, k) == Landed(small, k)
  {
    if k > 0 {
      LandedExtends(small, big, k - 1);
    }
  }

  lemma {:induction false} LandedPrefix(actions: map<nat, MapId>, j: nat, k: nat)
    requires j <= k && Rows(actions, k)
    ensures Landed(actions, j) <= Landed(actions, k)
    decreases k - j
  {
    if j < k {
      LandedPrefix(actions, j + 1, k);
    }
  }

  /** The session shows exactly the first `cursor - 1` action rows. */
  ghost predicate Shows(z: Session, actions: map<nat, MapId>) {
    && 1 <= z.cursor <= z.games + 1
    && Rows(actions, z.cursor - 1)
    && z.selected == Landed(actions, z.cursor - 1)
    && (forall m :: m in z.remaining <==> m in z.pool && m !in z.selected)
  }

  ghost predicate Extends(big: map<nat, MapId>, small: map<nat, MapId>) {
    forall n | n in small :: n in big && big[n] == small[n]
  }

  ghost predicate SameFormat(z: Session, y: Session) {
    z.pool == y.pool && z.games == y.games
  }

  ghost predicate CallOk(call: Call, z: Session, actions: map<nat, MapId>) {
    match call
    case Drawn(game, number, _) => game == number
    case Checked(seen, game, drawn) =>
      SameFormat(seen, z) && Shows(seen, actions) && game == seen.cursor <= seen.games && drawn in seen.remaining
    case Logged(seen, game, won) =>
      SameFormat(seen, z) && Shows(seen, actions) && game == seen.cursor <= seen.games && game in actions &&
        actions[game] == won
    case Advanced(game, won) => game in actions && actions[game] == won
    case _ => true
  }

  ghost predicate Inv(s: State) {
    && LogOk(s)
    && Shows(s.session, s.actions)
    && (forall c | c in s.calls :: CallOk(s.calls[c], s.session, s.actions))
    && (forall g | g in s.spins :: g in s.actions && s.spins[g] == s.actions[g])
  }

  lemma FreshIsInv(s: State)
    requires Fresh(s)
    ensures Inv(s)
  {
  }

  lemma StillShows(z: Session, small: map<nat, MapId>, big: map<nat, MapId>)
    requires Shows(z, small) && Extends(big, small)
    ensures Shows(z, big)
  {
    LandedExtends(small, big, z.cursor - 1);
  }

  lemma StillOk(call: Call, z: Session, y: Session, small: map<nat, MapId>, big: map<nat, MapId>)
    requires CallOk(call, z, small) && SameFormat(z, y) && Extends(big, small)
    ensures CallOk(call, y, big)
  {
    hide Shows;
    if call.Checked? || call.Logged? {
      StillShows(call.seen, small, big);
    }
  }

  /** What a spinner may draw is in no row below its action number. */
  lemma DrawnIsNew(s: State, seen: Session, drawn: MapId)
    requires LogOk(s) && Shows(seen, s.actions) && drawn in seen.remaining && seen.cursor !in s.actions
    ensures forall n | n in s.actions :: n < seen.cursor && s.actions[n] != drawn
  {
    LandedAt(s.actions, seen.cursor - 1);
    forall n | n in s.actions ensures n < seen.cursor && s.actions[n] != drawn {
      assert n < seen.cursor;
      assert seen.selected[n - 1] == s.actions[n];
    }
  }

  lemma LogKeepsLog(s: State, c: CallId)
    requires Inv(s) && c in s.calls && s.calls[c].Checked?
    ensures LogOk(DoLogAction(s, c)) && Extends(DoLogAction(s, c).actions, s.actions)
  {
    var call := s.calls[c];
    assert CallOk(call, s.session, s.actions);
    assert call.drawn in call.seen.remaining;
    if call.seen.cursor !in s.actions {
      DrawnIsNew(s, call.seen, call.drawn);
    }
  }

  lemma LogKeepsInv(s: State, c: CallId)
    requires Inv(s) && c in s.calls && s.calls[c].Checked?
    ensures Inv(DoLogAction(s, c))
  {
    LogKeepsLog(s, c);
    hide Shows, LogOk;
    var r := DoLogAction(s, c);
    assert CallOk(s.calls[c], s.session, s.actions);
    StillShows(s.session, s.actions, r.actions);
    StillShows(s.calls[c].seen, s.actions, r.actions);
    forall d | d in r.calls && d != c ensures CallOk(r.calls[d], r.session, r.actions) {
      StillOk(s.calls[d], s.session, s.session, s.actions, r.actions);
    }
  }

  lemma NextShows(seen: Session, won: MapId, actions: map<nat, MapId>)
    requires Shows(seen, actions) && seen.cursor <= seen.games
    requires seen.cursor in actions && actions[seen.cursor] == won && won !in seen.selected
    ensures Shows(Next(seen, won), actions)
  {
    assert Next(seen, won).selected == Landed(actions, seen.cursor);
  }

  lemma WonIsNew(s: State, seen: Session, won: MapId)
    requires LogOk(s) && Shows(seen, s.actions) && seen.cursor in s.actions && s.actions[seen.cursor] == won
    ensures won !in seen.selected
  {
    LandedAt(s.actions, seen.cursor - 1);
  }

  lemma AdvanceKeepsInv(s: State, c: CallId)
    requires Inv(s) && c in s.calls && s.calls[c].Logged?
    ensures Inv(DoAdvance(s, c))
  {
    hide Shows, LogOk, Next;
    var call := s.calls[c];
    assert CallOk(call, s.session, s.actions);
    WonIsNew(s, call.seen, call.won);
    NextShows(call.seen, call.won, s.actions);
    NextFormat(call.seen, call.won);
    var r := DoAdvance(s, c);
    SameLog(s, r);
    forall d | d in r.calls && d != c ensures CallOk(r.calls[d], r.session, r.actions) {
      StillOk(s.calls[d], s.session, r.session, s.actions, r.actions);
    }
  }

  lemma SameLog(s: State, r: State)
    requires LogOk(s) && r.actions == s.actions && SameFormat(r.session, s.session)
    ensures LogOk(r)
  {
  }

  lemma NextFormat(seen: Session, won: MapId)
    ensures SameFormat(seen, Next(seen, won))
  {
  }

  lemma StopKeepsInv(s: State, c: CallId)
    requires Inv(s)
    ensures Inv(Do(s, StopWrite(c)))
  {
    var r := Do(s, StopWrite(c));
    assert Shows(r.session, r.actions);
    hide Shows;
    forall d | d in r.calls && d != c ensures CallOk(r.calls[d], r.session, r.actions) {
      StillOk(s.calls[d], s.session, r.session, s.actions, r.actions);
    }
  }

  /** The actions that write neither the session nor an action row. */
  predicate Reads(a: Action) {
    !a.LogAction? && !a.Advance? && !a.StopWrite?
  }

  lemma ReadsOnly(s: State, a: Action)
    requires Reads(a)
    ensures var r := Do(s, a);
            && r.session == s.session && r.actions == s.actions
            && (forall d | d in r.calls && d != a.c :: d in s.calls && r.calls[d] == s.calls[d])
            && (forall g | g in r.spins :: (g in s.spins && r.spins[g] == s.spins[g])
                  || (a.c in s.calls && s.calls[a.c].Advanced? && g == s.calls[a.c].game &&
                      r.spins[g] == s.calls[a.c].won))
  {
  }

  lemma ReadCallOk(s: State, a: Action)
    requires Inv(s) && Reads(a) && a.c in Do(s, a).calls
    ensures CallOk(Do(s, a).calls[a.c], s.session, s.actions)
  {
    ShownCount(s);
    hide LogOk, Landed, Rows, Shows;
    assert a.c in s.calls ==> CallOk(s.calls[a.c], s.session, s.actions);
  }

  lemma ShownCount(s: State)
    requires Inv(s)
    ensures |s.session.selected| + 1 == s.session.cursor && Shows(s.session, s.actions)
  {
    LandedAt(s.actions, s.session.cursor - 1);
  }

  lemma ReadKeepsInv(s: State, a: Action)
    requires Inv(s) && Reads(a)
    ensures Inv(Do(s, a))
  {
    ReadsOnly(s, a);
    if a.c in Do(s, a).calls {
      ReadCallOk(s, a);
    }
    hide Do, LogOk, Landed, Rows, Shows;
    assert a.c in s.calls ==> CallOk(s.calls[a.c], s.session, s.actions);
  }

  lemma DoKeepsInv(s: State, a: Action)
    requires Inv(s)
    ensures Inv(Do(s, a))
  {
    match a
    case LogAction(c) =>
      if c in s.calls && s.calls[c].Checked? {
        LogKeepsInv(s, c);
      }
    case Advance(c) =>
      if c in s.calls && s.calls[c].Logged? {
        AdvanceKeepsInv(s, c);
      }
    case StopWrite(c) =>
      StopKeepsInv(s, c);
    case _ =>
      ReadKeepsInv(s, a);
  }

  lemma {:induction false} RunKeepsInv(s: State, actions: seq<Action>)
    requires Inv(s)
    ensures Inv(Run(s, actions))
    decreases |actions|
  {
    if actions != [] {
      RunKeepsInv(s, actions[..|actions| - 1]);
      DoKeepsInv(Run(s, actions[..|actions| - 1]), actions[|actions| - 1]);
    }
  }

  // ---------------------------------------------------------------- what every run records

  /** Over any interleaving of spinners, cancellations and crashes: an audit row names the
      map its action row landed on, rows of different games name different maps, and the
      session agrees with every audit row as far as it reaches. */
  lemma SpinsAreTrue(s: State, actions: seq<Action>, g: nat, h: nat)
    requires Fresh(s) && g in Run(s, actions).spins && h in Run(s, actions).spins
    ensures var r := Run(s, actions);
            && g in r.actions && r.spins[g] == r.actions[g]
            && (g != h ==> r.spins[g] != r.spins[h])
            && (1 <= g <= |r.session.selected| ==> r.session.selected[g - 1] == r.spins[g])
            && 1 <= g <= r.session.games && r.spins[g] in r.session.pool
  {
    FreshIsInv(s);
    RunKeepsInv(s, actions);
    var r := Run(s, actions);
    LandedAt(r.actions, r.session.cursor - 1);
  }

  lemma {:induction false} LogGrows(s: State, actions: seq<Action>)
    requires Inv(s)
    ensures Extends(Run(s, actions).actions, s.actions)
    decreases |actions|
  {
    if actions != [] {
      var n := |actions| - 1;
      LogGrows(s, actions[..n]);
      RunKeepsInv(s, actions[..n]);
      LogStepGrows(Run(s, actions[..n]), actions[n]);
    }
  }

  lemma LogStepGrows(s: State, a: Action)
    ensures Extends(Do(s, a).actions, s.actions)
  {
  }

  /** Whatever a client has seen selected is never replaced: two readings of the session at
      any two moments of a run differ at most in how far they reach. */
  lemma ReadingsAgree(s: State, actions: seq<Action>)
    requires Inv(s)
    ensures var before, after := s.session.selected, Run(s, actions).session.selected;
            before <= after || after <= before
  {
    RunKeepsInv(s, actions);
    LogGrows(s, actions);
    var r := Run(s, actions);
    assert Shows(s.session, s.actions) && Shows(r.session, r.actions);
    hide *;
    ShowsAgree(s.session, s.actions, r.session, r.actions);
  }

  lemma ShowsAgree(y: Session, small: map<nat, MapId>, z: Session, big: map<nat, MapId>)
    requires Shows(y, small) && Shows(z, big) && Extends(big, small)
    ensures y.selected <= z.selected || z.selected <= y.selected
  {
    var j, k := y.cursor - 1, z.cursor - 1;
    LandedExtends(small, big, j);
    hide Landed, Extends;
    if j <= k {
      LandedPrefix(big, j, k);
    } else {
      LandedPrefix(big, k, j);
    }
  }

  // ---------------------------------------------------------------- when the session falls behind

  /** Every audited game is in `selected_maps`. */
  ghost predicate Covered(s: State) {
    forall g | g in s.spins :: g <= |s.session.selected|
  }

  /** The session write is not guarded by the action number. It keeps every audited game in
      the session exactly when no game beyond the one it writes has been audited. */
  lemma AdvanceCoversExactly(s: State, c: CallId)
    requires Inv(s) && c in s.calls && s.calls[c].Logged?
    ensures Covered(Do(s, Advance(c))) <==> forall g | g in s.spins :: g <= s.calls[c].game
  {
    hide Inv;
    AdvanceReaches(s, c);
  }

  /** The session write comes while the session is still at the action number it was
      computed from: what a guard on `current_action_number` would ensure. */
  predicate Timely(s: State, a: Action) {
    a.Advance? && a.c in s.calls && s.calls[a.c].Logged? ==> s.session.cursor == s.calls[a.c].seen.cursor
  }

  ghost predicate TimelyRun(s: State, actions: seq<Action>) {
    forall i | 0 <= i < |actions| :: Timely(Run(s, actions[..i]), actions[i])
  }

  /** Audited games, and games about to be audited, are in the session. */
  ghost predicate CoveredSoon(s: State) {
    Covered(s) && forall c | c in s.calls && s.calls[c].Advanced? :: s.calls[c].game <= |s.session.selected|
  }

  lemma TimelyKeepsCovered(s: State, a: Action)
    requires Inv(s) && Timely(s, a) && CoveredSoon(s)
    ensures CoveredSoon(Do(s, a))
  {
    hide Inv;
    if a.Advance? && a.c in s.calls && s.calls[a.c].Logged? {
      AdvanceReaches(s, a.c);
    } else {
      hide Do;
      SelectionKept(s, a);
    }
  }

  lemma AdvanceReaches(s: State, c: CallId)
    requires Inv(s) && c in s.calls && s.calls[c].Logged?
    ensures |Do(s, Advance(c)).session.selected| == s.calls[c].game == s.calls[c].seen.cursor
    ensures |s.session.selected| == s.session.cursor - 1
  {
    hide Shows, LogOk, Without;
    AdvanceKeepsInv(s, c);
    var r := Do(s, Advance(c));
    assert CallOk(s.calls[c], s.session, s.actions);
    ShownLength(s.session, s.actions);
    ShownLength(r.session, r.actions);
  }

  lemma ShownLength(z: Session, actions: map<nat, MapId>)
    requires Shows(z, actions)
    ensures |z.selected| == z.cursor - 1
  {
    LandedAt(actions, z.cursor - 1);
  }

  lemma SelectionKept(s: State, a: Action)
    requires !(a.Advance? && a.c in s.calls && s.calls[a.c].Logged?)
    ensures var r := Do(s, a);
            && r.session.selected == s.session.selected
            && (forall c | c in r.calls && r.calls[c].Advanced? :: c in s.calls && s.calls[c] == r.calls[c])
            && (forall g | g in r.spins ::
                  g in s.spins || (a.c in s.calls && s.calls[a.c].Advanced? && g == s.calls[a.c].game))
  {
  }

  /** While every session write is timely, `selected_maps` holds every audited game. */
  lemma {:induction false} TimelyRunCovers(s: State, actions: seq<Action>)
    requires Fresh(s) && TimelyRun(s, actions)
    ensures CoveredSoon(Run(s, actions))
    decreases |actions|
  {
    if actions != [] {
      var n := |actions| - 1;
      forall i | 0 <= i < n ensures Timely(Run(s, actions[..n][..i]), actions[..n][i]) {
        assert actions[..n][..i] == actions[..i];
      }
      TimelyRunCovers(s, actions[..n]);
      FreshIsInv(s);
      RunKeepsInv(s, actions[..n]);
      TimelyKeepsCovered(Run(s, actions[..n]), actions[n]);
    }
  }

  // ---------------------------------------------------------------- a session falling behind

  const Two := Session(["a", "b"], 2, 1, ["a", "b"], [], InProgress)
  const Start := State(Two, map[], map[], map[])

  /** Callers 0 and 1 both reach game 1; caller 0 finishes it and caller 2 plays game 2
      before caller 1 writes the session it computed for game 1. */
  const Overtaken: seq<Action> :=
    [Draw(0, 0), Recheck(0), Draw(1, 1), Recheck(1), LogAction(0), Advance(0), RecordSpin(0),
     Draw(2, 0), Recheck(2), LogAction(2), Advance(2), RecordSpin(2),
     LogAction(1), Advance(1)]

  const AfterOne := Session(["a", "b"], 2, 2, ["b"], ["a"], InProgress)
  const AfterTwo := Session(["a", "b"], 2, 3, [], ["a", "b"], Completed)

  lemma OvertakenGameOne()
    ensures Run(Start, Overtaken[..7]) ==
            State(AfterOne, map[1 := "a"], map[1 := "a"], map[0 := Finished, 1 := Checked(Two, 1, "b")])
  {
    hide Run, Schedules.Fold;
    OvertakenReads();
    Step(4);
    Step(5);
    assert Next(Two, "a") == AfterOne;
    Step(6);
  }

  lemma OvertakenReads()
    ensures Run(Start, Overtaken[..4]) ==
              State(Two, map[], map[], map[0 := Checked(Two, 1, "a"), 1 := Checked(Two, 1, "b")])
  {
    assert Run(Start, Overtaken[..0]) == Start;
    hide Run, Schedules.Fold;
    Step(0);
    Step(1);
    Step(2);
    Step(3);
  }

  lemma OvertakenGameTwo()
    ensures Run(Start, Overtaken[..12]) ==
            State(AfterTwo, map[1 := "a", 2 := "b"], map[1 := "a", 2 := "b"],
                  map[0 := Finished, 1 := Checked(Two, 1, "b"), 2 := Finished])
  {
    hide Run, Schedules.Fold;
    OvertakenGameOne();
    Step(7);
    Step(8);
    Step(9);
    Step(10);
    assert Next(AfterOne, "b") == AfterTwo;
    Step(11);
  }

  lemma Step(n: nat)
    requires n < |Overtaken|
    ensures Run(Start, Overtaken[..n + 1]) == Do(Run(Start, Overtaken[..n]), Overtaken[n])
  {
    Schedules.FoldPrefix(Do, Start, Overtaken, n);
  }

  /** Two games are audited and the session shows one: caller 1's late write un-completes it. */
  lemma SessionCanFallBehind()
    ensures var r := Run(Start, Overtaken);
            Fresh(Start) && !Covered(r) && 2 in r.spins && r.session.selected == ["a"] && r.session.status.InProgress?
  {
    hide Run, Schedules.Fold;
    OvertakenGameTwo();
    Step(12);
    Step(13);
    assert Next(Two, "a") == AfterOne;
    assert Overtaken[..14] == Overtaken;
    assert 2 in Run(Start, Overtaken).spins;
  }

  // ---------------------------------------------------------------- does a cancelled session stay dead

  /** A spinner past the status check: its session write is still to come. */
  predicate PastTheCheck(s: State, c: CallId) {
    c in s.calls && (s.calls[c].Checked? || s.calls[c].Logged?)
  }

  ghost predicate DeadForever(s: State) {
    forall actions :: Run(s, actions).session.status.Cancelled?
  }

  lemma {:induction false} StaysDead(s: State, actions: seq<Action>)
    requires s.session.status.Cancelled? && forall c :: !PastTheCheck(s, c)
    ensures Run(s, actions).session.status.Cancelled? && forall c :: !PastTheCheck(Run(s, actions), c)
    decreases |actions|
  {
    if actions != [] {
      var n := |actions| - 1;
      StaysDead(s, actions[..n]);
      DeadStep(Run(s, actions[..n]), actions[n]);
    }
  }

  lemma DeadStep(s: State, a: Action)
    requires s.session.status.Cancelled? && forall c :: !PastTheCheck(s, c)
    ensures Do(s, a).session.status.Cancelled? && forall c :: !PastTheCheck(Do(s, a), c)
  {
    assert !PastTheCheck(s, a.c);
    assert forall c | c != a.c && c in Do(s, a).calls :: c in s.calls && Do(s, a).calls[c] == s.calls[c];
    assert forall c | PastTheCheck(Do(s, a), c) && c != a.c :: PastTheCheck(s, c);
  }

  function Finishing(call: Call, c: CallId): seq<Action> {
    if call.Checked? then [LogAction(c)] + [Advance(c)] else [Advance(c)]
  }

  lemma FinishingRevives(s: State, c: CallId)
    requires PastTheCheck(s, c)
    ensures !Run(s, Finishing(s.calls[c], c)).session.status.Cancelled?
  {
    hide Without;
    if s.calls[c].Checked? {
      Schedules.FoldConcat(Do, s, [LogAction(c)], [Advance(c)]);
      var p := Run(s, [LogAction(c)]);
      Schedules.FoldOne(Do, s, LogAction(c));
      assert p == Do(s, LogAction(c)) && p.calls[c].Logged?;
      Schedules.FoldOne(Do, p, Advance(c));
      assert Run(s, Finishing(s.calls[c], c)) == Do(p, Advance(c));
    } else {
      Schedules.FoldOne(Do, s, Advance(c));
    }
  }

  /** A cancelled session is meant to stay dead. It does exactly when no spinner is between
      its status check and its session write: that write sets the status again. */
  lemma CancelIsFinalExactly(s: State)
    requires s.session.status.Cancelled?
    ensures DeadForever(s) <==> forall c :: !PastTheCheck(s, c)
  {
    if c :| PastTheCheck(s, c) {
      FinishingRevives(s, c);
    } else {
      forall actions ensures Run(s, actions).session.status.Cancelled? {
        StaysDead(s, actions);
      }
    }
  }

  // ---------------------------------------------------------------- when the wheel is done

  /** Running while a map is still to be spun, completed when none is. */
  predicate StatusTrue(z: Session) {
    && (z.status.InProgress? ==> z.cursor <= z.games)
    && (z.status.Completed? ==> z.cursor > z.games)
  }

  lemma StatusStep(s: State, a: Action)
    requires StatusTrue(s.session)
    ensures StatusTrue(Do(s, a).session)
  {
  }

  /** Over every run from a fresh session: it is running only while a map is still to be spun,
      completed only when every map has been, and then it shows one distinct map for each game,
      the map of its action row. */
  lemma {:induction false} CompletedMeansSpun(s: State, actions: seq<Action>)
    requires Fresh(s) && s.session.games > 0
    ensures var r := Run(s, actions);
            && StatusTrue(r.session)
            && (r.session.status.Completed? ==>
                  && |r.session.selected| == s.session.games
                  && forall g | 1 <= g <= s.session.games ::
                       g in r.actions && r.session.selected[g - 1] == r.actions[g])
    decreases |actions|
  {
    if actions != [] {
      CompletedMeansSpun(s, actions[..|actions| - 1]);
      StatusStep(Run(s, actions[..|actions| - 1]), actions[|actions| - 1]);
    }
    hide Do;
    var r := Run(s, actions);
    FreshIsInv(s);
    RunKeepsInv(s, actions);
    if r.session.status.Completed? {
      RunFormat(s, actions);
      hide Run;
      LandedAt(r.actions, r.session.cursor - 1);
    }
  }

  lemma FormatStep(s: State, a: Action)
    requires Inv(s)
    ensures SameFormat(Do(s, a).session, s.session)
  {
    if a.Advance? && a.c in s.calls {
      assert CallOk(s.calls[a.c], s.session, s.actions);
    }
  }

  lemma {:induction false} RunFormat(s: State, actions: seq<Action>)
    requires Inv(s)
    ensures SameFormat(Run(s, actions).session, s.session)
    decreases |actions|
  {
    if actions != [] {
      RunFormat(s, actions[..|actions| - 1]);
      RunKeepsInv(s, actions[..|actions| - 1]);
      FormatStep(Run(s, actions[..|actions| - 1]), actions[|actions| - 1]);
    }
  }
}
