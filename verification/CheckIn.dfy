/**
 Check-in windows, one match at a time: the deadline is written before the status, a repair
 stamps the deadlines that are missing, and a pass after the deadline forfeits who is absent.
 A schedule interleaves the sweep's writes with check-ins, transitions and reschedules. A
 transition and a forfeit check the row first and write it later without a condition; here is
 the write. A handler that dies is one whose remaining writes are not in the schedule.
*/
module CheckIn {
  import opened Options
  import opened MatchLifecycle
  import Schedules

  type RegistrationId = nat

  datatype Match = Match(
    status: Status,
    scheduledAt: Option<int>,
    deadline: Option<int>,
    first: Option<RegistrationId>,
    second: Option<RegistrationId>,
    firstIn: bool,
    secondIn: bool,
    winner: Option<RegistrationId>,
    loser: Option<RegistrationId>)

  datatype Config = Config(lead: int, grace: int, batch: nat)

  // ---------------------------------------------------------------- the three listings

  predicate Due(x: Match, before: int) {
    x.status.Scheduled? && x.scheduledAt.Some? && x.scheduledAt.value <= before
  }

  predicate MissingDeadline(x: Match) {
    x.status.CheckingIn? && x.deadline.None?
  }

  predicate Expired(x: Match, now: int) {
    x.status.CheckingIn? && x.deadline.Some? && x.deadline.value < now
  }

  // ---------------------------------------------------------------- single writes

  function Max(a: int, b: int): int {
    if a < b then b else a
  }

  /** The grace runs from the scheduled time as listed, or from now if that is later. */
  function DeadlineFor(grace: int, listed: Option<int>, now: int): int {
    (if listed.Some? then Max(listed.value, now) else now) + grace
  }

  function Move(x: Match, to: Status): Match {
    if to in Allowed(x.status) then x.(status := to) else x
  }

  /** What a forfeit decides on reading the row; its write, later, looks at nothing. */
  datatype Verdict = NoVerdict | Void | Award(winner: RegistrationId, loser: RegistrationId)

  function JudgeNoShow(x: Match, absent: RegistrationId): Verdict {
    if !CanForfeit(x.status) then NoVerdict
    else if x.first == Some(absent) then if x.second.Some? then Award(x.second.value, absent) else NoVerdict
    else if x.second == Some(absent) then if x.first.Some? then Award(x.first.value, absent) else NoVerdict
    else NoVerdict
  }

  /** The timeout of a match as it was listed, on the row as it is: a double forfeit asks for both
      participants and not for the status, a single one for a status that can be forfeited. */
  function Judge(x: Match, listed: Match): Verdict {
    if listed.firstIn && listed.secondIn then NoVerdict
    else if !listed.firstIn && !listed.secondIn then if x.first.Some? && x.second.Some? then Void else NoVerdict
    else
      var absent := if listed.firstIn then listed.second else listed.first;
      if absent.Some? then JudgeNoShow(x, absent.value) else NoVerdict
  }

  function Sentenced(x: Match, v: Verdict): Match {
    match v
    case NoVerdict => x
    case Void => x.(status := Cancelled)
    case Award(winner, loser) => x.(status := Forfeit, winner := Some(winner), loser := Some(loser))
  }

  function TimedOut(x: Match, listed: Match): Match {
    Sentenced(x, Judge(x, listed))
  }

  // ---------------------------------------------------------------- schedules

  datatype State = State(row: Match, clock: int)

  datatype Action =
    | Tick(at: int)
    | Stamp(listed: Option<int>)             // the sweep, opening or repairing
    | Put(to: Status)                        // the write of a transition, the sweep's or another's
    | Sentence(verdict: Verdict)             // the sweep, after the deadline
    | Enter(one: bool)                       // a participant's check-in is recorded
    | Reschedule(at: int)                    // a proposal is accepted, whatever the status
    | Seat(one: bool, who: RegistrationId)   // progression fills a slot

  function DoEnter(x: Match, one: bool): Match {
    if one then if x.first.Some? then x.(firstIn := true) else x
    else if x.second.Some? then x.(secondIn := true) else x
  }

  function DoRow(grace: int, s: State, a: Action): Match {
    match a
    case Tick(_) => s.row
    case Stamp(listed) => s.row.(deadline := Some(DeadlineFor(grace, listed, s.clock)))
    case Put(to) => s.row.(status := to)
    case Sentence(verdict) => Sentenced(s.row, verdict)
    case Enter(one) => DoEnter(s.row, one)
    case Reschedule(at) => s.row.(scheduledAt := Some(at), status := Scheduled)
    case Seat(one, who) => if one then s.row.(first := Some(who)) else s.row.(second := Some(who))
  }

  /** The clock never runs backwards. */
  function Do(grace: int, s: State, a: Action): State {
    State(DoRow(grace, s, a), if a.Tick? then Max(s.clock, a.at) else s.clock)
  }

  function Run(grace: int, s: State, actions: seq<Action>): State
  {
    Schedules.Fold((t: State, a: Action) => Do(grace, t, a), s, actions)
  }

  lemma RunSnoc(grace: int, s: State, actions: seq<Action>)
    requires actions != []
    ensures Run(grace, s, actions) == Do(grace, Run(grace, s, actions[..|actions| - 1]), actions[|actions| - 1])
  {
  }

  // ---------------------------------------------------------------- who is in

  predicate Enters(actions: seq<Action>, one: bool) {
    exists i | 0 <= i < |actions| :: actions[i] == Enter(one)
  }

  /** A side that is seated is in exactly if it was or it has checked in itself: the other side's
      check-in does not count for it, and no write of a pass, a reschedule or a transition takes
      it back. */
  lemma {:induction false} InExactly(grace: int, s: State, actions: seq<Action>)
    requires s.row.first.Some? && s.row.second.Some?
    ensures var x := Run(grace, s, actions).row;
            && x.first.Some? && x.second.Some?
            && (x.firstIn <==> s.row.firstIn || Enters(actions, true))
            && (x.secondIn <==> s.row.secondIn || Enters(actions, false))
    decreases |actions|
  {
    if actions != [] {
      var n := |actions| - 1;
      RunSnoc(grace, s, actions);
      InExactly(grace, s, actions[..n]);
      EntersSnoc(actions, true);
      EntersSnoc(actions, false);
      hide Enters;
    }
  }

  /** And nobody is in for a side that is not seated. */
  lemma {:induction false} OnlySeatedAreIn(grace: int, s: State, actions: seq<Action>)
    requires (s.row.firstIn ==> s.row.first.Some?) && (s.row.secondIn ==> s.row.second.Some?)
    ensures var x := Run(grace, s, actions).row;
            (x.firstIn ==> x.first.Some?) && (x.secondIn ==> x.second.Some?)
    decreases |actions|
  {
    if actions != [] {
      RunSnoc(grace, s, actions);
      OnlySeatedAreIn(grace, s, actions[..|actions| - 1]);
    }
  }

  function Side(x: Match, one: bool): Option<RegistrationId> {
    if one then x.first else x.second
  }

  predicate In(x: Match, one: bool) {
    if one then x.firstIn else x.secondIn
  }

  predicate NoReseat(actions: seq<Action>, one: bool) {
    forall i | 0 <= i < |actions| :: !(actions[i].Seat? && actions[i].one == one)
  }

  /** Whoever is seated stays seated until somebody else is seated on the same side. */
  lemma {:induction false} SeatedStays(grace: int, s: State, one: bool, who: RegistrationId, after: seq<Action>)
    requires NoReseat(after, one)
    ensures Side(Run(grace, Do(grace, s, Seat(one, who)), after).row, one) == Some(who)
    ensures Side(Do(grace, s, Seat(one, who)).row, !one) == Side(s.row, !one)
    decreases |after|
  {
    if after != [] {
      var n := |after| - 1;
      RunSnoc(grace, Do(grace, s, Seat(one, who)), after);
      SeatedStays(grace, s, one, who, after[..n]);
    }
  }

  lemma EntersSnoc(actions: seq<Action>, one: bool)
    requires actions != []
    ensures var n := |actions| - 1;
            Enters(actions, one) <==> Enters(actions[..n], one) || actions[n] == Enter(one)
  {
    var n := |actions| - 1;
    if Enters(actions[..n], one) {
      var i :| 0 <= i < n && actions[..n][i] == Enter(one);
      assert actions[i] == Enter(one);
    }
    if Enters(actions, one) && actions[n] != Enter(one) {
      var i :| 0 <= i < |actions| && actions[i] == Enter(one);
      assert actions[..n][i] == Enter(one);
    }
  }

  // ---------------------------------------------------------------- deadlines

  lemma {:induction false} ClockOnward(grace: int, s: State, actions: seq<Action>)
    ensures Run(grace, s, actions).clock >= s.clock
    decreases |actions|
  {
    if actions != [] {
      RunSnoc(grace, s, actions);
      ClockOnward(grace, s, actions[..|actions| - 1]);
    }
  }

  /** A deadline stamped at or after `now` stays at least `now + grace`, whatever follows: a
      pass that began at `now` cannot list the match as expired. */
  lemma {:induction false} NotExpiredInItsPass(grace: int, s: State, actions: seq<Action>, now: int)
    requires grace >= 0 && s.clock >= now
    requires s.row.deadline.Some? ==> s.row.deadline.value >= now + grace
    ensures !Expired(Run(grace, s, actions).row, now)
    ensures Run(grace, s, actions).row.deadline.Some? ==> Run(grace, s, actions).row.deadline.value >= now + grace
    decreases |actions|
  {
    if actions != [] {
      RunSnoc(grace, s, actions);
      NotExpiredInItsPass(grace, s, actions[..|actions| - 1], now);
      ClockOnward(grace, s, actions[..|actions| - 1]);
    }
  }

  ghost predicate StampsSee(actions: seq<Action>, listed: Option<int>) {
    forall i | 0 <= i < |actions| && actions[i].Stamp? :: actions[i].listed == listed
  }

  /** While the scheduled time stays what the sweep lists, re-stamping never moves the
      deadline earlier, and it is never less than that time or the first stamp plus grace. */
  lemma {:induction false} RestampNeverEarlier(grace: int, s: State, actions: seq<Action>, listed: Option<int>)
    requires StampsSee(actions, listed)
    requires s.row.deadline.Some? && s.row.deadline.value <= DeadlineFor(grace, listed, s.clock)
    ensures var t := Run(grace, s, actions);
            t.row.deadline.Some? && s.row.deadline.value <= t.row.deadline.value <= DeadlineFor(grace, listed, t.clock)
    decreases |actions|
  {
    if actions != [] {
      RunSnoc(grace, s, actions);
      RestampNeverEarlier(grace, s, actions[..|actions| - 1], listed);
    }
  }

  /** Nobody is timed out before the scheduled time plus the grace. */
  predicate Fair(grace: int, x: Match) {
    x.deadline.Some? && x.scheduledAt.Some? ==> x.deadline.value >= x.scheduledAt.value + grace
  }

  /** A stamp must know the scheduled time; a reschedule must not outrun a standing deadline. */
  predicate Harmless(grace: int, s: State, a: Action) {
    match a
    case Stamp(listed) => s.row.scheduledAt.Some? ==> DeadlineFor(0, listed, s.clock) >= s.row.scheduledAt.value
    case Reschedule(at) => s.row.deadline.Some? ==> at + grace <= s.row.deadline.value
    case _ => true
  }

  lemma StaysFairExactly(grace: int, s: State, a: Action)
    requires Fair(grace, s.row)
    ensures Fair(grace, Do(grace, s, a).row) <==> Harmless(grace, s, a)
  {
  }

  ghost predicate AllHarmless(grace: int, s: State, actions: seq<Action>) {
    forall i | 0 <= i < |actions| :: Harmless(grace, Run(grace, s, actions[..i]), actions[i])
  }

  /** Over a run of such steps every expired match is past its scheduled time plus grace. */
  lemma {:induction false} NoEarlyTimeout(grace: int, s: State, actions: seq<Action>, now: int)
    requires Fair(grace, s.row) && AllHarmless(grace, s, actions)
    ensures Fair(grace, Run(grace, s, actions).row)
    ensures var x := Run(grace, s, actions).row;
            Expired(x, now) && x.scheduledAt.Some? ==> now > x.scheduledAt.value + grace
    decreases |actions|
  {
    if actions != [] {
      var init := actions[..|actions| - 1];
      assert AllHarmless(grace, s, init) by {
        forall i | 0 <= i < |init| ensures Harmless(grace, Run(grace, s, init[..i]), init[i]) {
          assert actions[..i] == init[..i];
        }
      }
      RunSnoc(grace, s, actions);
      NoEarlyTimeout(grace, s, init, now);
      StaysFairExactly(grace, Run(grace, s, init), actions[|init|]);
    }
  }

  function Booked(at: int): Match {
    Match(Scheduled, Some(at), None, Some(1), Some(2), false, false, None, None)
  }

  /** The deadline an interrupted opening leaves behind is not harmless once the match is
      rescheduled: a participant who checks in early starts a window that has already closed,
      and the next pass forfeits the other side long before the new time. */
  lemma LeftoverDeadlineCanForfeitEarly()
    ensures var s := Run(10, State(Booked(100), 90), Leftover);
            && Expired(s.row, s.clock)
            && TimedOut(s.row, s.row).status == Forfeit && TimedOut(s.row, s.row).loser == Some(2)
            && s.row.scheduledAt == Some(5000) && s.clock == 200
  {
    var s := State(Booked(100), 90);
    RunThree(10, s, Stamp(Some(100)), Reschedule(5000), Tick(200));
    RunSnoc(10, s, Leftover);
    assert Leftover[..4] == [Stamp(Some(100)), Reschedule(5000), Tick(200), Put(CheckingIn)];
    RunSnoc(10, s, Leftover[..4]);
    assert Leftover[..4][..3] == [Stamp(Some(100)), Reschedule(5000), Tick(200)];
  }

  const Leftover: seq<Action> := [Stamp(Some(100)), Reschedule(5000), Tick(200), Put(CheckingIn), Enter(true)]

  // ---------------------------------------------------------------- one pass

  /** How the opening of a window goes: which writes land. */
  datatype Opening = StampLost | TransitionLost | LogLost | Opened

  function OpenWindow(c: Config, x: Match, at: int, how: Opening): Match {
    if how.StampLost? then x
    else
      var y := x.(deadline := Some(DeadlineFor(c.grace, x.scheduledAt, at)));
      if how.TransitionLost? then y else Move(y, CheckingIn)
  }

  function Repair(c: Config, x: Match, at: int, lands: bool): Match {
    if lands then x.(deadline := Some(DeadlineFor(c.grace, x.scheduledAt, at))) else x
  }

  /** What one pass meets: when it started, the later times at which it stamps, and which writes
      land. */
  datatype Conditions = Conditions(
    now: int,
    opensAt: int,
    repairsAt: int,
    how: Opening,
    repairs: bool,
    times: bool)

  predicate Onward(k: Conditions) {
    k.now <= k.opensAt <= k.repairsAt
  }

  function Pass(c: Config, x: Match, k: Conditions): Match {
    var a := if Due(x, k.now + c.lead) then OpenWindow(c, x, k.opensAt, k.how) else x;
    var b := if MissingDeadline(a) then Repair(c, a, k.repairsAt, k.repairs) else a;
    if Expired(b, k.now) && k.times then TimedOut(b, b) else b
  }

  // The writes of a pass to one match, as a schedule: what holds of every run holds of passes.

  function OpeningWrites(x: Match, k: Conditions): seq<Action> {
    if k.how.StampLost? then []
    else if k.how.TransitionLost? then [Tick(k.opensAt), Stamp(x.scheduledAt)]
    else if CheckingIn in Allowed(x.status) then [Tick(k.opensAt), Stamp(x.scheduledAt), Put(CheckingIn)]
    else [Tick(k.opensAt), Stamp(x.scheduledAt)]
  }

  lemma RunOne(grace: int, s: State, a: Action)
    ensures Run(grace, s, [a]) == Do(grace, s, a)
  {
    RunSnoc(grace, s, [a]);
    assert [a][..0] == [];
  }

  lemma RunThree(grace: int, s: State, a: Action, b: Action, d: Action)
    ensures Run(grace, s, [a, b]) == Do(grace, Do(grace, s, a), b)
    ensures Run(grace, s, [a, b, d]) == Do(grace, Do(grace, Do(grace, s, a), b), d)
  {
    RunOne(grace, s, a);
    RunSnoc(grace, s, [a, b]);
    assert [a, b][..1] == [a];
    RunSnoc(grace, s, [a, b, d]);
    assert [a, b, d][..2] == [a, b];
  }

  lemma OpenWindowIsARun(c: Config, x: Match, k: Conditions)
    requires Onward(k)
    ensures Run(c.grace, State(x, k.now), OpeningWrites(x, k)).row == OpenWindow(c, x, k.opensAt, k.how)
  {
    RunThree(c.grace, State(x, k.now), Tick(k.opensAt), Stamp(x.scheduledAt), Put(CheckingIn));
  }

  lemma RepairIsARun(c: Config, x: Match, k: Conditions)
    requires Onward(k) && k.repairs
    ensures Run(c.grace, State(x, k.now), [Tick(k.repairsAt), Stamp(x.scheduledAt)]).row ==
              Repair(c, x, k.repairsAt, true)
  {
    RunThree(c.grace, State(x, k.now), Tick(k.repairsAt), Stamp(x.scheduledAt), Put(CheckingIn));
  }
}
