/**
 The check-in phases of the lifecycle pass, read by read and write by write, with everyone else
 acting in between. The pass lists a copy of the row and acts on it later; its transition and
 its forfeits check the row and then write whatever has become of it; it may lose a write or die
 anywhere. Its writes are the actions of CheckIn, so what holds of those schedules holds here;
 what is added is progress.
*/
module CheckInProgress {
  import opened Options
  import opened MatchLifecycle
  import opened CheckIn
  import Schedules

  /** Where the pass stands, and when it began. */
  datatype Stage =
    | Idle
    | ToListDue(now: int)
    | ToStamp(now: int, copy: Match)
    | ToCheck(now: int)                      // about to ask whether the window may open
    | ToOpen(now: int)                       // about to write that it is
    | ToListMissing(now: int)
    | ToRepair(now: int, copy: Match)
    | ToListExpired(now: int)
    | ToJudge(now: int, copy: Match)
    | ToSentence(now: int, verdict: Verdict)

  datatype Setting = Setting(s: State, stage: Stage)

  datatype Move =
    | Begin
    | Step(lands: bool, inBatch: bool)   // its write lands; the row is within the batch limit
    | Die
    | Other(a: Action)                   // time, check-ins, anyone's status writes, reschedules

  predicate Foreign(a: Action) {
    a.Tick? || a.Put? || a.Enter? || a.Reschedule? || a.Seat?
  }

  /** What the pass writes at a step, if anything. */
  function Writes(p: Setting, lands: bool): seq<Action> {
    if !lands then []
    else match p.stage
         case ToStamp(_, copy) => [Stamp(copy.scheduledAt)]
         case ToOpen(_) => [Put(CheckingIn)]
         case ToRepair(_, copy) => [Stamp(copy.scheduledAt)]
         case ToSentence(_, verdict) => [Sentence(verdict)]
         case _ => []
  }

  /** A lost stamp or transition ends the opening of this match; the pass goes on. */
  function Next(c: Config, p: Setting, lands: bool, inBatch: bool): Stage {
    var x := p.s.row;
    match p.stage
    case Idle => Idle
    case ToListDue(now) => if inBatch && Due(x, now + c.lead) then ToStamp(now, x) else ToListMissing(now)
    case ToStamp(now, _) => if lands then ToCheck(now) else ToListMissing(now)
    case ToCheck(now) => if CheckingIn in Allowed(x.status) then ToOpen(now) else ToListMissing(now)
    case ToOpen(now) => ToListMissing(now)
    case ToListMissing(now) => if inBatch && MissingDeadline(x) then ToRepair(now, x) else ToListExpired(now)
    case ToRepair(now, _) => ToListExpired(now)
    case ToListExpired(now) => if inBatch && Expired(x, now) then ToJudge(now, x) else Idle
    case ToJudge(now, copy) => if Judge(x, copy).NoVerdict? then Idle else ToSentence(now, Judge(x, copy))
    case ToSentence(_, _) => Idle
  }

  function Do(c: Config, p: Setting, m: Move): Setting {
    match m
    case Begin => if p.stage.Idle? then Setting(p.s, ToListDue(p.s.clock)) else p
    case Step(lands, inBatch) =>
      var w := Writes(p, lands);
      Setting(if w == [] then p.s else CheckIn.Do(c.grace, p.s, w[0]), Next(c, p, lands, inBatch))
    case Die => Setting(p.s, Idle)
    case Other(a) => if Foreign(a) then Setting(CheckIn.Do(c.grace, p.s, a), p.stage) else p
  }

  function Run(c: Config, p: Setting, moves: seq<Move>): Setting {
    Schedules.Fold((q: Setting, m: Move) => Do(c, q, m), p, moves)
  }

  lemma RunSnoc(c: Config, p: Setting, moves: seq<Move>)
    requires moves != []
    ensures Run(c, p, moves) == Do(c, Run(c, p, moves[..|moves| - 1]), moves[|moves| - 1])
  {
  }

  lemma RunConcat(c: Config, p: Setting, a: seq<Move>, b: seq<Move>)
    ensures Run(c, p, a + b) == Run(c, Run(c, p, a), b)
  {
    Schedules.FoldConcat((q: Setting, m: Move) => Do(c, q, m), p, a, b);
  }

  /** The pass and everyone else together make a schedule of CheckIn. */
  lemma {:induction false} IsASchedule(c: Config, p: Setting, moves: seq<Move>) returns (actions: seq<Action>)
    ensures Run(c, p, moves).s == CheckIn.Run(c.grace, p.s, actions)
    decreases |moves|
  {
    if moves == [] {
      actions := [];
    } else {
      var n := |moves| - 1;
      RunSnoc(c, p, moves);
      actions := IsASchedule(c, p, moves[..n]);
      var q, m := Run(c, p, moves[..n]), moves[n];
      var more := match m
        case Step(lands, _) => Writes(q, lands)
        case Other(a) => if Foreign(a) then [a] else []
        case _ => [];
      if more != [] {
        CheckIn.RunSnoc(c.grace, p.s, actions + more);
        assert (actions + more)[..|actions + more| - 1] == actions;
      } else {
        assert actions + more == actions;
      }
      actions := actions + more;
    }
  }

  // ---------------------------------------------------------------- progress

  /** Nobody accepts a proposal or fills a slot anew, and nobody's write puts the match back: it
      goes to pick/ban or beyond, from whatever status, or to check-in from scheduled. */
  predicate Onwards(p: Setting, m: Move) {
    m.Other? ==>
      && !m.a.Reschedule? && !m.a.Seat?
      && (m.a.Put? ==> !BeforePickBan(m.a.to) || (m.a.to.CheckingIn? && p.s.row.status.Scheduled?))
  }

  ghost predicate AllOnwards(c: Config, p: Setting, moves: seq<Move>)
    decreases |moves|
  {
    moves == [] ||
    (AllOnwards(c, p, moves[..|moves| - 1]) && Onwards(Run(c, p, moves[..|moves| - 1]), moves[|moves| - 1]))
  }

  /** Within a pass that loses nothing: it neither dies nor starts again. */
  predicate Lossless(m: Move) {
    !m.Die? && !m.Begin? && (m.Step? ==> m.lands && m.inBatch)
  }

  /** One whole pass, and what the others do meanwhile. */
  ghost predicate WholePass(c: Config, p: Setting, moves: seq<Move>) {
    && p.stage.Idle? && moves != [] && moves[0] == Begin
    && (forall i | 1 <= i < |moves| :: Lossless(moves[i]))
    && Run(c, p, moves).stage.Idle?
  }

  predicate AtMost(deadline: Option<int>, bound: int) {
    deadline.Some? ==> deadline.value <= bound
  }

  predicate Begun(x: Match, at: int) {
    !x.status.Pending? && !x.status.Ready? && x.scheduledAt == Some(at) && x.first.Some? && x.second.Some?
  }

  /** On the way through the first pass: by the stages passed, the row is no longer scheduled,
      and has a deadline if it is in check-in; the deadline is never out of bounds. */
  ghost predicate Opening(c: Config, p: Setting, at: int, d: int) {
    var x := p.s.row;
    && Begun(x, at) && AtMost(x.deadline, Max(d, Max(at, p.s.clock) + c.grace))
    && (match p.stage
        case Idle => !x.status.Scheduled? && !MissingDeadline(x)
        case ToListDue(now) => at <= now + c.lead
        case ToStamp(_, copy) => copy.scheduledAt == Some(at)
        case ToCheck(_) => x.deadline.Some?
        case ToOpen(_) => x.deadline.Some?
        case ToListMissing(_) => !x.status.Scheduled?
        case ToRepair(_, copy) => copy.scheduledAt == Some(at) && !x.status.Scheduled?
        case _ => !x.status.Scheduled? && !MissingDeadline(x))
  }

  lemma OpeningStep(c: Config, p: Setting, m: Move, at: int, d: int)
    requires Opening(c, p, at, d) && Lossless(m) && Onwards(p, m)
    ensures Opening(c, Do(c, p, m), at, d)
  {
    match m
    case Step(_, _) =>
    case Other(a) => OpeningOther(c, p, a, at, d);
  }

  lemma OpeningOther(c: Config, p: Setting, a: Action, at: int, d: int)
    requires Opening(c, p, at, d) && Onwards(p, Other(a))
    ensures Opening(c, Do(c, p, Other(a)), at, d)
  {
  }

  lemma {:induction false} OpeningRun(c: Config, p: Setting, moves: seq<Move>, at: int, d: int)
    requires Opening(c, p, at, d) && AllOnwards(c, p, moves) && forall i | 0 <= i < |moves| :: Lossless(moves[i])
    ensures Opening(c, Run(c, p, moves), at, d)
    decreases |moves|
  {
    if moves != [] {
      var n := |moves| - 1;
      RunSnoc(c, p, moves);
      OpeningRun(c, p, moves[..n], at, d);
      hide Opening, Do;
      OpeningStep(c, Run(c, p, moves[..n]), moves[n], at, d);
    }
  }

  /** Between passes, and through any that follow: nothing is left to open or to repair. */
  ghost predicate Waiting(p: Setting, at: int, d: int) {
    var x := p.s.row;
    && Begun(x, at) && AtMost(x.deadline, d) && !x.status.Scheduled? && !MissingDeadline(x)
    && !p.stage.ToStamp? && !p.stage.ToCheck? && !p.stage.ToOpen? && !p.stage.ToRepair?
    && (p.stage.ToSentence? ==> !p.stage.verdict.NoVerdict?)
  }

  lemma WaitingStep(c: Config, p: Setting, m: Move, at: int, d: int)
    requires Waiting(p, at, d) && Onwards(p, m)
    ensures Waiting(Do(c, p, m), at, d)
  {
    match m
    case Begin =>
    case Step(_, _) =>
    case Die =>
    case Other(a) =>
  }

  lemma {:induction false} WaitingRun(c: Config, p: Setting, moves: seq<Move>, at: int, d: int)
    requires Waiting(p, at, d) && AllOnwards(c, p, moves)
    ensures Waiting(Run(c, p, moves), at, d)
    decreases |moves|
  {
    if moves != [] {
      var n := |moves| - 1;
      RunSnoc(c, p, moves);
      WaitingRun(c, p, moves[..n], at, d);
      hide Waiting, Do;
      WaitingStep(c, Run(c, p, moves[..n]), moves[n], at, d);
    }
  }

  predicate Settles(x: Match) {
    x.status.CheckingIn? ==> x.firstIn && x.secondIn
  }

  /** Through a pass that began after the deadline: what it lists it settles. */
  ghost predicate Closing(p: Setting, at: int, d: int) {
    var x := p.s.row;
    && Waiting(p, at, d)
    && (match p.stage
        case ToListDue(now) => now > d
        case ToListMissing(now) => now > d
        case ToListExpired(now) => now > d
        case ToSentence(_, _) => true
        case ToJudge(_, copy) =>
          copy.first == x.first && copy.second == x.second && (copy.firstIn ==> x.firstIn) &&
            (copy.secondIn ==> x.secondIn)
        case _ => Settles(x))
  }

  lemma ClosingStep(c: Config, p: Setting, m: Move, at: int, d: int)
    requires Closing(p, at, d) && Lossless(m) && Onwards(p, m)
    ensures Closing(Do(c, p, m), at, d)
  {
    WaitingStep(c, p, m, at, d);
    hide Waiting;
    assert Begun(p.s.row, at) && AtMost(p.s.row.deadline, d) && !p.s.row.status.Scheduled? &&
           !MissingDeadline(p.s.row) by {
      WaitingFacts(p, at, d);
    }
    match m
    case Step(_, _) =>
    case Other(a) =>
  }

  lemma WaitingFacts(p: Setting, at: int, d: int)
    requires Waiting(p, at, d)
    ensures Begun(p.s.row, at) && AtMost(p.s.row.deadline, d) && !p.s.row.status.Scheduled? && !MissingDeadline(p.s.row)
  {
  }

  lemma {:induction false} ClosingRun(c: Config, p: Setting, moves: seq<Move>, at: int, d: int)
    requires Closing(p, at, d) && AllOnwards(c, p, moves) && forall i | 0 <= i < |moves| :: Lossless(moves[i])
    ensures Closing(Run(c, p, moves), at, d)
    decreases |moves|
  {
    if moves != [] {
      var n := |moves| - 1;
      RunSnoc(c, p, moves);
      ClosingRun(c, p, moves[..n], at, d);
      hide Closing, Do;
      ClosingStep(c, Run(c, p, moves[..n]), moves[n], at, d);
    }
  }

  lemma RunFirst(c: Config, p: Setting, moves: seq<Move>)
    requires moves != []
    ensures Run(c, p, moves) == Run(c, Do(c, p, moves[0]), moves[1..])
  {
    RunConcat(c, p, [moves[0]], moves[1..]);
    RunSnoc(c, p, [moves[0]]);
    assert [moves[0]][..0] == [];
    assert [moves[0]] + moves[1..] == moves;
  }

  lemma {:induction false} OnwardsTail(c: Config, p: Setting, moves: seq<Move>)
    requires moves != [] && AllOnwards(c, p, moves)
    ensures AllOnwards(c, Do(c, p, moves[0]), moves[1..])
    decreases |moves|
  {
    var n := |moves| - 1;
    if n > 0 {
      OnwardsTail(c, p, moves[..n]);
      assert moves[1..][..n - 1] == moves[..n][1..] && moves[1..][n - 1] == moves[n];
      RunFirst(c, p, moves[..n]);
    }
  }

  /** One whole pass begun when the match is due opens its window or finds it open. */
  lemma PassOpens(c: Config, p: Setting, moves: seq<Move>, at: int, d: int)
    requires WholePass(c, p, moves) && AllOnwards(c, p, moves)
    requires (p.s.row.status.Scheduled? || p.s.row.status.CheckingIn?) && Begun(p.s.row, at) && at <= p.s.clock + c.lead
    requires AtMost(p.s.row.deadline, d)
    ensures Waiting(Run(c, p, moves), at, Max(d, Max(at, Run(c, p, moves).s.clock) + c.grace))
  {
    RunFirst(c, p, moves);
    OnwardsTail(c, p, moves);
    assert Opening(c, Do(c, p, Begin), at, d);
    OpeningRun(c, Do(c, p, Begin), moves[1..], at, d);
  }

  /** One whole pass begun after the deadline settles it, unless both sides are in. */
  lemma PassCloses(c: Config, p: Setting, moves: seq<Move>, at: int, d: int)
    requires WholePass(c, p, moves) && AllOnwards(c, p, moves) && Waiting(p, at, d) && p.s.clock > d
    ensures Settles(Run(c, p, moves).s.row) && !Run(c, p, moves).s.row.status.Scheduled?
  {
    RunFirst(c, p, moves);
    OnwardsTail(c, p, moves);
    assert Closing(Do(c, p, Begin), at, d);
    ClosingRun(c, Do(c, p, Begin), moves[1..], at, d);
  }

  /** No match is stranded. Whatever an earlier crash left of a due match with both sides known,
      and whatever check-ins, onward status writes, lossy or dying passes come between: after one
      whole pass, and another begun later than the grace that the first can have given, the match
      has left check-in, unless both sides are in. The pass's own writes may be stale: a window it
      opens over a match already in pick/ban is settled like any other. */
  lemma NeverStranded(c: Config, p: Setting, first: seq<Move>, between: seq<Move>, second: seq<Move>, at: int)
    requires p.s.row.status.Scheduled? || p.s.row.status.CheckingIn?
    requires Begun(p.s.row, at) && at <= p.s.clock + c.lead
    requires AllOnwards(c, p, first) && AllOnwards(c, Run(c, p, first), between)
    requires AllOnwards(c, Run(c, p, first + between), second)
    requires WholePass(c, p, first) && WholePass(c, Run(c, p, first + between), second)
    requires var opens, closes := Run(c, p, first), Run(c, p, first + between);
             && closes.s.clock > Max(at, opens.s.clock) + c.grace
             && (p.s.row.deadline.Some? ==> closes.s.clock > p.s.row.deadline.value)
    ensures var x := Run(c, p, first + between + second).s.row;
            !x.status.Scheduled? && (x.status.CheckingIn? ==> x.firstIn && x.secondIn)
  {
    var opens := Run(c, p, first);
    var least := Max(at, opens.s.clock) + c.grace;
    var d := if p.s.row.deadline.Some? then p.s.row.deadline.value else least;
    RunConcat(c, p, first, between);
    RunConcat(c, p, first + between, second);
    PassOpens(c, p, first, at, d);
    WaitingRun(c, opens, between, at, Max(d, least));
    PassCloses(c, Run(c, p, first + between), second, at, Max(d, least));
  }

  /** The pass holds no verdict, and no copy from which it would reach one. */
  predicate Spares(stage: Stage) {
    && (stage.ToJudge? ==> stage.copy.firstIn && stage.copy.secondIn)
    && (stage.ToSentence? ==> stage.verdict.NoVerdict?)
  }

  /** And when both sides are in, no pass ever takes it out: the exception is one for good. */
  lemma {:induction false} BothInStays(c: Config, p: Setting, moves: seq<Move>)
    requires p.s.row.status.CheckingIn? && p.s.row.firstIn && p.s.row.secondIn
    requires Spares(p.stage)
    requires forall i | 0 <= i < |moves| :: moves[i].Other? ==> moves[i].a.Tick?
    ensures var q := Run(c, p, moves);
            && q.s.row.status.CheckingIn? && q.s.row.firstIn && q.s.row.secondIn
            && Spares(q.stage)
    decreases |moves|
  {
    if moves != [] {
      RunSnoc(c, p, moves);
      BothInStays(c, p, moves[..|moves| - 1]);
      BothInStep(c, Run(c, p, moves[..|moves| - 1]), moves[|moves| - 1]);
      hide Do;
    }
  }

  lemma BothInStep(c: Config, p: Setting, m: Move)
    requires p.s.row.status.CheckingIn? && p.s.row.firstIn && p.s.row.secondIn && (m.Other? ==> m.a.Tick?)
    requires Spares(p.stage)
    ensures var q := Do(c, p, m);
            && q.s.row.status.CheckingIn? && q.s.row.firstIn && q.s.row.secondIn
            && Spares(q.stage)
  {
  }

  // ---------------------------------------------------------------- fairness, exactly

  /** Over every schedule without a reschedule the deadline stays at least the scheduled time
      plus the grace. */
  ghost predicate FairForever(c: Config, p: Setting) {
    forall moves | NoReschedule(moves) :: Fair(c.grace, Run(c, p, moves).s.row)
  }

  ghost predicate NoReschedule(moves: seq<Move>) {
    forall i | 0 <= i < |moves| && moves[i].Other? :: !moves[i].a.Reschedule?
  }

  /** The copy the pass is about to stamp from knows the scheduled time, or time has passed it. */
  predicate KnowsTime(p: Setting) {
    (p.stage.ToStamp? || p.stage.ToRepair?) && p.s.row.scheduledAt.Some? ==>
      DeadlineFor(0, p.stage.copy.scheduledAt, p.s.clock) >= p.s.row.scheduledAt.value
  }

  lemma {:induction false} StaysFairRun(c: Config, p: Setting, moves: seq<Move>)
    requires Fair(c.grace, p.s.row) && KnowsTime(p) && NoReschedule(moves)
    ensures Fair(c.grace, Run(c, p, moves).s.row) && KnowsTime(Run(c, p, moves))
    decreases |moves|
  {
    if moves != [] {
      RunSnoc(c, p, moves);
      StaysFairRun(c, p, moves[..|moves| - 1]);
      StaysFairStep(c, Run(c, p, moves[..|moves| - 1]), moves[|moves| - 1]);
      hide Do;
    }
  }

  lemma StaysFairStep(c: Config, p: Setting, m: Move)
    requires Fair(c.grace, p.s.row) && KnowsTime(p) && (m.Other? ==> !m.a.Reschedule?)
    ensures Fair(c.grace, Do(c, p, m).s.row) && KnowsTime(Do(c, p, m))
  {
    match m
    case Begin =>
    case Step(_, _) =>
    case Die =>
    case Other(_) =>
  }

  /** From a fair row, the deadline stays fair over every schedule without a further reschedule
      if and only if the pass holds no copy from before one. */
  lemma FairForeverExactly(c: Config, p: Setting)
    requires Fair(c.grace, p.s.row)
    ensures FairForever(c, p) <==> KnowsTime(p)
  {
    if KnowsTime(p) {
      forall moves | NoReschedule(moves) ensures Fair(c.grace, Run(c, p, moves).s.row) {
        StaysFairRun(c, p, moves);
      }
    } else {
      var stamp := [Step(true, true)];
      RunSnoc(c, p, stamp);
      assert stamp[..0] == [] && Run(c, p, []) == p;
      assert NoReschedule(stamp) && !Fair(c.grace, Run(c, p, stamp).s.row);
    }
  }

  // ---------------------------------------------------------------- who is forfeited

  ghost predicate NoSeating(moves: seq<Move>) {
    forall i | 0 <= i < |moves| && moves[i].Other? :: !moves[i].a.Seat?
  }

  /** Over every schedule, this side never comes out as the loser. */
  ghost predicate NeverLoses(c: Config, p: Setting, one: bool) {
    forall moves | NoSeating(moves) :: Run(c, p, moves).s.row.loser != Side(p.s.row, one)
  }

  /** The pass holds no copy in which this side is absent and the other present, and no verdict
      against it. */
  predicate SeenPresent(p: Setting, one: bool) {
    && (p.stage.ToJudge? ==> In(p.stage.copy, one) || !In(p.stage.copy, !one))
    && (p.stage.ToSentence? && p.stage.verdict.Award? ==> Some(p.stage.verdict.loser) != Side(p.s.row, one))
  }

  /** This side has checked in, against another one, and has not lost. */
  predicate Present(x: Match, one: bool, first: Option<RegistrationId>, second: Option<RegistrationId>) {
    && In(x, one) && x.first == first && x.second == second && first != second
    && Side(x, one).Some? && x.loser != Side(x, one)
  }

  predicate CopyTrue(p: Setting, first: Option<RegistrationId>, second: Option<RegistrationId>) {
    p.stage.ToJudge? ==> p.stage.copy.first == first && p.stage.copy.second == second
  }

  lemma PresentStep(c: Config, p: Setting, m: Move, one: bool, first: Option<RegistrationId>,
                    second: Option<RegistrationId>)
    requires Present(p.s.row, one, first, second) && SeenPresent(p, one) && CopyTrue(p, first, second)
    requires m.Other? ==> !m.a.Seat?
    ensures var q := Do(c, p, m);
            Present(q.s.row, one, first, second) && SeenPresent(q, one) && CopyTrue(q, first, second)
  {
    match m
    case Step(_, _) =>
    case Other(_) =>
    case _ =>
  }

  lemma {:induction false} PresentRun(c: Config, p: Setting, moves: seq<Move>, one: bool,
                                      first: Option<RegistrationId>, second: Option<RegistrationId>)
    requires Present(p.s.row, one, first, second) && SeenPresent(p, one) && CopyTrue(p, first, second)
    requires NoSeating(moves)
    ensures var q := Run(c, p, moves);
            Present(q.s.row, one, first, second) && SeenPresent(q, one) && CopyTrue(q, first, second)
    decreases |moves|
  {
    if moves != [] {
      RunSnoc(c, p, moves);
      PresentRun(c, p, moves[..|moves| - 1], one, first, second);
      hide Do;
      PresentStep(c, Run(c, p, moves[..|moves| - 1]), moves[|moves| - 1], one, first, second);
    }
  }

  /** A side that has checked in is never forfeited by any pass, if and only if none holds a copy
      from before it came in that shows the other side present, or a verdict from such a copy.
      The same for either side. */
  lemma PresentIsSafeExactly(c: Config, p: Setting, one: bool)
    requires Present(p.s.row, one, p.s.row.first, p.s.row.second) && CopyTrue(p, p.s.row.first, p.s.row.second)
    requires Side(p.s.row, !one).Some? && CanForfeit(p.s.row.status)
    ensures NeverLoses(c, p, one) <==> SeenPresent(p, one)
  {
    if SeenPresent(p, one) {
      forall moves | NoSeating(moves) ensures Run(c, p, moves).s.row.loser != Side(p.s.row, one) {
        PresentRun(c, p, moves, one, p.s.row.first, p.s.row.second);
      }
    } else {
      var step := Step(true, true);
      var settle := if p.stage.ToJudge? then [step, step] else [step];
      RunSnoc(c, p, settle);
      RunSnoc(c, p, [step]);
      assert settle[..|settle| - 1] == if p.stage.ToJudge? then [step] else [];
      assert [step][..0] == [] && Run(c, p, []) == p;
      assert NoSeating(settle) && Run(c, p, settle).s.row.loser == Side(p.s.row, one);
    }
  }

  // ---------------------------------------------------------------- who wins

  /** The two are the participants, one each way round. */
  predicate Opponents(winner: Option<RegistrationId>, loser: Option<RegistrationId>, first: Option<RegistrationId>,
                      second: Option<RegistrationId>) {
    (winner == first && loser == second) || (winner == second && loser == first)
  }

  predicate JustVerdict(p: Setting, first: Option<RegistrationId>, second: Option<RegistrationId>) {
    p.stage.ToSentence? && p.stage.verdict.Award? ==>
      Opponents(Some(p.stage.verdict.winner), Some(p.stage.verdict.loser), first, second)
  }

  /** No forfeit so far, or one that names both participants. */
  predicate Just(x: Match, was: Match) {
    && x.first == was.first && x.second == was.second
    && ((x.winner == was.winner && x.loser == was.loser) || Opponents(x.winner, x.loser, was.first, was.second))
  }

  lemma JustStep(c: Config, p: Setting, m: Move, was: Match)
    requires Just(p.s.row, was) && JustVerdict(p, was.first, was.second) && (m.Other? ==> !m.a.Seat?)
    ensures Just(Do(c, p, m).s.row, was) && JustVerdict(Do(c, p, m), was.first, was.second)
  {
    match m
    case Step(_, _) =>
    case Other(_) =>
    case _ =>
  }

  lemma {:induction false} JustRun(c: Config, p: Setting, moves: seq<Move>, was: Match)
    requires Just(p.s.row, was) && JustVerdict(p, was.first, was.second) && NoSeating(moves)
    ensures Just(Run(c, p, moves).s.row, was) && JustVerdict(Run(c, p, moves), was.first, was.second)
    decreases |moves|
  {
    if moves != [] {
      RunSnoc(c, p, moves);
      JustRun(c, p, moves[..|moves| - 1], was);
      hide Do;
      JustStep(c, Run(c, p, moves[..|moves| - 1]), moves[|moves| - 1], was);
    }
  }

  /** Over every schedule of passes begun from here: whoever a forfeit names as the loser, it
      names the other participant as the winner. */
  lemma ForfeitNamesOpponents(c: Config, p: Setting, moves: seq<Move>)
    requires p.s.row.winner.None? && p.s.row.loser.None? && p.s.row.first != p.s.row.second
    requires !p.stage.ToSentence? && NoSeating(moves)
    ensures var x := Run(c, p, moves).s.row;
            x.winner.Some? || x.loser.Some? ==>
              && x.winner != x.loser
              && Opponents(x.winner, x.loser, p.s.row.first, p.s.row.second)
  {
    JustRun(c, p, moves, p.s.row);
  }

  // ---------------------------------------------------------------- deadline first

  /** On its way to open the window, the pass has seen a stamp of its own land. */
  predicate StampedFirst(p: Setting) {
    p.stage.ToCheck? || p.stage.ToOpen? ==> p.s.row.deadline.Some?
  }

  lemma StampedFirstStep(c: Config, p: Setting, m: Move)
    requires StampedFirst(p)
    ensures StampedFirst(Do(c, p, m))
  {
  }

  /** Over every schedule, lost writes and deaths included: a pass that is about to open a window
      has a deadline on the row. */
  lemma {:induction false} DeadlineFirst(c: Config, p: Setting, moves: seq<Move>)
    requires StampedFirst(p)
    ensures StampedFirst(Run(c, p, moves))
    decreases |moves|
  {
    if moves != [] {
      RunSnoc(c, p, moves);
      DeadlineFirst(c, p, moves[..|moves| - 1]);
      hide Do;
      StampedFirstStep(c, Run(c, p, moves[..|moves| - 1]), moves[|moves| - 1]);
    }
  }

  /** A lost write changes nothing, a lost stamp or a row beyond the batch limit is passed over,
      and a window is opened from scheduled only. */
  lemma PassedOver(c: Config, p: Setting, lands: bool, inBatch: bool)
    ensures var q := Do(c, p, Step(lands, inBatch));
            && (!lands ==> q.s == p.s)
            && (p.stage.ToStamp? && !lands ==> q.stage == ToListMissing(p.stage.now))
            && (p.stage.ToListDue? && !inBatch ==> q.stage == ToListMissing(p.stage.now))
            && (p.stage.ToListMissing? && !inBatch ==> q.stage == ToListExpired(p.stage.now))
            && (p.stage.ToListExpired? && !inBatch ==> q.stage == Idle)
            && (q.stage.ToOpen? <==> p.stage.ToCheck? && p.s.row.status.Scheduled?)
  {
  }

  /** An accepted proposal brings a match back from any status, one that is over included: once it
      is due, the next whole pass opens it. */
  lemma RescheduledComesBack(c: Config, p: Setting, moves: seq<Move>, at: int, d: int)
    requires p.stage.Idle? && p.s.row.first.Some? && p.s.row.second.Some? && at <= p.s.clock + c.lead
    requires AtMost(p.s.row.deadline, d)
    requires WholePass(c, Do(c, p, Other(Reschedule(at))), moves)
    requires AllOnwards(c, Do(c, p, Other(Reschedule(at))), moves)
    ensures var q := Run(c, Do(c, p, Other(Reschedule(at))), moves);
            Waiting(q, at, Max(d, Max(at, q.s.clock) + c.grace))
  {
    PassOpens(c, Do(c, p, Other(Reschedule(at))), moves, at, d);
  }

  // ---------------------------------------------------------------- neither too early nor too late

  /** The pass has nothing in hand to open the window with. */
  predicate NothingToOpen(p: Setting) {
    !p.stage.ToStamp? && !p.stage.ToCheck? && !p.stage.ToOpen? && !p.stage.ToRepair? &&
      (p.stage.ToListDue? ==> p.stage.now <= p.s.clock)
  }

  /** Others neither open the window nor reschedule. */
  predicate LeavesWindow(m: Move) {
    m.Other? ==> !m.a.Reschedule? && !(m.a.Put? && m.a.to.CheckingIn?)
  }

  /** No pass opens a window, or stamps a deadline, more than the lead before the scheduled time. */
  lemma {:induction false} NeverOpensEarly(c: Config, p: Setting, moves: seq<Move>, at: int)
    requires p.s.row.scheduledAt == Some(at) && !p.s.row.status.CheckingIn? && NothingToOpen(p)
    requires forall i | 0 <= i < |moves| :: LeavesWindow(moves[i])
    requires Run(c, p, moves).s.clock + c.lead < at
    ensures var q := Run(c, p, moves);
            && !q.s.row.status.CheckingIn? && q.s.row.deadline == p.s.row.deadline
            && q.s.row.scheduledAt == Some(at) && NothingToOpen(q)
    decreases |moves|
  {
    if moves != [] {
      var n := |moves| - 1;
      var q := Run(c, p, moves[..n]);
      RunSnoc(c, p, moves);
      assert q.s.clock <= Do(c, q, moves[n]).s.clock;
      NeverOpensEarly(c, p, moves[..n], at);
      NothingEarlyStep(c, q, moves[n], at);
      hide Do;
    }
  }

  lemma NothingEarlyStep(c: Config, p: Setting, m: Move, at: int)
    requires p.s.row.scheduledAt == Some(at) && !p.s.row.status.CheckingIn? && NothingToOpen(p)
    requires LeavesWindow(m) && Do(c, p, m).s.clock + c.lead < at
    ensures var q := Do(c, p, m);
            && !q.s.row.status.CheckingIn? && q.s.row.deadline == p.s.row.deadline
            && q.s.row.scheduledAt == Some(at) && NothingToOpen(q)
  {
  }

  /** An accepted proposal takes the match out of check-in, and no pass opens it before its time. */
  lemma RescheduledWaits(c: Config, p: Setting, moves: seq<Move>, at: int)
    requires NothingToOpen(p) && forall i | 0 <= i < |moves| :: LeavesWindow(moves[i])
    requires Run(c, Do(c, p, Other(Reschedule(at))), moves).s.clock + c.lead < at
    ensures var q := Run(c, Do(c, p, Other(Reschedule(at))), moves);
            !q.s.row.status.CheckingIn? && q.s.row.deadline == p.s.row.deadline
  {
    NeverOpensEarly(c, Do(c, p, Other(Reschedule(at))), moves, at);
  }

  /** The match has left check-in, and the pass has nothing in hand to open or to settle it with. */
  predicate Left(p: Setting) {
    && !p.s.row.status.Scheduled? && !p.s.row.status.CheckingIn?
    && !p.stage.ToOpen? && !p.stage.ToJudge? && !p.stage.ToSentence?
  }

  predicate LeavesLeft(m: Move) {
    m.Other? ==> !m.a.Reschedule? && !(m.a.Put? && (m.a.to.CheckingIn? || m.a.to.Scheduled?))
  }

  lemma LeftStep(c: Config, p: Setting, m: Move)
    requires Left(p) && LeavesLeft(m)
    ensures Left(Do(c, p, m))
    ensures var x, y := p.s.row, Do(c, p, m).s.row;
            y.winner == x.winner && y.loser == x.loser && (!m.Other? ==> y.status == x.status)
  {
  }

  /** Once the match has left check-in no later pass opens it again or forfeits it, however long
      its deadline has passed: nothing but others' writes changes its status. */
  lemma {:induction false} LeftIsSafe(c: Config, p: Setting, moves: seq<Move>)
    requires Left(p) && forall i | 0 <= i < |moves| :: LeavesLeft(moves[i])
    ensures Left(Run(c, p, moves))
    ensures var x, y := p.s.row, Run(c, p, moves).s.row;
            && y.winner == x.winner && y.loser == x.loser
            && ((forall i | 0 <= i < |moves| && moves[i].Other? :: !moves[i].a.Put?) ==> y.status == x.status)
    decreases |moves|
  {
    if moves != [] {
      var n := |moves| - 1;
      RunSnoc(c, p, moves);
      LeftIsSafe(c, p, moves[..n]);
      LeftStep(c, Run(c, p, moves[..n]), moves[n]);
      if moves[n].Other? && !moves[n].a.Put? {
        OnlyPutsMove(c, Run(c, p, moves[..n]), moves[n]);
      }
      hide Do;
    }
  }

  lemma OnlyPutsMove(c: Config, p: Setting, m: Move)
    requires m.Other? && !m.a.Put? && LeavesLeft(m)
    ensures Do(c, p, m).s.row.status == p.s.row.status
  {
  }

  // ---------------------------------------------------------------- not in the same pass

  /** The pass has stamped, and is on its way. */
  ghost predicate Stamped(c: Config, p: Setting, now: int) {
    && p.s.clock >= now && AtLeast(p.s.row.deadline, now + c.grace)
    && (match p.stage
        case Idle => true
        case ToCheck(began) => began == now
        case ToOpen(began) => began == now
        case ToListMissing(began) => began == now
        case ToRepair(began, _) => began == now
        case ToListExpired(began) => began == now
        case _ => false)
  }

  predicate AtLeast(deadline: Option<int>, bound: int) {
    deadline.Some? ==> deadline.value >= bound
  }

  lemma StampedStep(c: Config, p: Setting, m: Move, now: int)
    requires c.grace >= 0 && Stamped(c, p, now) && !m.Begin?
    ensures Stamped(c, Do(c, p, m), now)
  {
    match m
    case Step(_, _) =>
    case Die =>
    case Other(_) =>
  }

  /** Once a pass has stamped a match it never comes to judge it, whoever acts in between and
      whatever is rescheduled. */
  lemma {:induction false} NeverJudgedInItsPass(c: Config, p: Setting, moves: seq<Move>, now: int)
    requires c.grace >= 0 && Stamped(c, p, now) && forall i | 0 <= i < |moves| :: !moves[i].Begin?
    ensures Stamped(c, Run(c, p, moves), now)
    ensures !Run(c, p, moves).stage.ToJudge? && !Run(c, p, moves).stage.ToSentence?
    decreases |moves|
  {
    if moves != [] {
      var n := |moves| - 1;
      RunSnoc(c, p, moves);
      NeverJudgedInItsPass(c, p, moves[..n], now);
      hide Do;
      StampedStep(c, Run(c, p, moves[..n]), moves[n], now);
    }
  }
}
