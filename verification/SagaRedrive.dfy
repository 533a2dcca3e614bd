/**
 Re-driving stuck match-completion sagas. A pass lists a row, executes the saga again under a
 fresh record, and writes the listed copy of the row back with its retry count bumped or used
 up. Other writers do the same with copies of their own: the process that created the row, if
 it is not dead after all, and other passes. And a fresh execution retires a stale live
 row that stands in its way, be it for this row or for anything else that completes the match.
 One row; a schedule interleaves all of them.
*/
module SagaRedrive {
  import opened Options
  import Schedules
  import opened Collections

  type CallId = nat

  datatype Status = Pending | Running | Paused | Completed | Failed | Compensating | Compensated

  predicate Terminal(status: Status) {
    status.Completed? || status.Failed? || status.Compensated?
  }

  /** `standings` says whether the step history records `standings_updated: true`. */
  datatype Row = Row(
    status: Status,
    retries: nat,
    max: nat,
    standings: bool,
    readable: bool,
    claim: bool,
    createdAt: int,
    startedAt: Option<int>)

  /** What an operator can see of a row that will not be tried again. */
  datatype Trace = Succeeded | AwaitsReview | StallRaised | ReviewExists | StallLogged | UnreadableLogged

  datatype Outcome = Success | PausedForReview | Error

  /** What raising a stall for a claimed match meets. */
  datatype Review = Raised | AlreadyThere | CreateFailed

  /** A candidate between two calls of its pass, with its copy of the row. */
  datatype Stage =
    | Listed(x: Row)
    | Ran(x: Row, outcome: Outcome)   // executed; the write is still to come
    | Retiring(x: Row)                // not to be executed; the write is still to come
    | Written(x: Row)                 // the bump landed or was lost; a stall may be due
    | Finished

  /** The row, the copy its own process works on, and the candidates under way. Beside them, and
      in no column: the executions, those whose write never came, retries undone by a write or
      used up without an execution, the executed candidates still to write, the traces left. */
  datatype State = State(
    row: Row,
    owner: Option<Row>,
    calls: map<CallId, Stage>,
    executions: nat,
    lost: nat,
    putBack: nat,
    burned: nat,
    pending: set<CallId>,
    traces: set<Trace>)

  /** The query: retries left, and failed or stale. */
  predicate Retryable(x: Row, stuckSince: int) {
    && x.retries < x.max
    && (|| x.status.Failed?
        || (x.status.Running? && x.startedAt.Some? && x.startedAt.value < stuckSince)
        || (x.status.Pending? && x.createdAt < stuckSince))
  }

  /** The query can list the row once it is old enough. */
  predicate Listable(x: Row) {
    x.retries < x.max && (x.status.Failed? || x.status.Pending? || (x.status.Running? && x.startedAt.Some?))
  }

  /** In the unique index: at most one such row for a match. */
  predicate Live(x: Row) {
    x.status.Pending? || x.status.Running?
  }

  predicate Executes(x: Row) {
    x.readable && !x.standings
  }

  /** Use up the retries and leave the live set. */
  function Exhausted(x: Row): Row {
    x.(retries := x.max, status := if Terminal(x.status) then x.status else Failed)
  }

  function Bumped(x: Row): Row {
    x.(retries := x.retries + 1)
  }

  /** `retire_stale_live_saga`, on the row as it stands. */
  function Retired(x: Row): Row {
    x.(retries := x.max, status := Failed)
  }

  function WrittenBack(x: Row, outcome: Outcome): Row {
    if outcome.Error? then Bumped(x) else Exhausted(x)
  }

  function Stall(x: Row, review: Review): Trace {
    if !x.claim then StallLogged
    else match review
         case Raised => StallRaised
         case AlreadyThere => ReviewExists
         case CreateFailed => StallLogged
  }

  // ---------------------------------------------------------------- single steps

  datatype Action =
    | List(c: CallId, stuckSince: int)
    | Begin(c: CallId, outcome: Outcome, staleBefore: int, review: Review)
    | WriteBack(c: CallId, lands: bool)
    | Report(c: CallId, review: Review)
    | Crash(c: CallId)
    | Supersede(staleBefore: int)    // another completion of the match retires the row
    | OwnerStep(standings: bool)     // complete_step
    | OwnerFailsStep                 // fail_step: the run ends next
    | OwnerEnds(status: Status)      // complete_saga, fail_saga, pause_saga
    | OwnerDies

  function At(s: State, c: CallId, stage: Stage): State {
    s.(calls := s.calls[c := stage])
  }

  predicate Idle(s: State) {
    forall c | c in s.calls :: s.calls[c].Finished?
  }

  function Less(a: nat, b: nat): nat {
    if a < b then b - a else 0
  }

  function DoList(s: State, c: CallId, stuckSince: int): State {
    if (c in s.calls && !s.calls[c].Finished?) || !Retryable(s.row, stuckSince) then s else At(s, c, Listed(s.row))
  }

  /** An unreadable row is logged, an applied one raises a stall. Any other is executed: a live
      row that is stale is retired on the way, one that is not makes the execution fail. */
  function DoBegin(s: State, c: CallId, outcome: Outcome, staleBefore: int, review: Review): State {
    if !(c in s.calls && s.calls[c].Listed?) then s
    else
      var x := s.calls[c].x;
      if !x.readable then At(s, c, Retiring(x)).(traces := s.traces + {UnreadableLogged})
      else if x.standings then At(s, c, Retiring(x)).(traces := s.traces + {Stall(x, review)})
      else
        var refused := Live(s.row) && s.row.createdAt >= staleBefore;
        var retires := Live(s.row) && s.row.createdAt < staleBefore;
        var result := if refused then Error else outcome;
        At(s, c, Ran(x, result)).(
          executions := s.executions + 1,
          pending := s.pending + {c},
          row := if retires then Retired(s.row) else s.row,
          burned := s.burned + if retires then Less(s.row.retries, s.row.max) else 0,
          traces := s.traces + if result.Success? then {Succeeded}
              else if result.PausedForReview? then {AwaitsReview} else {})
  }

  /** Some other completion of the match starts: a confirmation, or the re-drive of a sibling. */
  function DoSupersede(s: State, staleBefore: int): State {
    if Live(s.row) && s.row.createdAt < staleBefore
    then s.(row := Retired(s.row), burned := s.burned + Less(s.row.retries, s.row.max)) else s
  }

  /** The listed copy goes back over whatever the row is by now. */
  function DoWriteBack(s: State, c: CallId, lands: bool): State {
    if !(c in s.calls && (s.calls[c].Ran? || s.calls[c].Retiring?)) then s
    else
      var x, ran := s.calls[c].x, s.calls[c].Ran?;
      var y := if ran then WrittenBack(x, s.calls[c].outcome) else Exhausted(x);
      var paid := s.row.retries + if ran then 1 else 0;
      var t := At(s, c, if ran && s.calls[c].outcome.Error? then Written(x) else Finished).(pending := s.pending - {c});
      if !lands then t.(lost := s.lost + if ran then 1 else 0)
      else t.(row := y, putBack := s.putBack + Less(y.retries, paid), burned := s.burned + Less(paid, y.retries))
  }

  /** The pass counts on its own copy: if that was the last retry, the give-up is reported. */
  function DoReport(s: State, c: CallId, review: Review): State {
    if !(c in s.calls && s.calls[c].Written?) then s
    else
      var x := s.calls[c].x;
      At(s, c, Finished).(traces := s.traces + if x.retries + 1 >= x.max then {Stall(x, review)} else {})
  }

  function DoCrash(s: State, c: CallId): State {
    if c !in s.calls then s
    else At(s, c, Finished).(pending := s.pending - {c}, lost := s.lost + if s.calls[c].Ran? then 1 else 0)
  }

  /** The owner changes its copy and writes all of it, retry count included. */
  function OwnerWrites(s: State, y: Row, gone: bool): State {
    s.(row := y, owner := if gone then None else Some(y),
       putBack := s.putBack + Less(y.retries, s.row.retries),
       burned := s.burned + Less(s.row.retries, y.retries))
  }

  function DoOwner(s: State, a: Action): State
    requires a.OwnerStep? || a.OwnerFailsStep? || a.OwnerEnds? || a.OwnerDies?
  {
    if s.owner.None? then s
    else
      var o := s.owner.value;
      match a
      case OwnerStep(standings) => OwnerWrites(s, o.(retries := 0, standings := o.standings || standings), false)
      case OwnerFailsStep => if o.retries == 0 < o.max then OwnerWrites(s, o.(retries := 1), false) else s
      case OwnerEnds(status) =>
        if Terminal(status) || status.Paused? then OwnerWrites(s, o.(status := status), true) else s
      case OwnerDies => s.(owner := None)
  }

  function Do(s: State, a: Action): State {
    match a
    case List(c, stuckSince) => DoList(s, c, stuckSince)
    case Begin(c, outcome, staleBefore, review) => DoBegin(s, c, outcome, staleBefore, review)
    case WriteBack(c, lands) => DoWriteBack(s, c, lands)
    case Report(c, review) => DoReport(s, c, review)
    case Crash(c) => DoCrash(s, c)
    case Supersede(staleBefore) => DoSupersede(s, staleBefore)
    case _ => DoOwner(s, a)
  }

  function Run(s: State, actions: seq<Action>): State {
    Schedules.Fold(Do, s, actions)
  }

  /** A row as its own process leaves it to the passes, or still works on it. */
  function Fresh(x: Row, alive: bool): State {
    State(x, if alive then Some(x) else None, map[], 0, 0, 0, 0, {}, {})
  }

  // ---------------------------------------------------------------- what every copy keeps

  predicate SameSaga(x: Row, y: Row) {
    x.max == y.max && x.readable == y.readable && x.claim == y.claim && x.createdAt == y.createdAt
  }

  ghost predicate Inv(s: State) {
    && s.row.retries <= s.row.max
    && (s.owner.Some? ==> SameSaga(s.owner.value, s.row) && s.owner.value.retries <= s.row.max
                          && s.owner.value.status.Running? && s.owner.value.startedAt.Some?)
    && (forall c | c in s.calls && !s.calls[c].Finished? :: SameSaga(s.calls[c].x, s.row) && Listable(s.calls[c].x))
    && (forall c | c in s.calls && s.calls[c].Ran? :: Executes(s.calls[c].x))
    && (forall c | c in s.calls && s.calls[c].Written? :: Executes(s.calls[c].x))
    && (forall c :: c in s.pending <==> c in s.calls && s.calls[c].Ran?)
  }

  lemma ListKeepsInv(s: State, c: CallId, stuckSince: int)
    requires Inv(s)
    ensures Inv(DoList(s, c, stuckSince))
  {
  }

  lemma BeginKeepsInv(s: State, c: CallId, outcome: Outcome, staleBefore: int, review: Review)
    requires Inv(s)
    ensures Inv(DoBegin(s, c, outcome, staleBefore, review)) &&
            SameSaga(DoBegin(s, c, outcome, staleBefore, review).row, s.row)
  {
  }

  lemma WriteBackKeepsInv(s: State, c: CallId, lands: bool)
    requires Inv(s)
    ensures Inv(DoWriteBack(s, c, lands)) && SameSaga(DoWriteBack(s, c, lands).row, s.row)
  {
  }

  lemma OwnerKeepsInv(s: State, a: Action)
    requires Inv(s) && (a.OwnerStep? || a.OwnerFailsStep? || a.OwnerEnds? || a.OwnerDies?)
    ensures Inv(DoOwner(s, a)) && SameSaga(DoOwner(s, a).row, s.row)
  {
  }

  lemma SupersedeKeepsInv(s: State, staleBefore: int)
    requires Inv(s)
    ensures Inv(DoSupersede(s, staleBefore)) && SameSaga(DoSupersede(s, staleBefore).row, s.row)
  {
  }

  lemma EndKeepsInv(s: State, c: CallId, review: Review)
    requires Inv(s)
    ensures Inv(DoReport(s, c, review)) && Inv(DoCrash(s, c))
  {
  }

  lemma DoKeepsInv(s: State, a: Action)
    requires Inv(s)
    ensures Inv(Do(s, a)) && SameSaga(Do(s, a).row, s.row)
  {
    match a
    case List(c, stuckSince) => ListKeepsInv(s, c, stuckSince);
    case Begin(c, outcome, staleBefore, review) => BeginKeepsInv(s, c, outcome, staleBefore, review);
    case WriteBack(c, lands) => WriteBackKeepsInv(s, c, lands);
    case Report(c, review) => EndKeepsInv(s, c, review);
    case Crash(c) => EndKeepsInv(s, c, Raised);
    case Supersede(staleBefore) => SupersedeKeepsInv(s, staleBefore);
    case _ => OwnerKeepsInv(s, a);
  }

  lemma {:induction false} RunKeepsInv(s: State, actions: seq<Action>)
    requires Inv(s)
    ensures Inv(Run(s, actions)) && SameSaga(Run(s, actions).row, s.row)
    decreases |actions|
  {
    if actions != [] {
      RunKeepsInv(s, actions[..|actions| - 1]);
      DoKeepsInv(Run(s, actions[..|actions| - 1]), actions[|actions| - 1]);
    }
  }

  // ---------------------------------------------------------------- the ledger

  predicate Balanced(s: State) {
    s.executions + s.burned == s.row.retries + |s.pending| + s.lost + s.putBack
  }

  lemma BeginKeepsBalance(s: State, c: CallId, outcome: Outcome, staleBefore: int, review: Review)
    requires Inv(s) && Balanced(s)
    ensures Balanced(DoBegin(s, c, outcome, staleBefore, review))
  {
    if c in s.calls && s.calls[c].Listed? {
      assert c !in s.pending && s.row.retries <= s.row.max;
      hide Inv, Retryable;
      Uncount(s.pending + {c}, c);
      assert s.pending + {c} - {c} == s.pending;
    }
  }

  lemma WriteBackKeepsBalance(s: State, c: CallId, lands: bool)
    requires Inv(s) && Balanced(s)
    ensures Balanced(DoWriteBack(s, c, lands))
  {
    Uncount(s.pending, c);
    assert c in s.pending <==> c in s.calls && s.calls[c].Ran?;
    hide Inv;
  }

  lemma DoKeepsBalance(s: State, a: Action)
    requires Inv(s) && Balanced(s)
    ensures Balanced(Do(s, a))
  {
    match a
    case List(_, _) => hide Inv;
    case Begin(c, outcome, staleBefore, review) => BeginKeepsBalance(s, c, outcome, staleBefore, review);
    case WriteBack(c, lands) => WriteBackKeepsBalance(s, c, lands);
    case Report(_, _) => hide Inv;
    case Crash(c) => CrashKeepsBalance(s, c);
    case Supersede(_) =>
    case _ => OwnerKeepsBalance(s, a);
  }

  lemma CrashKeepsBalance(s: State, c: CallId)
    requires Inv(s) && Balanced(s)
    ensures Balanced(DoCrash(s, c))
  {
    Uncount(s.pending, c);
    assert c in s.pending <==> c in s.calls && s.calls[c].Ran?;
    hide Inv;
  }

  lemma OwnerKeepsBalance(s: State, a: Action)
    requires Balanced(s) && (a.OwnerStep? || a.OwnerFailsStep? || a.OwnerEnds? || a.OwnerDies?)
    ensures Balanced(DoOwner(s, a))
  {
  }

  lemma Uncount(s: set<CallId>, c: CallId)
    ensures |s - {c}| == |s| - if c in s then 1 else 0
  {
    if c !in s {
      assert s - {c} == s;
    }
  }

  /** Over any schedule of passes, owners, other completions and deaths, every execution is accounted for: by a
      retry of the row, a write still to come or never made, or a write that put retries back,
      less the retries used up without an execution. So a row is executed at most `max` times,
      plus the lost and pending writes and what was put back. */
  lemma {:induction false} ExecutionsBounded(s: State, actions: seq<Action>)
    requires Inv(s) && Balanced(s)
    ensures var r := Run(s, actions);
            && Balanced(r)
            && r.executions + r.burned <= s.row.max + |r.pending| + r.lost + r.putBack
    decreases |actions|
  {
    RunKeepsInv(s, actions);
    if actions != [] {
      ExecutionsBounded(s, actions[..|actions| - 1]);
      RunKeepsInv(s, actions[..|actions| - 1]);
      DoKeepsBalance(Run(s, actions[..|actions| - 1]), actions[|actions| - 1]);
    }
  }

  // ---------------------------------------------------------------- kinds of schedules

  /** Every step is permitted where it is taken. */
  ghost predicate Obeys(s: State, actions: seq<Action>, permitted: (State, Action) -> bool)
    decreases |actions|
  {
    actions == [] ||
    (Obeys(s, actions[..|actions| - 1], permitted) &&
     permitted(Run(s, actions[..|actions| - 1]), actions[|actions| - 1]))
  }

  lemma {:induction false} ObeysConcat(s: State, a: seq<Action>, b: seq<Action>, permitted: (State, Action) -> bool)
    requires Obeys(s, a, permitted) && Obeys(Run(s, a), b, permitted)
    ensures Obeys(s, a + b, permitted) && Run(s, a + b) == Run(Run(s, a), b)
    decreases |b|
  {
    Schedules.FoldConcat(Do, s, a, b);
    if b == [] {
      assert a + b == a;
    } else {
      var n := |b| - 1;
      assert (a + b)[..|a + b| - 1] == a + b[..n];
      ObeysConcat(s, a, b[..n], permitted);
    }
  }

  lemma ObeysOne(s: State, a: Action, permitted: (State, Action) -> bool)
    requires permitted(s, a)
    ensures Obeys(s, [a], permitted) && Run(s, [a]) == Do(s, a)
  {
    Schedules.FoldOne(Do, s, a);
    assert [a][..0] == [];
    assert Obeys(s, [], permitted);
  }

  lemma ObeysThen(s: State, actions: seq<Action>, a: Action, permitted: (State, Action) -> bool)
    requires Obeys(s, actions, permitted) && permitted(Run(s, actions), a)
    ensures Obeys(s, actions + [a], permitted) && Run(s, actions + [a]) == Do(Run(s, actions), a)
  {
    ObeysOne(Run(s, actions), a, permitted);
    ObeysConcat(s, actions, [a], permitted);
  }

  lemma ObeysFour(s: State, a: Action, b: Action, d: Action, e: Action, permitted: (State, Action) -> bool)
    requires permitted(s, a) && permitted(Do(s, a), b) && permitted(Do(Do(s, a), b), d) &&
             permitted(Do(Do(Do(s, a), b), d), e)
    ensures Obeys(s, [a, b, d, e], permitted) && Run(s, [a, b, d, e]) == Do(Do(Do(Do(s, a), b), d), e)
  {
    hide Do;
    ObeysOne(s, a, permitted);
    ObeysThen(s, [a], b, permitted);
    ObeysThen(s, [a] + [b], d, permitted);
    ObeysThen(s, [a] + [b] + [d], e, permitted);
    assert [a] + [b] + [d] + [e] == [a, b, d, e];
  }

  /** A pass takes its candidates one after the other: listed, executed, written, reported. */
  predicate InTurn(s: State, a: Action) {
    a.List? ==> Idle(s)
  }

  /** In turn, and passes may lose a write but do not die. */
  predicate Surviving(s: State, a: Action) {
    InTurn(s, a) && !a.Crash?
  }

  /** And nothing else completes the match. */
  predicate Alone(s: State, a: Action) {
    Surviving(s, a) && !a.Supersede?
  }

  /** In turn, no pass dies and every write lands. */
  predicate Lossless(s: State, a: Action) {
    Surviving(s, a) && (a.WriteBack? ==> a.lands)
  }

  function Late(x: Row): int {
    (if x.startedAt.Some? && x.startedAt.value > x.createdAt then x.startedAt.value else x.createdAt) + 1
  }

  predicate OneCandidate(s: State, c: CallId) {
    forall d | d in s.calls && d != c :: s.calls[d].Finished?
  }

  // ---------------------------------------------------------------- the retry bound, exactly

  /** However the lossless passes, other completions and the row's owner interleave, the row is executed at most
      `max` times. */
  ghost predicate NeverOverExecuted(s: State) {
    forall actions | Obeys(s, actions, Lossless) :: Run(s, actions).executions <= s.row.max
  }

  /** With the owner gone the count of the row covers its executions, wherever the candidate is. */
  ghost predicate Covered(s: State, c: CallId) {
    && s.owner.None? && OneCandidate(s, c)
    && (if c !in s.calls || s.calls[c].Finished? || s.calls[c].Written? then s.executions <= s.row.retries
        else if s.calls[c].Ran? then s.executions <= s.calls[c].x.retries + 1
        else s.executions <= s.calls[c].x.retries)
  }

  lemma CoveredStep(s: State, c: CallId, a: Action) returns (d: CallId)
    requires Inv(s) && Covered(s, c) && Lossless(s, a)
    ensures Covered(Do(s, a), d)
  {
    d := if a.List? then a.c else c;
    match a
    case List(_, _) =>
    case Begin(_, _, _, _) =>
    case WriteBack(_, _) =>
    case Report(_, _) =>
    case _ =>
  }

  lemma {:induction false} CoveredRun(s: State, c: CallId, actions: seq<Action>) returns (d: CallId)
    requires Inv(s) && Covered(s, c) && Obeys(s, actions, Lossless)
    ensures Covered(Run(s, actions), d)
    decreases |actions|
  {
    if actions == [] {
      d := c;
    } else {
      var n := |actions| - 1;
      d := CoveredRun(s, c, actions[..n]);
      RunKeepsInv(s, actions[..n]);
      d := CoveredStep(Run(s, actions[..n]), d, actions[n]);
    }
  }

  /** One re-drive that fails, from listing to report. */
  lemma FailOnce(s: State) returns (actions: seq<Action>)
    requires Inv(s) && Idle(s) && Listable(s.row) && Executes(s.row)
    ensures Obeys(s, actions, Lossless)
    ensures var r := Run(s, actions);
            && Idle(r) && r.executions == s.executions + 1 && r.row == Bumped(s.row) && r.owner == s.owner
            && (s.row.retries + 1 < s.row.max ==> r.traces == s.traces)
  {
    var x := s.row;
    var a, b := List(0, Late(x)), Begin(0, Error, Late(x), Raised);
    var d, e := WriteBack(0, true), Report(0, Raised);
    FailedOnce(s, Do(s, a), Do(Do(s, a), b), Do(Do(Do(s, a), b), d));
    ObeysFour(s, a, b, d, e, Lossless);
    actions := [a, b, d, e];
  }

  lemma FailedOnce(s: State, s1: State, s2: State, s3: State)
    requires Inv(s) && Idle(s) && Listable(s.row) && Executes(s.row)
    requires s1 == Do(s, List(0, Late(s.row))) && s2 == Do(s1, Begin(0, Error, Late(s.row), Raised))
    requires s3 == Do(s2, WriteBack(0, true))
    ensures var r := Do(s3, Report(0, Raised));
            && Idle(r) && r.executions == s.executions + 1 && r.row == Bumped(s.row) && r.owner == s.owner
            && (s.row.retries + 1 < s.row.max ==> r.traces == s.traces)
  {
    assert s2.traces == s.traces + {} == s.traces;
    assert s1.calls[0] == Listed(s.row);
    assert s2.calls[0] == Ran(s.row, Error);
    assert s3.calls[0] == Written(s.row) && s3.row == Bumped(s.row);
  }

  lemma {:induction false} FailMany(s: State, n: nat) returns (actions: seq<Action>)
    requires Inv(s) && Idle(s) && Executes(s.row) && s.row.retries + n <= s.row.max && (n > 0 ==> Listable(s.row))
    ensures Obeys(s, actions, Lossless)
    ensures var r := Run(s, actions);
            && Idle(r) && r.executions == s.executions + n && r.row == s.row.(retries := s.row.retries + n) &&
               r.owner == s.owner
            && (s.row.retries + n < s.row.max ==> r.traces == s.traces)
    decreases n
  {
    if n == 0 {
      actions := [];
    } else {
      var first := FailOnce(s);
      RunKeepsInv(s, first);
      var rest := FailMany(Run(s, first), n - 1);
      ObeysConcat(s, first, rest, Lossless);
      actions := first + rest;
    }
  }

  /** The bound holds of every lossless schedule if and only if the row's own process is gone.
      A slow one writes its own retry count back, and the row is executed again from there. */
  lemma RetryBoundExactly(s: State)
    requires Inv(s) && Idle(s) && s.executions == 0 && Executes(s.row) && Listable(s.row)
    requires s.owner.Some? ==> s.owner.value == s.row
    ensures NeverOverExecuted(s) <==> s.owner.None?
  {
    if s.owner.None? {
      forall actions | Obeys(s, actions, Lossless) ensures Run(s, actions).executions <= s.row.max {
        var d := CoveredRun(s, 0, actions);
        RunKeepsInv(s, actions);
      }
    } else {
      var actions := OwnerPutsBack(s);
    }
  }

  /** One failing re-drive, one step of the owner, and the row has all its retries again. */
  lemma OwnerPutsBack(s: State) returns (actions: seq<Action>)
    requires Inv(s) && Idle(s) && s.executions == 0 && Executes(s.row) && Listable(s.row) && s.owner == Some(s.row)
    ensures Obeys(s, actions, Lossless) && Run(s, actions).executions == s.row.max + 1
  {
    var first := FailOnce(s);
    var r := Run(s, first);
    RunKeepsInv(s, first);
    ObeysThen(s, first, OwnerStep(false), Lossless);
    var back := Do(r, OwnerStep(false));
    DoKeepsInv(r, OwnerStep(false));
    assert back.row == s.row.(retries := 0) && Idle(back) && back.executions == 1;
    var rest := FailMany(back, s.row.max);
    ObeysConcat(s, first + [OwnerStep(false)], rest, Lossless);
    actions := first + [OwnerStep(false)] + rest;
  }

  // ---------------------------------------------------------------- giving up in silence

  /** Out of the pool with nobody told, and no candidate under way that could still tell. */
  predicate Silent(s: State) {
    Idle(s) && s.row.retries >= s.row.max && s.traces == {}
  }

  ghost predicate NeverSilent(s: State, permitted: (State, Action) -> bool) {
    forall actions | Obeys(s, actions, permitted) :: !Silent(Run(s, actions))
  }

  /** A re-drive of this row, alone, cannot be silenced by a lost write: the row is not executed, is not
      retired when it is, is on its last retry, or is never listed. */
  predicate Steady(x: Row) {
    !Executes(x) || !Live(x) || x.retries + 1 >= x.max || !Listable(x)
  }

  /** Something is told, or will be. */
  predicate Accounted(s: State, c: CallId) {
    s.traces != {} ||
    (&& s.owner.None? && OneCandidate(s, c)
     && (if c !in s.calls || s.calls[c].Finished? then s.row.retries < s.row.max && Steady(s.row)
         else match s.calls[c]
              case Listed(x) => s.row == x && x.retries < x.max && Steady(x) && Listable(x)
              case Ran(x, outcome) =>
                && outcome.Error? && Executes(x) && Listable(x) && Steady(x)
                && (s.row == x || (s.row == Retired(x) && Live(x)))
              case Written(x) => x.retries + 1 >= x.max || (s.row.retries < s.row.max && Steady(s.row))
              case _ => false))
  }

  lemma AccountedStep(s: State, c: CallId, a: Action) returns (d: CallId)
    requires Inv(s) && Accounted(s, c) && Alone(s, a)
    ensures Accounted(Do(s, a), d)
  {
    d := if a.List? then a.c else c;
    if s.traces == {} {
      match a
      case List(_, _) =>
      case Begin(_, _, _, _) => AccountedBegin(s, c, a);
      case WriteBack(_, _) => AccountedWrite(s, c, a);
      case Report(_, _) =>
      case _ =>
    }
  }

  lemma AccountedBegin(s: State, c: CallId, a: Action)
    requires Inv(s) && Accounted(s, c) && a.Begin?
    ensures Accounted(Do(s, a), c)
  {
    assert a.c in s.calls && s.calls[a.c].Listed? ==> s.traces != {} || a.c == c;
  }

  lemma AccountedWrite(s: State, c: CallId, a: Action)
    requires Inv(s) && Accounted(s, c) && a.WriteBack?
    ensures Accounted(Do(s, a), c)
  {
    assert a.c in s.calls && !s.calls[a.c].Finished? ==> s.traces != {} || a.c == c;
  }

  lemma {:induction false} AccountedRun(s: State, c: CallId, actions: seq<Action>) returns (d: CallId)
    requires Inv(s) && Accounted(s, c) && Obeys(s, actions, Alone)
    ensures Accounted(Run(s, actions), d)
    decreases |actions|
  {
    if actions == [] {
      d := c;
    } else {
      var n := |actions| - 1;
      d := AccountedRun(s, c, actions[..n]);
      RunKeepsInv(s, actions[..n]);
      d := AccountedStep(Run(s, actions[..n]), d, actions[n]);
    }
  }

  lemma {:induction false} Weaker(s: State, actions: seq<Action>)
    ensures Obeys(s, actions, Lossless) ==> Obeys(s, actions, Surviving)
    ensures Obeys(s, actions, Alone) ==> Obeys(s, actions, Surviving)
    ensures Obeys(s, actions, Surviving) ==> Obeys(s, actions, InTurn)
  {
    if actions != [] {
      Weaker(s, actions[..|actions| - 1]);
    }
  }

  /** The fresh execution retires the row, its failure is not the last by the copy's count, and
      the write that would have put the row back is lost. */
  lemma RetiredInSilence(s: State) returns (actions: seq<Action>)
    requires Inv(s) && Idle(s) && s.traces == {} && s.row.retries < s.row.max && !Steady(s.row)
    ensures Obeys(s, actions, Alone) && Silent(Run(s, actions))
  {
    var x := s.row;
    var a, b := List(0, Late(x)), Begin(0, Error, Late(x), Raised);
    var d, e := WriteBack(0, false), Report(0, Raised);
    RetiredUnseen(s, Do(s, a), Do(Do(s, a), b), Do(Do(Do(s, a), b), d));
    ObeysFour(s, a, b, d, e, Alone);
    actions := [a, b, d, e];
  }

  lemma RetiredUnseen(s: State, s1: State, s2: State, s3: State)
    requires Inv(s) && Idle(s) && s.traces == {} && s.row.retries < s.row.max && !Steady(s.row)
    requires s1 == Do(s, List(0, Late(s.row))) && s2 == Do(s1, Begin(0, Error, Late(s.row), Raised)) &&
             s3 == Do(s2, WriteBack(0, false))
    ensures Silent(Do(s3, Report(0, Raised)))
  {
    assert s1.calls[0] == Listed(s.row);
    assert s2.calls[0] == Ran(s.row, Error) && s2.row == Retired(s.row) && s2.traces == {} + {};
    assert s3.calls[0] == Written(s.row) && s3.row == Retired(s.row);
  }

  /** Passes that do not die, whose writes may be lost, and nothing else that completes the match:
      no such schedule gives the row up in silence if and only if the row is steady. */
  lemma NoSilentGiveUpAlone(s: State)
    requires Inv(s) && Idle(s) && s.owner.None? && s.traces == {} && s.row.retries < s.row.max
    ensures NeverSilent(s, Alone) <==> Steady(s.row)
  {
    if Steady(s.row) {
      forall actions | Obeys(s, actions, Alone) ensures !Silent(Run(s, actions)) {
        var d := AccountedRun(s, 0, actions);
      }
    } else {
      var actions := RetiredInSilence(s);
    }
  }

  /** Neither the row nor any copy of it is in the live set, and none will be. */
  ghost predicate Unretirable(s: State) {
    s.owner.None? && !Live(s.row) && forall c | c in s.calls && !s.calls[c].Finished? :: !Live(s.calls[c].x)
  }

  lemma UnretirableStep(s: State, a: Action)
    requires Unretirable(s)
    ensures Unretirable(Do(s, a)) && (a.Supersede? ==> Do(s, a) == s)
  {
    match a
    case Begin(c, _, _, _) => assert c in s.calls && s.calls[c].Listed? ==> !Live(s.calls[c].x);
    case WriteBack(c, _) => assert c in s.calls && !s.calls[c].Finished? ==> !Live(s.calls[c].x);
    case _ =>
  }

  lemma {:induction false} AccountedOffTheRow(s: State, c: CallId, actions: seq<Action>) returns (d: CallId)
    requires Inv(s) && Unretirable(s) && Accounted(s, c) && Obeys(s, actions, Surviving)
    ensures Unretirable(Run(s, actions)) && Accounted(Run(s, actions), d)
    decreases |actions|
  {
    if actions == [] {
      d := c;
    } else {
      var n := |actions| - 1;
      d := AccountedOffTheRow(s, c, actions[..n]);
      RunKeepsInv(s, actions[..n]);
      UnretirableStep(Run(s, actions[..n]), actions[n]);
      if !actions[n].Supersede? {
        d := AccountedStep(Run(s, actions[..n]), d, actions[n]);
      }
    }
  }

  /** A live row that is not executed, or not even listed yet, is retired by the next completion
      of its match, and nobody is told. */
  lemma SupersededInSilence(s: State) returns (actions: seq<Action>)
    requires Idle(s) && s.traces == {} && Live(s.row)
    ensures Obeys(s, actions, Surviving) && Silent(Run(s, actions))
  {
    var a := Supersede(s.row.createdAt + 1);
    ObeysOne(s, a, Surviving);
    actions := [a];
  }

  /** With everything else that completes the match in the schedule, the row is never given up in
      silence by passes that do not die, if and only if it is not live. */
  lemma NoSilentGiveUp(s: State)
    requires Inv(s) && Idle(s) && s.owner.None? && s.traces == {} && s.row.retries < s.row.max
    ensures NeverSilent(s, Surviving) <==> !Live(s.row)
  {
    if Live(s.row) {
      var actions := SupersededInSilence(s);
    } else {
      forall actions | Obeys(s, actions, Surviving) ensures !Silent(Run(s, actions)) {
        var d := AccountedOffTheRow(s, 0, actions);
      }
    }
  }

  /** The last bump lands and the pass dies before it reports. */
  lemma DiesBeforeReport(s: State) returns (actions: seq<Action>)
    requires Inv(s) && Idle(s) && s.traces == {} && Listable(s.row) && Executes(s.row) && s.row.retries + 1 == s.row.max
    ensures Obeys(s, actions, InTurn) && Silent(Run(s, actions))
  {
    var x := s.row;
    var a, b := List(0, Late(x)), Begin(0, Error, Late(x), Raised);
    var d, e := WriteBack(0, true), Crash(0);
    DiedUnseen(s, Do(s, a), Do(Do(s, a), b), Do(Do(Do(s, a), b), d));
    ObeysFour(s, a, b, d, e, InTurn);
    actions := [a, b, d, e];
  }

  lemma DiedUnseen(s: State, s1: State, s2: State, s3: State)
    requires Inv(s) && Idle(s) && s.traces == {} && Listable(s.row) && Executes(s.row) && s.row.retries + 1 == s.row.max
    requires s1 == Do(s, List(0, Late(s.row))) && s2 == Do(s1, Begin(0, Error, Late(s.row), Raised)) &&
             s3 == Do(s2, WriteBack(0, true))
    ensures Silent(Do(s3, Crash(0)))
  {
    assert s1.calls[0] == Listed(s.row);
    assert s2.calls[0] == Ran(s.row, Error) && s2.traces == {} + {};
    assert s3.calls[0] == Written(s.row) && s3.row == Bumped(s.row);
  }

  /** Until a candidate that is never executed begins, nothing happens to its row. */
  predicate Untouched(s: State) {
    s.traces != {} ||
    (&& s.owner.None? && s.row.retries < s.row.max && (!Executes(s.row) || !Listable(s.row))
     && (forall c | c in s.calls :: s.calls[c].Finished? || (s.calls[c] == Listed(s.row) && Listable(s.row))))
  }

  lemma {:induction false} UntouchedRun(s: State, actions: seq<Action>)
    requires Untouched(s) && Unretirable(s)
    ensures Untouched(Run(s, actions)) && Unretirable(Run(s, actions))
    decreases |actions|
  {
    if actions != [] {
      UntouchedRun(s, actions[..|actions| - 1]);
      UntouchedStep(Run(s, actions[..|actions| - 1]), actions[|actions| - 1]);
      UnretirableStep(Run(s, actions[..|actions| - 1]), actions[|actions| - 1]);
    }
  }

  lemma UntouchedStep(s: State, a: Action)
    requires Untouched(s) && Unretirable(s)
    ensures Untouched(Do(s, a))
  {
  }

  /** Passes that may die as well: then the only safe rows are those that are not live and never
      executed: that cannot be read, are applied already, or are never listed. */
  lemma NoSilentDeath(s: State)
    requires Inv(s) && Idle(s) && s.owner.None? && s.traces == {} && s.row.retries < s.row.max
    ensures NeverSilent(s, InTurn) <==> !Live(s.row) && (!Executes(s.row) || !Listable(s.row))
  {
    if Live(s.row) {
      var actions := SupersededInSilence(s);
      Weaker(s, actions);
    } else if !Executes(s.row) || !Listable(s.row) {
      forall actions | Obeys(s, actions, InTurn) ensures !Silent(Run(s, actions)) {
        UntouchedRun(s, actions);
      }
    } else {
      var n := s.row.max - s.row.retries - 1;
      var first := FailMany(s, n);
      RunKeepsInv(s, first);
      Weaker(s, first);
      var rest := DiesBeforeReport(Run(s, first));
      ObeysConcat(s, first, rest, InTurn);
    }
  }

  // ---------------------------------------------------------------- applied standings

  /** No schedule at all executes the row again. */
  ghost predicate NeverExecutedAgain(s: State) {
    forall actions :: Run(s, actions).executions == s.executions
  }

  /** Nobody is about to execute an older copy, or to put one back that can be listed. */
  predicate Spent(call: Stage) {
    match call
    case Listed(x) => !Executes(x)
    case Ran(x, outcome) => outcome.Error? ==> x.retries + 1 >= x.max
    case _ => true
  }

  ghost predicate CopiesApplied(s: State) {
    && (s.owner.Some? ==> s.owner.value.standings)
    && (forall c | c in s.calls :: Spent(s.calls[c]))
  }

  lemma AppliedStep(s: State, a: Action)
    requires Inv(s) && CopiesApplied(s) && (!Executes(s.row) || s.row.retries >= s.row.max)
    ensures CopiesApplied(Do(s, a)) && Do(s, a).executions == s.executions
    ensures !Executes(Do(s, a).row) || Do(s, a).row.retries >= Do(s, a).row.max
  {
    match a
    case List(_, _) =>
    case Begin(c, _, _, _) => assert c in s.calls ==> Spent(s.calls[c]);
    case WriteBack(c, _) => assert c in s.calls ==> Spent(s.calls[c]);
    case Report(_, _) =>
    case Crash(_) =>
    case _ =>
  }

  lemma {:induction false} AppliedRun(s: State, actions: seq<Action>)
    requires Inv(s) && CopiesApplied(s) && (!Executes(s.row) || s.row.retries >= s.row.max)
    ensures var r := Run(s, actions);
            CopiesApplied(r) && r.executions == s.executions && (!Executes(r.row) || r.row.retries >= r.row.max)
    decreases |actions|
  {
    if actions != [] {
      AppliedRun(s, actions[..|actions| - 1]);
      RunKeepsInv(s, actions[..|actions| - 1]);
      AppliedStep(Run(s, actions[..|actions| - 1]), actions[|actions| - 1]);
    }
  }

  ghost predicate Executing(s: State, actions: seq<Action>) {
    Run(s, actions).executions > s.executions
  }

  lemma BeginsNow(s: State, c: CallId) returns (actions: seq<Action>)
    requires c in s.calls && s.calls[c].Listed? && Executes(s.calls[c].x)
    ensures Executing(s, actions)
  {
    actions := [Begin(c, Error, 0, Raised)];
    Schedules.FoldOne(Do, s, actions[0]);
  }

  lemma After(s: State, a: Action, actions: seq<Action>)
    requires Do(s, a).executions >= s.executions && Executing(Do(s, a), actions)
    ensures Executing(s, [a] + actions)
  {
    Schedules.FoldOne(Do, s, a);
    Schedules.FoldConcat(Do, s, [a], actions);
  }

  lemma ListsNow(s: State, c: CallId) returns (actions: seq<Action>)
    requires (c in s.calls ==> s.calls[c].Finished?) && Listable(s.row) && Executes(s.row)
    ensures Executing(s, actions)
  {
    var a := List(c, Late(s.row));
    assert Do(s, a).calls[c] == Listed(s.row);
    actions := BeginsNow(Do(s, a), c);
    After(s, a, actions);
    actions := [a] + actions;
  }

  lemma OldCopyReturns(s: State, c: CallId) returns (actions: seq<Action>)
    requires Inv(s) && c in s.calls && s.calls[c].Ran? && !Spent(s.calls[c])
    ensures Executing(s, actions)
  {
    var x := s.calls[c].x;
    var a, b := WriteBack(c, true), Report(c, Raised);
    var s1 := Do(s, a);
    assert s1.calls[c] == Written(x) && s1.row == Bumped(x);
    var s2 := Do(s1, b);
    assert s2.calls[c] == Finished && s2.row == Bumped(x) && Listable(s2.row) && Executes(s2.row);
    actions := ListsNow(s2, c);
    After(s1, b, actions);
    After(s, a, [b] + actions);
    actions := [a] + ([b] + actions);
  }

  /** Once the history of a row records applied standings, no schedule executes the row again
      if and only if no older copy is left: the owner's, a candidate's about to be executed, or
      one about to be written back with retries to spare. */
  lemma AppliedNeverExecutes(s: State)
    requires Inv(s) && s.row.standings && s.row.readable && s.row.max > 0
    ensures NeverExecutedAgain(s) <==> CopiesApplied(s)
  {
    if CopiesApplied(s) {
      forall actions ensures Run(s, actions).executions == s.executions {
        AppliedRun(s, actions);
      }
    } else {
      var actions: seq<Action>;
      if s.owner.Some? && !s.owner.value.standings {
        var c := Unused(s.calls.Keys);
        var back := Do(s, OwnerStep(false));
        actions := ListsNow(back, c);
        After(s, OwnerStep(false), actions);
        actions := [OwnerStep(false)] + actions;
      } else {
        var c :| c in s.calls && !Spent(s.calls[c]);
        if s.calls[c].Listed? {
          actions := BeginsNow(s, c);
        } else {
          actions := OldCopyReturns(s, c);
        }
      }
      assert Executing(s, actions);
    }
  }

  /** A process taken for dead that was only slow applies the standings while its row is being
      re-driven. The failing re-drive writes the old copy back, and the saga is executed again. */
  lemma SlowOwnerLosesItsRecord(x: Row) returns (before: seq<Action>, after: seq<Action>)
    requires Executes(x) && x.status.Running? && x.startedAt.Some? && x.retries + 1 < x.max
    ensures Run(Fresh(x, true), before).row.standings
    ensures Run(Fresh(x, true), before + after).executions == 2
  {
    var s := Fresh(x, true);
    var a, b := List(0, Late(x)), Begin(0, Error, Late(x), Raised);
    before := [a] + [b] + [OwnerStep(true)];
    Schedules.FoldOne(Do, s, a);
    Schedules.FoldSnoc(Do, s, [a], b);
    Schedules.FoldSnoc(Do, s, [a] + [b], OwnerStep(true));
    var s1 := Do(s, a);
    assert s1.calls == map[0 := Listed(x)];
    var s2 := Do(s1, b);
    assert s2.calls == map[0 := Ran(x, Error)];
    var s3 := Do(s2, OwnerStep(true));
    SlowTail(s3, x);
    after := [WriteBack(0, true), Report(0, Raised), List(0, Late(x)), Begin(0, Error, Late(x), Raised)];
    Schedules.FoldConcat(Do, s, before, after);
  }

  lemma SlowTail(s: State, x: Row)
    requires Executes(x) && x.status.Running? && x.startedAt.Some? && x.retries + 1 < x.max
    requires s.calls == map[0 := Ran(x, Error)] && s.executions == 1
    ensures Run(s, [WriteBack(0, true), Report(0, Raised), List(0, Late(x)),
                    Begin(0, Error, Late(x), Raised)]).executions == 2
  {
    var d, e, f, g := WriteBack(0, true), Report(0, Raised), List(0, Late(x)), Begin(0, Error, Late(x), Raised);
    Schedules.FoldOne(Do, s, d);
    Schedules.FoldSnoc(Do, s, [d], e);
    Schedules.FoldSnoc(Do, s, [d] + [e], f);
    Schedules.FoldSnoc(Do, s, [d] + [e] + [f], g);
    assert [d] + [e] + [f] + [g] == [d, e, f, g];
    var s1 := Do(s, d);
    assert s1.calls == map[0 := Written(x)] && s1.row == Bumped(x);
    var s2 := Do(s1, e);
    assert s2.calls == map[0 := Finished];
    var s3 := Do(s2, f);
    assert s3.calls == map[0 := Listed(Bumped(x))];
  }

  // ---------------------------------------------------------------- the pass

  /** What one candidate meets: the result of its execution, the age below which `create` calls
      a live row stale, the review it may raise, and whether its write lands. */
  datatype World = World(outcome: Outcome, staleBefore: int, review: Review, lands: bool)

  /** A listed candidate, undisturbed to its end. */
  function Attempted(s: State, c: CallId, w: World): State {
    Do(Do(Do(s, Begin(c, w.outcome, w.staleBefore, w.review)), WriteBack(c, w.lands)), Report(c, w.review))
  }

  /** An attempt whose write lands leaves strictly fewer retries than it was listed with; unless
      it failed, none, and a row out of the live set. */
  lemma AttemptsRunOut(s: State, c: CallId, w: World)
    requires Inv(s) && c in s.calls && s.calls[c] == Listed(s.row) && w.lands
    ensures var x, r := s.row, Attempted(s, c, w).row;
            && r.retries > x.retries
            && (r.retries == x.retries + 1 || (r.retries == x.max && !Live(r)))
            && (!Executes(x) || (!w.outcome.Error? && !(Live(x) && x.createdAt >= w.staleBefore)) ==>
                  r.retries == x.max && !Live(r))
  {
    var t := Do(s, Begin(c, w.outcome, w.staleBefore, w.review));
    assert t.calls[c].x == s.row;
  }

  /** The execution of a listed copy: not one that is unreadable or already applied; refused
      while another live row of the match is not stale. */
  predicate Refused(row: Row, w: World) {
    (row.status.Pending? || row.status.Running?) && row.createdAt >= w.staleBefore
  }

  predicate Fails(x: Row, row: Row, w: World) {
    x.readable && !x.standings && (Refused(row, w) || w.outcome.Error?)
  }

  predicate Succeeds(x: Row, row: Row, w: World) {
    x.readable && !x.standings && !Refused(row, w) && w.outcome.Success?
  }

  /** What the attempt leaves for the operator: nothing only if it failed with retries to spare. */
  function Left(x: Row, row: Row, w: World): set<Trace> {
    if !x.readable then {UnreadableLogged}
    else if x.standings || (Fails(x, row, w) && x.retries + 1 >= x.max) then
      {if !x.claim || w.review.CreateFailed? then StallLogged
       else if w.review.Raised? then StallRaised else ReviewExists}
    else if Fails(x, row, w) then {}
    else if w.outcome.Success? then {Succeeded} else {AwaitsReview}
  }

  /** The copy goes back with one retry more if its execution failed, and with none left and out
      of the live set if not; a lost write leaves the row as the execution found it, or retired. */
  ghost predicate AttemptTells(s: State, r: State, x: Row, c: CallId, w: World) {
    && r.calls == s.calls[c := Finished] && r.owner == s.owner
    && r.executions == s.executions + (if x.readable && !x.standings then 1 else 0)
    && (w.lands && Fails(x, s.row, w) ==> r.row == x.(retries := x.retries + 1))
    && (w.lands && !Fails(x, s.row, w) ==>
          && r.row == x.(retries := x.max, status := r.row.status)
          && r.row.status == if x.status.Completed? || x.status.Compensated? then x.status else Failed)
    && (!w.lands ==>
          r.row == if x.readable && !x.standings && Live(s.row) && !Refused(s.row, w)
                   then s.row.(retries := s.row.max, status := Failed) else s.row)
    && r.traces == s.traces + Left(x, s.row, w)
  }

  lemma AttemptedExactly(s: State, c: CallId, w: World)
    requires c in s.calls && s.calls[c].Listed?
    ensures AttemptTells(s, Attempted(s, c, w), s.calls[c].x, c, w)
  {
    var x := s.calls[c].x;
    var b := Do(s, Begin(c, w.outcome, w.staleBefore, w.review));
    if x.readable && !x.standings {
      Executed(s, c, w);
      var d := Do(b, WriteBack(c, w.lands));
      assert d.calls[c] == if Fails(x, s.row, w) then Written(x) else Finished;
      assert d.traces == b.traces;
      assert b.traces + {} == b.traces;
    } else {
      var d := Do(b, WriteBack(c, w.lands));
      assert d.calls[c] == Finished && d.calls == s.calls[c := Finished];
    }
  }

  lemma Executed(s: State, c: CallId, w: World)
    requires c in s.calls && s.calls[c].Listed? && s.calls[c].x.readable && !s.calls[c].x.standings
    ensures var x, b := s.calls[c].x, Do(s, Begin(c, w.outcome, w.staleBefore, w.review));
            && b.calls == s.calls[c := Ran(x, if Refused(s.row, w) then Error else w.outcome)]
            && b.traces == s.traces + (if Fails(x, s.row, w) then {} else Left(x, s.row, w))
  {
  }

  /** The row can be listed at some time if and only if it has retries left and is failed,
      pending, or running since a known time; while it is live, only once it is old enough. */
  lemma ListedExactly(x: Row, stuckSince: int)
    ensures Retryable(x, stuckSince) <==>
              && x.retries < x.max
              && !x.status.Completed? && !x.status.Compensated? && !x.status.Compensating? && !x.status.Paused?
              && (x.status.Running? ==> x.startedAt.Some? && x.startedAt.value + 1 <= stuckSince)
              && (x.status.Pending? ==> x.createdAt + 1 <= stuckSince)
    ensures Listable(x) <==> exists t :: Retryable(x, t)
  {
    if Listable(x) {
      assert Retryable(x, Late(x));
    }
  }

  /** What the process of the row itself writes: its own copy, all of it. A completed step takes
      the retries back to none, a failed one makes it one, an end keeps them and gives the copy
      up; and a death writes nothing. */
  lemma OwnerWritesItsCopy(s: State, a: Action)
    requires s.owner.Some? && (a.OwnerStep? || a.OwnerFailsStep? || a.OwnerEnds? || a.OwnerDies?)
    ensures var o, r := s.owner.value, Do(s, a);
            && r.calls == s.calls && r.traces == s.traces && r.executions == s.executions
            && (a.OwnerStep? ==> r.owner == Some(r.row) && r.row.retries == 0 &&
                                 (r.row.standings <==> o.standings || a.standings) && r.row.status == o.status)
            && (a.OwnerFailsStep? ==>
                  if o.retries == 0 && o.max > 0 then r.owner == Some(r.row) && r.row == o.(retries := 1) else r == s)
            && (a.OwnerEnds? ==>
                  if a.status.Completed? || a.status.Failed? || a.status.Compensated? || a.status.Paused?
                  then r.owner.None? && r.row == o.(status := a.status) else r == s)
            && (a.OwnerDies? ==> r.owner.None? && r.row == s.row)
  {
  }

  /** Another completion of the match retires the row exactly when it is live and stale: no retry
      is left, it is out of the live set, and nothing else changes. */
  lemma SupersedesStaleOnly(s: State, staleBefore: int)
    ensures var r := Do(s, Supersede(staleBefore));
            && r.calls == s.calls && r.traces == s.traces && r.owner == s.owner && r.executions == s.executions
            && r.row == if (s.row.status.Pending? || s.row.status.Running?) && staleBefore - s.row.createdAt > 0
                        then s.row.(retries := s.row.max, status := Failed) else s.row
  {
  }

  type SagaId = nat

  /** How many of the listed rows are counted. */
  function Tally(listed: seq<SagaId>, counts: SagaId -> bool): nat {
    if listed == [] then 0
    else Tally(listed[..|listed| - 1], counts) + if counts(listed[|listed| - 1]) then 1 else 0
  }

  lemma {:induction false} TallySame(listed: seq<SagaId>, counts: SagaId -> bool, others: SagaId -> bool)
    requires forall k | k in listed :: counts(k) == others(k)
    ensures Tally(listed, counts) == Tally(listed, others)
  {
    if listed != [] {
      TallySame(listed[..|listed| - 1], counts, others);
    }
  }

  function CopySucceeds(table: map<SagaId, State>, c: CallId, worlds: SagaId -> World): SagaId -> bool {
    k => k in table && c in table[k].calls && table[k].calls[c].Listed? &&
         Succeeds(table[k].calls[c].x, table[k].row, worlds(k))
  }

  function RowSucceeds(table: map<SagaId, State>, worlds: SagaId -> World): SagaId -> bool {
    k => k in table && Succeeds(table[k].row, table[k].row, worlds(k))
  }

  class SagaSweep {
    var table: map<SagaId, State>
    var errors: nat
    var redriven: nat

    constructor (table: map<SagaId, State>)
      ensures this.table == table
    {
      this.table, errors, redriven := table, 0, 0;
    }

    /** A fresh execution of the saga, after retiring a stale row that stands in its way. */
    method ExecuteCompletion(k: SagaId, w: World) returns (result: Outcome)
      requires k in table
      modifies this`table
      ensures result == if Live(old(table)[k].row) && old(table)[k].row.createdAt >= w.staleBefore then Error
                else w.outcome
      ensures var s := old(table)[k];
              var retires := Live(s.row) && s.row.createdAt < w.staleBefore;
              table == old(table)[k := s.(
                row := if retires then s.row.(retries := s.row.max, status := Failed) else s.row,
                burned := s.burned + if retires then Less(s.row.retries, s.row.max) else 0,
                executions := s.executions + 1)]
    {
      var s := table[k];
      result := w.outcome;
      table := table[k := s.(executions := s.executions + 1)];
      if Live(s.row) {
        if s.row.createdAt >= w.staleBefore {
          return Error;
        }
        table := table[k := table[k].(row := s.row.(retries := s.row.max, status := Failed),
                                      burned := s.burned + Less(s.row.retries, s.row.max))];
      }
    }

    method Leave(k: SagaId, trace: Trace)
      requires k in table
      modifies this`table
      ensures table == old(table)[k := old(table)[k].(traces := old(table)[k].traces + {trace})]
    {
      table := table[k := table[k].(traces := table[k].traces + {trace})];
    }

    /** Move the candidate on. */
    method Advance(k: SagaId, c: CallId, stage: Stage)
      requires k in table
      modifies this`table
      ensures table == old(table)[k := At(old(table)[k], c, stage).(
                         pending := if stage.Ran? then old(table)[k].pending + {c} else old(table)[k].pending)]
    {
      var s := table[k];
      var pending := if stage.Ran? then s.pending + {c} else s.pending;
      table := table[k := s.(calls := s.calls[c := stage], pending := pending)];
    }

    /** Write the copy back with one retry fewer, or none left; the write may be lost. */
    method RecordRetry(k: SagaId, c: CallId, exhaust: bool, lands: bool)
      requires k in table && c in table[k].calls && (table[k].calls[c].Ran? || table[k].calls[c].Retiring?)
      requires exhaust == !(table[k].calls[c].Ran? && table[k].calls[c].outcome.Error?)
      modifies this`table
      ensures table == old(table)[k := Do(old(table)[k], WriteBack(c, lands))]
    {
      var s := table[k];
      var copy, ran := s.calls[c].x, s.calls[c].Ran?;
      var t := s.(calls := s.calls[c := if exhaust then Finished else Written(copy)], pending := s.pending - {c});
      if !lands {
        table := table[k := t.(lost := t.lost + if ran then 1 else 0)];
        return;
      }
      if exhaust {
        copy := copy.(retries := copy.max);
        if !Terminal(copy.status) {
          copy := copy.(status := Failed);
        }
      } else {
        copy := copy.(retries := copy.retries + 1);
      }
      var paid := s.row.retries + if ran then 1 else 0;
      table := table[k := t.(row := copy, putBack := t.putBack + Less(copy.retries, paid),
                             burned := t.burned + Less(paid, copy.retries))];
    }

    /** Decide what becomes of a listed candidate, and execute it if that is to be. */
    method BeginOne(k: SagaId, c: CallId, w: World)
      requires k in table && c in table[k].calls && table[k].calls[c].Listed?
      modifies this`table
      ensures table == old(table)[k := Do(old(table)[k], Begin(c, w.outcome, w.staleBefore, w.review))]
    {
      var x := table[k].calls[c].x;
      if !x.readable {
        Leave(k, UnreadableLogged);
        Advance(k, c, Retiring(x));
        return;
      }
      if x.standings {
        Leave(k, Stall(x, w.review));
        Advance(k, c, Retiring(x));
        return;
      }
      var result := ExecuteCompletion(k, w);
      Advance(k, c, Ran(x, result));
      if result.Success? {
        Leave(k, Succeeded);
      } else if result.PausedForReview? {
        Leave(k, AwaitsReview);
      } else {
        assert table[k].traces + {} == table[k].traces;
      }
    }

    /** One listed candidate, to its end. */
    method RedriveOne(k: SagaId, c: CallId, w: World)
      requires k in table && c in table[k].calls && table[k].calls[c].Listed?
      modifies this
      ensures table == old(table)[k := Attempted(old(table)[k], c, w)]
      ensures AttemptTells(old(table)[k], table[k], old(table)[k].calls[c].x, c, w)
      ensures var x, row := old(table)[k].calls[c].x, old(table)[k].row;
              && errors == old(errors) + (if Fails(x, row, w) || !x.readable || !w.lands then 1 else 0)
              && redriven == old(redriven) + (if Succeeds(x, row, w) then 1 else 0)
    {
      AttemptedExactly(table[k], c, w);
      BeginOne(k, c, w);
      ghost var begun := table[k];
      var stage := table[k].calls[c];
      var failed := stage.Ran? && stage.outcome.Error?;
      RecordRetry(k, c, !failed, w.lands);
      if failed || !stage.x.readable || !w.lands {
        errors := errors + 1;
      }
      if stage.Ran? && stage.outcome.Success? {
        redriven := redriven + 1;
      }
      if failed {
        if stage.x.retries + 1 >= stage.x.max {
          Leave(k, Stall(stage.x, w.review));
        } else {
          assert table[k].traces + {} == table[k].traces;
        }
        var s := table[k];
        table := table[k := s.(calls := s.calls[c := Finished])];
      }
    }

    /** `find_retryable`: every row of the listing is copied before any is attempted. */
    method ListAll(listed: seq<SagaId>, c: CallId, stuckSince: int)
      requires NoRepeats(listed)
      requires forall k | k in listed ::
                 k in table && Retryable(table[k].row, stuckSince) &&
                   (c in table[k].calls ==> table[k].calls[c].Finished?)
      modifies this`table
      ensures table.Keys == old(table.Keys)
      ensures forall k | k in table ::
                table[k] == if k in listed then Do(old(table)[k], List(c, stuckSince)) else old(table)[k]
    {
      hide Retryable;
      ghost var start := table;
      for i := 0 to |listed|
        invariant table.Keys == start.Keys
        invariant forall k | k in table ::
                    table[k] == if k in listed[..i] then Do(start[k], List(c, stuckSince)) else start[k]
      {
        var k := listed[i];
        assert listed[..i + 1] == listed[..i] + [k];
        assert k !in listed[..i];
        Advance(k, c, Listed(table[k].row));
      }
      assert listed[..|listed|] == listed;
    }

    method RedriveAll(listed: seq<SagaId>, c: CallId, worlds: SagaId -> World)
      requires NoRepeats(listed)
      requires forall k | k in listed :: k in table && c in table[k].calls && table[k].calls[c].Listed?
      modifies this
      ensures table.Keys == old(table.Keys)
      ensures forall k | k in table ::
                table[k] == if k in listed then Attempted(old(table)[k], c, worlds(k)) else old(table)[k]
      ensures redriven == old(redriven) + Tally(listed, CopySucceeds(old(table), c, worlds))
    {
      hide Attempted, AttemptTells, Fails, Succeeds;
      ghost var start := table;
      for i := 0 to |listed|
        invariant table.Keys == start.Keys
        invariant forall k | k in table ::
                    table[k] == if k in listed[..i] then Attempted(start[k], c, worlds(k)) else start[k]
        invariant redriven == old(redriven) + Tally(listed[..i], CopySucceeds(start, c, worlds))
      {
        var k := listed[i];
        assert listed[..i + 1] == listed[..i] + [k];
        assert k !in listed[..i];
        assert listed[..i + 1][..i] == listed[..i];
        RedriveOne(k, c, worlds(k));
      }
      assert listed[..|listed|] == listed;
    }

    /** A pass: list, then one candidate after the other. Each listed row has its attempt, and
        where the write lands fewer retries than it was listed with; no other row changes. */
    method RedrivePass(listed: seq<SagaId>, c: CallId, stuckSince: int, worlds: SagaId -> World)
      requires NoRepeats(listed)
      requires forall k | k in listed ::
                 k in table && Retryable(table[k].row, stuckSince) &&
                   (c in table[k].calls ==> table[k].calls[c].Finished?)
      requires forall k | k in table :: Inv(table[k]) && Balanced(table[k])
      modifies this
      ensures table.Keys == old(table.Keys)
      ensures forall k | k in table ::
                table[k] == if k in listed then Attempted(Do(old(table)[k], List(c, stuckSince)), c, worlds(k))
                    else old(table)[k]
      ensures forall k | k in table :: Inv(table[k]) && Balanced(table[k])
      ensures forall k | k in listed && worlds(k).lands :: table[k].row.retries > old(table)[k].row.retries
      ensures redriven == old(redriven) + Tally(listed, RowSucceeds(old(table), worlds))
    {
      hide Inv, Retryable, Attempted, Balanced, Do, Succeeds, Tally;
      ghost var start := table;
      forall k | k in listed ensures Do(start[k], List(c, stuckSince)) == At(start[k], c, Listed(start[k].row)) {
        ListedNow(start[k], c, stuckSince);
      }
      ListAll(listed, c, stuckSince);
      TallySame(listed, CopySucceeds(table, c, worlds), RowSucceeds(start, worlds));
      RedriveAll(listed, c, worlds);
      forall k | k in listed
        ensures Inv(table[k]) && Balanced(table[k])
        ensures worlds(k).lands ==> table[k].row.retries > start[k].row.retries
      {
        ListedNow(start[k], c, stuckSince);
        AttemptKeeps(At(start[k], c, Listed(start[k].row)), c, worlds(k));
        if worlds(k).lands {
          AttemptsRunOut(At(start[k], c, Listed(start[k].row)), c, worlds(k));
        }
      }
    }
  }

  lemma ListedNow(s: State, c: CallId, stuckSince: int)
    requires Inv(s) && Balanced(s) && Retryable(s.row, stuckSince) && (c in s.calls ==> s.calls[c].Finished?)
    ensures Do(s, List(c, stuckSince)) == At(s, c, Listed(s.row))
    ensures Inv(At(s, c, Listed(s.row))) && Balanced(At(s, c, Listed(s.row)))
  {
    ListKeepsInv(s, c, stuckSince);
  }

  lemma AttemptKeeps(s: State, c: CallId, w: World)
    requires Inv(s) && Balanced(s)
    ensures Inv(Attempted(s, c, w)) && Balanced(Attempted(s, c, w))
  {
    hide Inv, Do, Balanced;
    var a, b := Begin(c, w.outcome, w.staleBefore, w.review), WriteBack(c, w.lands);
    DoKeepsInv(s, a);
    DoKeepsBalance(s, a);
    DoKeepsInv(Do(s, a), b);
    DoKeepsBalance(Do(s, a), b);
    DoKeepsInv(Do(Do(s, a), b), Report(c, w.review));
    DoKeepsBalance(Do(Do(s, a), b), Report(c, w.review));
  }
}
