/**
 The lifecycle pass and map-veto sessions: it creates them while a match waits for check-in,
 starts them only in pick/ban, flips forgotten coins and acts for absent captains. One match
 and its session. The pass lists a session, looks at the match, and then calls the veto
 service, which reads the session and writes it, and after an action goes on to the deciders
 that follow; captains, admins and hooks call the service too. Each of these is a step of its
 own, and anything may happen between two of them, the match being put in any status included.
*/
module VetoGate {
  import opened Options
  import M = MatchLifecycle
  import Schedules
  import opened Collections

  type CallId = nat
  type RegistrationId = nat

  datatype Phase = Pending | CoinFlip | InProgress | Completed | Cancelled

  /** `left` counts the actions of the format still to come, the current one included; the
      current action is a decider when `left` is among `deciders`. `startedByPass` is not a
      column. */
  datatype Session = Session(
    phase: Phase,
    wheel: bool,
    total: nat,
    deciders: set<nat>,
    left: nat,
    startedAt: Option<int>,
    updatedAt: int,
    deadline: Option<int>,
    winner: Option<RegistrationId>,
    startedByPass: bool)

  /** What a caller asks of the veto service. */
  datatype Wish = ToStart | ToFlip(who: RegistrationId) | ToAct | ToCancel

  datatype Stage =
    | ListedPending                        // the pass, before it looks at the match
    | ListedFlipping(who: RegistrationId)
    | ListedTimedOut
    | May(wish: Wish, byPass: bool)        // about to call the service
    | Doing(wish: Wish, byPass: bool, left: nat) // the service has read the session; its write is to come
    | Chaining(byPass: bool)               // has acted; a decider follows, and is next
    | Finished

  /** `past` holds every status the match has had, the present one included; `reopened` says
      that a write has put it back from pick/ban or later to before. */
  datatype State = State(
    status: M.Status,
    past: set<M.Status>,
    reopened: bool,
    first: Option<RegistrationId>,
    second: Option<RegistrationId>,
    session: Option<Session>,
    calls: map<CallId, Stage>)

  datatype Listing = PendingOnes | FlippingOnes(who: RegistrationId) | TimedOutOnes

  datatype Action =
    | Advance(to: M.Status)                    // any write of the match's status, whatever it is by now
    | Prepare(wheel: bool, total: nat, deciders: set<nat>, now: int) // the session is created
    | List(c: CallId, listing: Listing, now: int, grace: int)
    | Look(c: CallId)                          // the pass reads the match
    | Ask(c: CallId, wish: Wish)               // anyone else calls the service
    | Read(c: CallId, now: int)
    | Write(c: CallId, now: int, turn: nat, next: Option<int>)
    | Crash(c: CallId)

  predicate Both(s: State) {
    s.first.Some? && s.second.Some?
  }

  predicate In(s: State, c: CallId, stage: Stage) {
    c in s.calls && s.calls[c] == stage
  }

  function At(s: State, c: CallId, stage: Stage): State {
    s.(calls := s.calls[c := stage])
  }

  predicate TurnOver(x: Session, now: int) {
    x.deadline.Some? && now > x.deadline.value
  }

  // ---------------------------------------------------------------- the pass

  /** The grace for an unflipped coin runs from when the session was started. */
  function Started(x: Session): int {
    if x.startedAt.Some? then x.startedAt.value else x.updatedAt
  }

  function DoList(s: State, c: CallId, listing: Listing, now: int, grace: int): State {
    if c in s.calls || s.session.None? then s
    else
      var x := s.session.value;
      match listing
      case PendingOnes => if x.phase.Pending? then At(s, c, ListedPending) else s
      case FlippingOnes(who) =>
        if x.phase.CoinFlip? && now - Started(x) >= grace then At(s, c, ListedFlipping(who)) else s
      case TimedOutOnes => if x.phase.InProgress? && TurnOver(x, now) then At(s, c, ListedTimedOut) else s
  }

  /** A pending session is started only in pick/ban; a coin is flipped unless the match is over
      or a side is missing; a turn is left alone in check-in and cancelled when the match is over. */
  function DoLook(s: State, c: CallId): State {
    if c !in s.calls then s
    else
      match s.calls[c]
      case ListedPending => At(s, c, if s.status.PickBan? then May(ToStart, true) else Finished)
      case ListedFlipping(who) =>
        At(s, c, if !M.Terminal(s.status) && Both(s) && (Some(who) == s.first || Some(who) == s.second)
                 then May(ToFlip(who), true) else Finished)
      case ListedTimedOut =>
        At(s, c, if s.status.CheckingIn? then Finished
                 else if M.Terminal(s.status) then May(ToCancel, true) else May(ToAct, true))
      case _ => s
  }

  // ---------------------------------------------------------------- the veto service

  /** A timeout looks at the deadline only; a captain's action needs a running session. */
  predicate Grants(x: Session, wish: Wish, byPass: bool, now: int) {
    match wish
    case ToStart => x.phase.Pending?
    case ToFlip(_) => x.phase.CoinFlip? && x.winner.None?
    case ToAct => x.left > 0 && if byPass then TurnOver(x, now) else x.phase.InProgress?
    case ToCancel => !x.phase.Completed? && !x.phase.Cancelled?
  }

  /** After an action whose next one is a decider the service reads the session again, and asks
      for nothing but an action to perform. */
  function DoRead(s: State, c: CallId, now: int): State {
    if c !in s.calls then s
    else
      match s.calls[c]
      case May(wish, byPass) =>
        At(s, c, if s.session.Some? && Grants(s.session.value, wish, byPass, now)
                 then Doing(wish, byPass, s.session.value.left) else Finished)
      case Chaining(byPass) =>
        At(s, c, if s.session.Some? && s.session.value.left > 0
                 then Doing(ToAct, byPass, s.session.value.left) else Finished)
      case _ => s
  }

  /** An action on a session read with `left` actions to come: the last one completes the veto,
      any other sets the next turn, with a deadline or none. */
  function Acted(x: Session, left: nat, next: Option<int>): Session {
    if left <= 1 then x.(left := 0, phase := Completed, deadline := None)
    else x.(left := left - 1, phase := InProgress, deadline := next)
  }

  /** What the service writes, whatever has become of the session it read. A wheel starts with
      no turn and no deadline. */
  function Written(x: Session, call: Stage, now: int, turn: nat, next: Option<int>): Session
    requires call.Doing?
  {
    match call.wish
    case ToStart =>
      if x.wheel then
        x.(phase := InProgress, left := x.total, startedAt := Some(now), updatedAt := now, deadline := None,
           startedByPass := call.byPass)
      else x.(phase := CoinFlip, startedAt := Some(now), updatedAt := now, startedByPass := call.byPass)
    case ToFlip(who) =>
      x.(phase := InProgress, left := x.total, winner := Some(who), startedAt := Some(now), updatedAt := now,
         deadline := Some(now + turn))
    case ToAct => Acted(x, call.left, next)
    case ToCancel => x.(phase := Cancelled)
  }

  /** `chain_deciders` goes on while the next action is a decider. */
  predicate Chains(x: Session) {
    x.left > 0 && x.left in x.deciders
  }

  function DoWrite(s: State, c: CallId, now: int, turn: nat, next: Option<int>): State {
    if !(c in s.calls && s.calls[c].Doing?) || s.session.None? then s
    else
      var call := s.calls[c];
      var x := Written(s.session.value, call, now, turn, next);
      At(s, c, if call.wish.ToAct? && Chains(x) then Chaining(call.byPass) else Finished).(session := Some(x))
  }

  function Do(s: State, a: Action): State {
    match a
    case Advance(to) =>
      s.(status := to, past := s.past + {to},
         reopened := s.reopened || (M.BeforePickBan(to) && !M.BeforePickBan(s.status)))
    case Prepare(wheel, total, deciders, now) =>
      if s.session.None? && Both(s) && total > 0
      then s.(session := Some(Session(Pending, wheel, total, deciders, total, None, now, None, None, false))) else s
    case List(c, listing, now, grace) => DoList(s, c, listing, now, grace)
    case Look(c) => DoLook(s, c)
    case Ask(c, wish) => if c in s.calls then s else At(s, c, May(wish, false))
    case Read(c, now) => DoRead(s, c, now)
    case Write(c, now, turn, next) => DoWrite(s, c, now, turn, next)
    case Crash(c) => if c in s.calls then At(s, c, Finished) else s
  }

  function Run(s: State, actions: seq<Action>): State {
    Schedules.Fold(Do, s, actions)
  }

  function Begun(status: M.Status, first: Option<RegistrationId>, second: Option<RegistrationId>): State {
    State(status, {status}, false, first, second, None, map[])
  }

  // ---------------------------------------------------------------- only in pick/ban

  predicate StartsByPass(s: State, c: CallId) {
    c in s.calls && (s.calls[c].May? || s.calls[c].Doing?) && s.calls[c].wish.ToStart? && s.calls[c].byPass
  }

  ghost predicate PassStarting(s: State) {
    exists c :: StartsByPass(s, c)
  }

  /** Unless put back, a match is not before pick/ban once it was past it; the pass is about to start,
      or has started, a session only when the match has been in pick/ban. */
  ghost predicate Inv(s: State) {
    && s.status in s.past
    && (M.BeforePickBan(s.status) && !s.reopened ==> forall p | p in s.past :: M.BeforePickBan(p))
    && (s.session.Some? && s.session.value.startedByPass ==> M.PickBan in s.past)
    && (PassStarting(s) ==> M.PickBan in s.past)
    && (forall c | c in s.calls && (s.calls[c].Doing? || s.calls[c].Chaining?) :: s.session.Some?)
    && (forall c | c in s.calls && s.calls[c].Doing? && s.calls[c].wish.ToAct? :: s.calls[c].left > 0)
  }

  lemma DoKeepsInv(s: State, a: Action)
    requires Inv(s)
    ensures Inv(Do(s, a))
  {
    StartersKept(s, a);
    match a
    case Advance(_) =>
    case Write(c, _, _, _) =>
      assert StartsByPass(s, c) ==> PassStarting(s);
    case _ =>
  }

  /** A starter of the pass was one before, or has just seen the match in pick/ban. */
  lemma StartersKept(s: State, a: Action)
    requires Inv(s)
    ensures PassStarting(Do(s, a)) ==> M.PickBan in Do(s, a).past
  {
    var r := Do(s, a);
    if PassStarting(r) {
      var c :| StartsByPass(r, c);
      if StartsByPass(s, c) {
        assert PassStarting(s);
      }
    }
  }

  lemma {:induction false} RunKeepsInv(s: State, actions: seq<Action>)
    requires Inv(s)
    ensures Inv(Run(s, actions))
    decreases |actions|
  {
    if actions != [] {
      RunKeepsInv(s, actions[..|actions| - 1]);
      DoKeepsInv(Run(s, actions[..|actions| - 1]), actions[|actions| - 1]);
    }
  }

  /** Over any schedule, however long the pass takes between its look and its write: a session
      the pass started is of a match that has been in pick/ban and, unless a write put it back,
      is not before it any more. */
  lemma PassWaitsForPickBan(status: M.Status, first: Option<RegistrationId>, second: Option<RegistrationId>,
                            actions: seq<Action>)
    ensures var s := Run(Begun(status, first, second), actions);
            s.session.Some? && s.session.value.startedByPass ==>
                M.PickBan in s.past && (!s.reopened ==> !M.BeforePickBan(s.status))
  {
    RunKeepsInv(Begun(status, first, second), actions);
  }

  // ---------------------------------------------------------------- quiet before pick/ban

  predicate QuietSession(x: Session) {
    (x.phase.Pending? || x.phase.Cancelled?) && x.deadline.None? && x.winner.None?
  }

  /** Before pick/ban no coin waits and no turn clock runs. */
  predicate Quiet(s: State) {
    M.BeforePickBan(s.status) && s.session.Some? ==> QuietSession(s.session.value)
  }

  /** The pass, writes of the match's status, and creations; callers that are under way go on,
      but nobody else asks the service for anything. */
  predicate Unasked(actions: seq<Action>) {
    forall i | 0 <= i < |actions| :: !actions[i].Ask?
  }

  ghost predicate QuietForever(s: State) {
    forall actions | Unasked(actions) && !Run(s, actions).reopened :: Quiet(Run(s, actions))
  }

  /** A write that would break the quiet, now or after a creation. */
  predicate Breaks(s: State, call: Stage) {
    match call
    case Doing(wish, _, _) => !wish.ToCancel?
    case Chaining(_) => s.session.Some? && s.session.value.left > 0
    case May(wish, _) => wish.ToStart? && (if s.session.Some? then s.session.value.phase.Pending? else Both(s))
    case _ => false
  }

  /** No caller is on its way to start, flip or act. */
  ghost predicate Calm(s: State) {
    forall c | c in s.calls :: !Breaks(s, s.calls[c])
  }

  lemma CalmStep(s: State, a: Action)
    requires Inv(s) && !Do(s, a).reopened && !a.Ask?
    requires M.BeforePickBan(s.status) ==> Quiet(s) && Calm(s)
    ensures M.BeforePickBan(Do(s, a).status) ==> Quiet(Do(s, a)) && Calm(Do(s, a))
  {
    if M.BeforePickBan(Do(s, a).status) {
      assert M.BeforePickBan(s.status);
      match a
      case Prepare(_, _, _, _) => CalmPrepare(s, a);
      case Read(c, _) => CalmRead(s, a);
      case Write(c, _, _, _) => CalmWrite(s, a);
      case _ => CalmOther(s, a);
    }
  }

  lemma CalmPrepare(s: State, a: Action)
    requires Inv(s) && Quiet(s) && Calm(s) && a.Prepare?
    ensures Quiet(Do(s, a)) && Calm(Do(s, a))
  {
    var r := Do(s, a);
    forall c | c in r.calls ensures !Breaks(r, r.calls[c]) {
      assert !Breaks(s, s.calls[c]);
    }
  }

  lemma CalmRead(s: State, a: Action)
    requires Quiet(s) && Calm(s) && M.BeforePickBan(s.status) && a.Read?
    ensures Quiet(Do(s, a)) && Calm(Do(s, a))
  {
    var r := Do(s, a);
    assert a.c in s.calls ==> !Breaks(s, s.calls[a.c]);
    forall c | c in r.calls ensures !Breaks(r, r.calls[c]) {
      assert c != a.c ==> !Breaks(s, s.calls[c]);
    }
  }

  lemma CalmWrite(s: State, a: Action)
    requires Quiet(s) && Calm(s) && M.BeforePickBan(s.status) && a.Write?
    ensures Quiet(Do(s, a)) && Calm(Do(s, a))
  {
    var r := Do(s, a);
    assert a.c in s.calls ==> !Breaks(s, s.calls[a.c]);
    forall c | c in r.calls ensures !Breaks(r, r.calls[c]) {
      assert c != a.c ==> !Breaks(s, s.calls[c]);
    }
  }

  lemma CalmOther(s: State, a: Action)
    requires Quiet(s) && Calm(s) && M.BeforePickBan(s.status) && M.BeforePickBan(Do(s, a).status)
    requires a.Advance? || a.List? || a.Look? || a.Crash?
    ensures Quiet(Do(s, a)) && Calm(Do(s, a))
  {
    var r := Do(s, a);
    forall c | c in r.calls ensures !Breaks(r, r.calls[c]) {
      assert c in s.calls ==> !Breaks(s, s.calls[c]);
    }
  }

  lemma {:induction false} CalmRun(s: State, actions: seq<Action>)
    requires Inv(s) && Unasked(actions) && !Run(s, actions).reopened
    requires M.BeforePickBan(s.status) ==> Quiet(s) && Calm(s)
    ensures M.BeforePickBan(Run(s, actions).status) ==> Quiet(Run(s, actions)) && Calm(Run(s, actions))
    decreases |actions|
  {
    if actions != [] {
      var n := |actions| - 1;
      CalmRun(s, actions[..n]);
      RunKeepsInv(s, actions[..n]);
      CalmStep(Run(s, actions[..n]), actions[n]);
    }
  }

  /** One caller on its way is enough: it reads, and writes. */
  lemma BreaksQuiet(s: State, c: CallId) returns (actions: seq<Action>)
    requires Inv(s) && !s.reopened && M.BeforePickBan(s.status) && c in s.calls && Breaks(s, s.calls[c])
    ensures Unasked(actions) && !Run(s, actions).reopened && !Quiet(Run(s, actions))
  {
    var w := Write(c, 0, 0, None);
    if s.calls[c].Doing? {
      Schedules.FoldOne(Do, s, w);
      actions := [w];
    } else {
      var p, r := Prepare(false, 1, {}, 0), Read(c, 0);
      Schedules.FoldOne(Do, s, p);
      Schedules.FoldSnoc(Do, s, [p], r);
      Schedules.FoldSnoc(Do, s, [p] + [r], w);
      var s1 := Do(s, p);
      assert Do(s1, r).calls[c].Doing? && !Do(s1, r).calls[c].wish.ToCancel?;
      actions := [p] + [r] + [w];
    }
  }

  /** Before pick/ban a quiet session stays quiet, over every schedule of passes and of the match
      that does not put it back, if and only if no other caller is on its way to start, flip or
      act. So the coin and the clock of a session created during check-in wait for pick/ban. */
  lemma QuietUntilPickBan(s: State)
    requires Inv(s) && !s.reopened && M.BeforePickBan(s.status) && Quiet(s)
    ensures QuietForever(s) <==> Calm(s)
  {
    if Calm(s) {
      forall actions | Unasked(actions) && !Run(s, actions).reopened ensures Quiet(Run(s, actions)) {
        CalmRun(s, actions);
      }
    } else {
      var c :| c in s.calls && Breaks(s, s.calls[c]);
      var actions := BreaksQuiet(s, c);
    }
  }

  // ---------------------------------------------------------------- the session of a dead match

  /** No write takes the match out of its terminal status. */
  predicate KeptOver(actions: seq<Action>) {
    forall i | 0 <= i < |actions| && actions[i].Advance? :: M.Terminal(actions[i].to)
  }

  predicate Over(s: State) {
    M.Terminal(s.status) && s.session.Some? && s.session.value.phase.Cancelled?
  }

  /** Whatever anyone does, short of putting the match back, its session stays cancelled. */
  ghost predicate StaysCancelled(s: State) {
    forall actions | KeptOver(actions) :: Over(Run(s, actions))
  }

  /** Between the read of a session and its write; or, for a timeout, between the look at the
      match and that read, which asks for nothing but a deadline; or between an action and the
      decider that follows it, whose read asks for nothing. */
  predicate Underway(s: State, call: Stage) {
    match call
    case Doing(wish, _, _) => !wish.ToCancel?
    case May(wish, byPass) =>
      wish.ToAct? && byPass && s.session.Some? && s.session.value.deadline.Some? && s.session.value.left > 0
    case Chaining(_) => s.session.Some? && s.session.value.left > 0
    case _ => false
  }

  ghost predicate NobodyUnderway(s: State) {
    forall c | c in s.calls :: !Underway(s, s.calls[c])
  }

  lemma OverStep(s: State, a: Action)
    requires Over(s) && NobodyUnderway(s) && (a.Advance? ==> M.Terminal(a.to))
    ensures Over(Do(s, a)) && NobodyUnderway(Do(s, a))
  {
    var r := Do(s, a);
    if a.List? || a.Look? || a.Ask? || a.Read? || a.Write? || a.Crash? {
      assert a.c in s.calls ==> !Underway(s, s.calls[a.c]);
      OverSession(s, a);
      forall c | c in r.calls ensures !Underway(r, r.calls[c]) {
        assert c in s.calls ==> !Underway(s, s.calls[c]);
      }
    }
  }

  lemma OverSession(s: State, a: Action)
    requires Over(s) && NobodyUnderway(s) && (a.Advance? ==> M.Terminal(a.to))
    ensures Over(Do(s, a)) && Do(s, a).session.value.deadline == s.session.value.deadline
    ensures Do(s, a).session.value.left == s.session.value.left
  {
    if a.Write? && a.c in s.calls {
      assert !Underway(s, s.calls[a.c]);
    }
  }

  lemma {:induction false} OverRun(s: State, actions: seq<Action>)
    requires Over(s) && NobodyUnderway(s) && KeptOver(actions)
    ensures Over(Run(s, actions)) && NobodyUnderway(Run(s, actions))
    decreases |actions|
  {
    if actions != [] {
      OverRun(s, actions[..|actions| - 1]);
      OverStep(Run(s, actions[..|actions| - 1]), actions[|actions| - 1]);
    }
  }

  /** The write revives the session; a timeout still to read it finds the old deadline over, and
      a decider finds an action to perform. */
  lemma Revives(s: State, c: CallId) returns (actions: seq<Action>)
    requires Over(s) && c in s.calls && Underway(s, s.calls[c])
    ensures KeptOver(actions)
    ensures var r := Run(s, actions); M.Terminal(r.status) && r.session.Some? && !r.session.value.phase.Cancelled?
  {
    var w := Write(c, 0, 0, None);
    if s.calls[c].Doing? {
      Schedules.FoldOne(Do, s, w);
      actions := [w];
    } else {
      var r := Read(c, if s.calls[c].May? then s.session.value.deadline.value + 1 else 0);
      Schedules.FoldOne(Do, s, r);
      Schedules.FoldSnoc(Do, s, [r], w);
      assert Do(s, r).calls[c].Doing? && Do(s, r).calls[c].wish.ToAct?;
      actions := [r] + [w];
    }
  }

  /** The cancelled session of a match that is over stays cancelled, whatever anyone does, if and
      only if no pass or captain or hook is between its look and its write, or between its action
      and the decider that follows. */
  lemma CancelledForGoodExactly(s: State)
    requires Over(s)
    ensures StaysCancelled(s) <==> NobodyUnderway(s)
  {
    if NobodyUnderway(s) {
      forall actions | KeptOver(actions) ensures Over(Run(s, actions)) {
        OverRun(s, actions);
      }
    } else {
      var c :| c in s.calls && Underway(s, s.calls[c]);
      var actions := Revives(s, c);
      assert !Over(Run(s, actions));
    }
  }

  /** The pass is acting for a captain, or about to. */
  predicate ActsForCaptain(s: State, c: CallId) {
    && c in s.calls
    && match s.calls[c]
       case May(wish, byPass) => wish.ToAct? && byPass
       case Doing(wish, byPass, _) => wish.ToAct? && byPass
       case Chaining(byPass) => byPass
       case _ => false
  }

  /** The statuses in which the pass leaves the turn clock alone. */
  predicate Shielded(status: M.Status) {
    M.Terminal(status) || status.CheckingIn?
  }

  predicate KeptShielded(actions: seq<Action>) {
    forall i | 0 <= i < |actions| && actions[i].Advance? :: Shielded(actions[i].to)
  }

  /** The pass lists a session to act on exactly when its turn is over, and when the service reads
      it, it looks at the clock again. */
  lemma ActsAfterTheTurn(s: State, c: CallId, now: int)
    ensures c !in s.calls ==>
              (c in Do(s, List(c, TimedOutOnes, now, 0)).calls <==>
                s.session.Some? && s.session.value.phase.InProgress? &&
                s.session.value.deadline.Some? && s.session.value.deadline.value < now)
    ensures In(s, c, May(ToAct, true)) ==>
              (Do(s, Read(c, now)).calls[c].Doing? <==>
                s.session.Some? && s.session.value.left > 0 &&
                s.session.value.deadline.Some? && s.session.value.deadline.value < now)
  {
  }

  /** While a match is over or in check-in, no pass sets out to act for a captain: one that does
      had looked at the match before. */
  lemma {:induction false} NeverActsShielded(s: State, actions: seq<Action>, c: CallId)
    requires Shielded(s.status) && KeptShielded(actions) && ActsForCaptain(Run(s, actions), c)
    ensures ActsForCaptain(s, c)
    decreases |actions|
  {
    if actions != [] {
      var n := |actions| - 1;
      StaysShielded(s, actions[..n]);
      ActsBefore(Run(s, actions[..n]), actions[n], c);
      NeverActsShielded(s, actions[..n], c);
    }
  }

  lemma {:induction false} StaysShielded(s: State, actions: seq<Action>)
    requires Shielded(s.status) && KeptShielded(actions)
    ensures Shielded(Run(s, actions).status)
    decreases |actions|
  {
    if actions != [] {
      StaysShielded(s, actions[..|actions| - 1]);
    }
  }

  lemma ActsBefore(s: State, a: Action, c: CallId)
    requires Shielded(s.status) && (a.Advance? ==> Shielded(a.to))
    ensures ActsForCaptain(Do(s, a), c) ==> ActsForCaptain(s, c)
  {
  }

  // ---------------------------------------------------------------- who wins the coin

  predicate Plays(s: State, who: RegistrationId) {
    Some(who) == s.first || Some(who) == s.second
  }

  /** Whoever is named, by the session or by a caller under way, plays the match. */
  ghost predicate NamesPlayers(s: State) {
    && (s.session.Some? && s.session.value.winner.Some? ==> Plays(s, s.session.value.winner.value))
    && (forall c | c in s.calls && (s.calls[c].May? || s.calls[c].Doing?) && s.calls[c].wish.ToFlip? ::
          Plays(s, s.calls[c].wish.who))
  }

  lemma PlayersStep(s: State, a: Action)
    requires NamesPlayers(s) && (a.Ask? && a.wish.ToFlip? ==> Plays(s, a.wish.who))
    ensures NamesPlayers(Do(s, a)) && Do(s, a).first == s.first && Do(s, a).second == s.second
  {
  }

  /** Over every run in which the others name players, the pass does too, whatever toss it was
      handed: the winner of the coin is one of the two sides. */
  lemma {:induction false} WinnerPlays(s: State, actions: seq<Action>)
    requires NamesPlayers(s)
    requires forall i | 0 <= i < |actions| && actions[i].Ask? && actions[i].wish.ToFlip? ::
               Plays(s, actions[i].wish.who)
    ensures NamesPlayers(Run(s, actions)) && Run(s, actions).first == s.first && Run(s, actions).second == s.second
    decreases |actions|
  {
    if actions != [] {
      WinnerPlays(s, actions[..|actions| - 1]);
      PlayersStep(Run(s, actions[..|actions| - 1]), actions[|actions| - 1]);
      hide NamesPlayers, Do;
    }
  }

  // ---------------------------------------------------------------- the end of a veto

  /** A running session has an action to come, a completed one has none, and one with none is
      completed or cancelled, or a coin that was put up again too late. */
  predicate PhaseTrue(x: Session) {
    && x.total > 0
    && (x.phase.Pending? || x.phase.InProgress? ==> x.left > 0)
    && (x.phase.Completed? ==> x.left == 0 && x.deadline.None?)
    && (x.left == 0 ==> x.phase.Completed? || x.phase.Cancelled? || (x.phase.CoinFlip? && !x.wheel))
  }

  lemma PhaseStep(s: State, a: Action)
    requires s.session.Some? ==> PhaseTrue(s.session.value)
    ensures Do(s, a).session.Some? ==> PhaseTrue(Do(s, a).session.value)
  {
  }

  /** Over every run, however many callers are at work on the session and however late they
      write. */
  lemma {:induction false} PhasesTrue(status: M.Status, first: Option<RegistrationId>, second: Option<RegistrationId>,
                                      actions: seq<Action>)
    ensures var s := Run(Begun(status, first, second), actions);
            s.session.Some? ==> PhaseTrue(s.session.value)
    decreases |actions|
  {
    if actions != [] {
      var n := |actions| - 1;
      PhasesTrue(status, first, second, actions[..n]);
      PhaseStep(Run(Begun(status, first, second), actions[..n]), actions[n]);
      hide PhaseTrue, Do;
    }
  }

  /** No action is left, and the session is completed or, if that will do, cancelled. */
  predicate Done(s: State, orCancelled: bool) {
    && s.session.Some? && s.session.value.left == 0
    && (s.session.value.phase.Completed? || (orCancelled && s.session.value.phase.Cancelled?))
  }

  ghost predicate StaysDone(s: State, orCancelled: bool) {
    forall actions :: Done(Run(s, actions), orCancelled)
  }

  /** The call has read the session before it was done, and will write something else. */
  predicate Undoes(call: Stage, orCancelled: bool) {
    call.Doing? &&
      match call.wish
      case ToAct => call.left > 1
      case ToCancel => !orCancelled
      case _ => true
  }

  ghost predicate NobodyUndoes(s: State, orCancelled: bool) {
    forall c | c in s.calls :: !Undoes(s.calls[c], orCancelled)
  }

  lemma DoneStep(s: State, a: Action, orCancelled: bool)
    requires Done(s, orCancelled) && NobodyUndoes(s, orCancelled)
    ensures Done(Do(s, a), orCancelled) && NobodyUndoes(Do(s, a), orCancelled)
  {
    var r := Do(s, a);
    assert (a.Read? || a.Write?) && a.c in s.calls ==> !Undoes(s.calls[a.c], orCancelled);
    forall c | c in r.calls ensures !Undoes(r.calls[c], orCancelled) {
      assert c in s.calls ==> !Undoes(s.calls[c], orCancelled);
    }
  }

  lemma {:induction false} DoneRun(s: State, actions: seq<Action>, orCancelled: bool)
    requires Done(s, orCancelled) && NobodyUndoes(s, orCancelled)
    ensures Done(Run(s, actions), orCancelled) && NobodyUndoes(Run(s, actions), orCancelled)
    decreases |actions|
  {
    if actions != [] {
      DoneRun(s, actions[..|actions| - 1], orCancelled);
      DoneStep(Run(s, actions[..|actions| - 1]), actions[|actions| - 1], orCancelled);
    }
  }

  /** A completed veto stays completed, and one that is completed or cancelled stays one of the
      two, whatever anyone does, if and only if no caller is between its read of the session and
      a write that says something else. New callers are refused. */
  lemma DoneForGoodExactly(s: State, orCancelled: bool)
    requires Done(s, orCancelled)
    ensures StaysDone(s, orCancelled) <==> NobodyUndoes(s, orCancelled)
  {
    if NobodyUndoes(s, orCancelled) {
      forall actions ensures Done(Run(s, actions), orCancelled) {
        DoneRun(s, actions, orCancelled);
      }
    } else {
      var c :| c in s.calls && Undoes(s.calls[c], orCancelled);
      var w := Write(c, 0, 0, None);
      Schedules.FoldOne(Do, s, w);
      assert !Done(Run(s, [w]), orCancelled);
    }
  }

  /** Somebody asks, is granted and writes, undisturbed. */
  function Served(c: CallId, wish: Wish): seq<Action> {
    [Ask(c, wish), Read(c, 0), Write(c, 0, 0, None)]
  }

  lemma ServedWrites(s: State, c: CallId, wish: Wish)
    requires c !in s.calls && s.session.Some? && Grants(s.session.value, wish, false, 0)
    ensures var x := s.session.value;
            var y := Written(x, Doing(wish, false, x.left), 0, 0, None);
            Run(s, Served(c, wish)) ==
              At(s, c, if wish.ToAct? && Chains(y) then Chaining(false) else Finished).(session := Some(y))
  {
    var a, b, w := Ask(c, wish), Read(c, 0), Write(c, 0, 0, None);
    var doing := Doing(wish, false, s.session.value.left);
    Schedules.FoldOne(Do, s, a);
    Schedules.FoldSnoc(Do, s, [a], b);
    Schedules.FoldSnoc(Do, s, [a] + [b], w);
    assert [a] + [b] + [w] == Served(c, wish);
    AtAt(s, c, May(wish, false), doing);
    AtAt(s, c, doing, Finished);
    AtAt(s, c, doing, Chaining(false));
  }

  const TwoStarters: seq<Action> := [Prepare(false, 1, {}, 0), Ask(0, ToStart), Read(0, 0)]

  lemma BothMayStart()
    ensures var s := Run(Begun(M.PickBan, Some(1), Some(2)), TwoStarters);
            s == State(M.PickBan, {M.PickBan}, false, Some(1), Some(2),
                       Some(Session(Pending, false, 1, {}, 1, None, 0, None, None, false)),
                       map[0 := Doing(ToStart, false, 1)])
  {
    var s := Begun(M.PickBan, Some(1), Some(2));
    Schedules.FoldOne(Do, s, TwoStarters[0]);
    Schedules.FoldSnoc(Do, s, [TwoStarters[0]], TwoStarters[1]);
    Schedules.FoldSnoc(Do, s, [TwoStarters[0]] + [TwoStarters[1]], TwoStarters[2]);
    assert [TwoStarters[0]] + [TwoStarters[1]] + [TwoStarters[2]] == TwoStarters;
  }

  /** A state of that run: the first caller has still to write. */
  predicate FirstWaits(s: State, x: Session) {
    && s.session == Some(x) && !x.wheel && x.total == 1 && x.deciders == {}
    && In(s, 0, Doing(ToStart, false, 1))
  }

  lemma OneServed(s: State, x: Session, c: CallId, wish: Wish)
    requires FirstWaits(s, x) && c > 0 && c !in s.calls && Grants(x, wish, false, 0) && x.left <= 1
    ensures FirstWaits(Run(s, Served(c, wish)), Written(x, Doing(wish, false, x.left), 0, 0, None))
    ensures Run(s, Served(c, wish)).calls.Keys == s.calls.Keys + {c}
  {
    ServedWrites(s, c, wish);
    hide Run;
  }

  /** Two callers start the same session; the second writes when the veto is over. No action is
      left, and the session waits for a coin. */
  lemma LateStartUndoes() returns (actions: seq<Action>)
    ensures var s := Run(Begun(M.PickBan, Some(1), Some(2)), actions);
            s.session.Some? && s.session.value.left == 0 && s.session.value.phase.CoinFlip?
  {
    var start := Begun(M.PickBan, Some(1), Some(2));
    var s := Run(start, TwoStarters);
    var x := Session(Pending, false, 1, {}, 1, None, 0, None, None, false);
    BothMayStart();
    assert FirstWaits(s, x);
    var y := UpToTheEnd(s, x);
    var rest := Served(1, ToStart) + Served(2, ToFlip(1)) + Served(3, ToAct);
    Schedules.FoldConcat(Do, start, TwoStarters, rest);
    LastWrite(Run(s, rest), y);
    Schedules.FoldSnoc(Do, start, TwoStarters + rest, Write(0, 0, 0, None));
    actions := TwoStarters + rest + [Write(0, 0, 0, None)];
    hide *;
  }

  lemma UpToTheEnd(s: State, x: Session) returns (y: Session)
    requires FirstWaits(s, x) && s.calls.Keys == {0} && x.phase.Pending? && x.winner.None? && x.left == 1
    ensures FirstWaits(Run(s, Served(1, ToStart) + Served(2, ToFlip(1)) + Served(3, ToAct)), y)
    ensures y.phase.Completed? && y.left == 0
  {
    hide Served, Do, FirstWaits, Run;
    OneServed(s, x, 1, ToStart);
    var s1, x1 := Run(s, Served(1, ToStart)), Written(x, Doing(ToStart, false, x.left), 0, 0, None);
    WheelAndTotal(s, x);
    OneServed(s1, x1, 2, ToFlip(1));
    var s2, x2 := Run(s1, Served(2, ToFlip(1))), Written(x1, Doing(ToFlip(1), false, x1.left), 0, 0, None);
    OneServed(s2, x2, 3, ToAct);
    y := Written(x2, Doing(ToAct, false, x2.left), 0, 0, None);
    TwoConcats(s, Served(1, ToStart), Served(2, ToFlip(1)), Served(3, ToAct));
  }

  lemma WheelAndTotal(s: State, x: Session)
    requires FirstWaits(s, x)
    ensures !x.wheel && x.total == 1
  {
  }

  lemma TwoConcats(s: State, a: seq<Action>, b: seq<Action>, d: seq<Action>)
    ensures Run(s, a + b + d) == Run(Run(Run(s, a), b), d)
  {
    Schedules.FoldConcat(Do, s, a, b);
    Schedules.FoldConcat(Do, s, a + b, d);
  }

  lemma LastWrite(s: State, y: Session)
    requires FirstWaits(s, y) && y.left == 0
    ensures var r := Do(s, Write(0, 0, 0, None));
            r.session.Some? && r.session.value.left == 0 && r.session.value.phase.CoinFlip?
  {
  }

  // ---------------------------------------------------------------- one caller at a time

  /** The deciders that follow an action, undisturbed. */
  function ChainOn(s: State, c: CallId, now: int, next: Option<int>): State
    decreases if s.session.Some? then s.session.value.left else 0
  {
    if c in s.calls && s.calls[c].Chaining? && s.session.Some? && s.session.value.left > 0
    then ChainOn(Do(Do(s, Read(c, now)), Write(c, now, 0, next)), c, now, next)
    else s
  }

  /** The steps of one caller, one after the other. */
  function Whole(s: State, c: CallId, listing: Listing, now: int, grace: int, turn: nat, next: Option<int>): State {
    ChainOn(Rest(Do(s, List(c, listing, now, grace)), c, now, turn, next), c, now, next)
  }

  /** A timed-out session of a match that is over is cancelled by the next pass, however it came
      to run again; and with nobody else under way, for good. */
  lemma NextPassCancels(s: State, c: CallId, now: int, next: Option<int>)
    requires M.Terminal(s.status) && s.session.Some? && s.session.value.phase.InProgress? &&
             TurnOver(s.session.value, now)
    requires c !in s.calls && forall d | d in s.calls :: !Underway(s, s.calls[d])
    ensures StaysCancelled(Whole(s, c, TimedOutOnes, now, 0, 0, next))
  {
    var r := Whole(s, c, TimedOutOnes, now, 0, 0, next);
    WholeTimedOut(s, c, now, next);
    hide Whole;
    assert r.session.value.left == s.session.value.left && r.session.value.deadline == s.session.value.deadline;
    forall d | d in r.calls ensures !Underway(r, r.calls[d]) {
      assert d != c ==> !Underway(s, s.calls[d]);
    }
    CancelledForGoodExactly(r);
  }

  /** Started early by somebody else, a coin is flipped by the pass even during check-in; a turn
      clock runs from then on, though the pass does not act on it there. */
  lemma EarlyStartIsFlipped(s: State, c: CallId, d: CallId, now: int, later: int, grace: int, turn: nat)
    requires s.status.CheckingIn? && Both(s) && s.session.Some? && s.session.value.phase.Pending?
    requires !s.session.value.wheel && s.session.value.winner.None?
    requires c !in s.calls && d !in s.calls && c != d && later - now >= grace
    ensures var t := Do(Do(Do(s, Ask(c, ToStart)), Read(c, now)), Write(c, now, 0, None));
            var r := Whole(t, d, FlippingOnes(s.first.value), later, grace, turn, None);
            && r.session.Some? && r.session.value.phase.InProgress? && r.session.value.deadline == Some(later + turn)
            && forall e, at | e !in r.calls :: Whole(r, e, TimedOutOnes, at, 0, 0, None).session == r.session
  {
    var t := Do(Do(Do(s, Ask(c, ToStart)), Read(c, now)), Write(c, now, 0, None));
    StartedByOther(s, c, now);
    WholeFlipping(t, d, s.first.value, later, grace, turn);
    var r := Whole(t, d, FlippingOnes(s.first.value), later, grace, turn, None);
    hide Whole;
    forall e, at | e !in r.calls ensures Whole(r, e, TimedOutOnes, at, 0, 0, None).session == r.session {
      CheckInIsLeftAlone(r, e, at);
    }
  }

  lemma StartedByOther(s: State, c: CallId, now: int)
    requires s.session.Some? && s.session.value.phase.Pending? && !s.session.value.wheel && c !in s.calls
    ensures var t := Do(Do(Do(s, Ask(c, ToStart)), Read(c, now)), Write(c, now, 0, None));
            && t.session == Some(s.session.value.(phase := CoinFlip, startedAt := Some(now), updatedAt := now,
                                                  startedByPass := false))
            && t.calls.Keys == s.calls.Keys + {c} && t.status == s.status && t.first == s.first && t.second == s.second
  {
    var t1 := Do(s, Ask(c, ToStart));
    assert t1.calls[c] == May(ToStart, false);
    var t2 := Do(t1, Read(c, now));
    assert t2.calls[c] == Doing(ToStart, false, s.session.value.left);
  }

  lemma CheckInIsLeftAlone(s: State, c: CallId, now: int)
    requires s.status.CheckingIn? && c !in s.calls
    ensures Whole(s, c, TimedOutOnes, now, 0, 0, None).session == s.session
  {
    var s1 := Do(s, List(c, TimedOutOnes, now, 0));
    assert c in Do(s1, Look(c)).calls ==> Do(s1, Look(c)).calls[c].Finished?;
  }

  /** A veto under way in a match put back to `scheduled` keeps its clock, and the pass acts for
      its captains although the match has yet to open for check-in. */
  lemma ReopenedVetoIsActedOn(s: State, c: CallId, now: int, next: Option<int>)
    requires s.status.PickBan? && s.session.Some? && s.session.value.phase.InProgress? && TurnOver(s.session.value, now)
    requires c !in s.calls && s.session.value.left > 0
    ensures var t := Do(s, Advance(M.Scheduled));
            && t.reopened && !Quiet(t)
            && Whole(t, c, TimedOutOnes, now, 0, 0, next).session.Some?
            && Whole(t, c, TimedOutOnes, now, 0, 0, next).session.value.left < s.session.value.left
  {
    var t := Do(s, Advance(M.Scheduled));
    WholeTimedOut(t, c, now, next);
    ActedOutExactly(t.session.value, next);
  }

  // ---------------------------------------------------------------- the pass over its listings

  type MatchId = nat

  /** Marked as started by the pass: a wheel runs from its first action without a turn, any other
      session waits for its coin. */
  predicate StartedAnew(was: Session, x: Session, now: int) {
    && x.startedByPass && x.startedAt == Some(now) && x.updatedAt == now
    && x.winner == was.winner && x.wheel == was.wheel && x.total == was.total && x.deciders == was.deciders
    && if was.wheel then x.phase == InProgress && x.left == was.total && x.deadline.None?
       else x.phase == CoinFlip && x.left == was.left && x.deadline == was.deadline
  }

  /** Nobody has won it yet, and the grace since the session was started is over. */
  predicate LongUnflipped(x: Session, now: int, grace: int) {
    && x.winner.None?
    && (if x.startedAt.Some? then now - x.startedAt.value >= grace else now - x.updatedAt >= grace)
  }

  /** The veto runs from its first action, and the first turn is on the clock. */
  predicate FlippedTo(was: Session, x: Session, who: Option<RegistrationId>, now: int, turn: nat) {
    && x.phase == InProgress && x.winner == who && x.left == was.total && x.deadline == Some(now + turn)
    && x.wheel == was.wheel && x.total == was.total && x.deciders == was.deciders
    && x.startedByPass == was.startedByPass && x.startedAt == Some(now) && x.updatedAt == now
  }

  class VetoDesk {
    var table: map<MatchId, State>

    constructor (table: map<MatchId, State>)
      ensures this.table == table
    {
      this.table := table;
    }

    /** Create the session of a match about to open; an existing one is left as it is. */
    method EnsureVetoSession(m: MatchId, configured: bool, wheel: bool, total: nat, deciders: set<nat>, now: int)
      returns (created: bool)
      requires m in table && total > 0
      modifies this`table
      ensures table == old(table)[m := if configured then Do(old(table)[m], Prepare(wheel, total, deciders, now))
                                       else old(table)[m]]
      ensures created ==> table[m].session.Some? && table[m].session.value.phase.Pending? && old(table)[m].session.None?
      ensures created <==> configured && old(table)[m].session.None? && Both(old(table)[m])
      ensures created ==>
                table[m].session == Some(Session(Pending, wheel, total, deciders, total, None, now, None, None, false))
      ensures !created ==> table == old(table)
    {
      var row := table[m];
      if row.first.None? || row.second.None? || !configured || row.session.Some? {
        return false;
      }
      var session := Session(Pending, wheel, total, deciders, total, None, now, None, None, false);
      table := table[m := row.(session := Some(session))];
      created := true;
    }

    /** One pending session: started if its match is in pick/ban. */
    method StartPending(m: MatchId, c: CallId, now: int)
      requires m in table && table[m].session.Some? && table[m].session.value.phase.Pending? && c !in table[m].calls
      modifies this`table
      ensures table == old(table)[m := Whole(old(table)[m], c, PendingOnes, now, 0, 0, None)]
      ensures !old(table)[m].status.PickBan? ==> table[m].session == old(table)[m].session
      ensures old(table)[m].status.PickBan? ==>
                table[m].session.Some? && StartedAnew(old(table)[m].session.value, table[m].session.value, now)
    {
      var row := table[m];
      var x := row.session.value;
      WholePending(row, c, now);
      hide Whole;
      if row.status.PickBan? {
        if x.wheel {
          x := x.(phase := InProgress, left := x.total, deadline := None);
        } else {
          x := x.(phase := CoinFlip);
        }
        row := row.(session := Some(x.(startedAt := Some(now), updatedAt := now, startedByPass := true)));
      }
      table := table[m := row.(calls := row.calls[c := Finished])];
    }

    /** One unflipped coin: left within the grace, and when the match is over or lacks a side. */
    method FlipForgotten(m: MatchId, c: CallId, now: int, grace: int, heads: bool, turn: nat)
      requires m in table && table[m].session.Some? && table[m].session.value.phase.CoinFlip? && c !in table[m].calls
      modifies this`table
      ensures Both(old(table)[m]) ==>
                var who := if heads then old(table)[m].first.value else old(table)[m].second.value;
                table == old(table)[m := Whole(old(table)[m], c, FlippingOnes(who), now, grace, turn, None)]
      ensures !Both(old(table)[m]) ==> table == old(table)
      ensures var was := old(table)[m];
              table[m].session.Some? &&
              if Both(was) && !M.Terminal(was.status) && LongUnflipped(was.session.value, now, grace)
              then FlippedTo(was.session.value, table[m].session.value,
                             if heads then was.first else was.second, now, turn)
              else table[m].session == was.session
    {
      var row := table[m];
      var x := row.session.value;
      if row.first.None? || row.second.None? {
        return;
      }
      var who := if heads then row.first.value else row.second.value;
      WholeFlipping(row, c, who, now, grace, turn);
      hide Whole;
      if now - Started(x) < grace {
        assert table == table[m := row];
        return;
      }
      if !M.Terminal(row.status) && x.winner.None? {
        x := x.(phase := InProgress, left := x.total, winner := Some(who), startedAt := Some(now), updatedAt := now,
                deadline := Some(now + turn));
      }
      table := table[m := row.(session := Some(x), calls := row.calls[c := Finished])];
    }

    /** One timed-out session: left in check-in, cancelled when the match is over; else acted on,
        and the deciders that follow with it. */
    method ProcessVetoTimeout(m: MatchId, c: CallId, now: int, next: Option<int>) returns (acted: bool)
      requires m in table && table[m].session.Some? && c !in table[m].calls
      requires table[m].session.value.phase.InProgress? && TurnOver(table[m].session.value, now)
      modifies this`table
      ensures table == old(table)[m := Whole(old(table)[m], c, TimedOutOnes, now, 0, 0, next)]
      ensures acted <==> !Shielded(old(table)[m].status) && old(table)[m].session.value.left > 0
      ensures M.Terminal(old(table)[m].status) ==> Over(table[m])
      ensures !acted && !M.Terminal(old(table)[m].status) ==> table[m].session == old(table)[m].session
      ensures acted ==>
                table[m].session.Some? && ActedUpTo(old(table)[m].session.value, table[m].session.value, next)
    {
      var row := table[m];
      var x := row.session.value;
      acted := false;
      WholeTimedOut(row, c, now, next);
      hide Whole;
      if M.Terminal(row.status) {
        x := x.(phase := Cancelled);
      } else if !row.status.CheckingIn? && x.left > 0 {
        acted := true;
        ActedOutExactly(x, next);
        x := Acted(x, x.left, next);
        while Chains(x)
          invariant ActedOut(row.session.value, next) == if Chains(x) then ActedOut(x, next) else x
          decreases x.left
        {
          x := Acted(x, x.left, next);
        }
      }
      table := table[m := row.(session := Some(x), calls := row.calls[c := Finished])];
    }

    /** The pending sessions, then the unflipped coins: each listed session as its own caller
        says, no other touched. */
    method AdvanceStalled(pending: seq<MatchId>, flipping: seq<MatchId>, c: CallId, d: CallId, now: int, grace: int,
                          heads: MatchId -> bool, turn: nat)
      requires NoRepeats(pending) && NoRepeats(flipping) && c != d
      requires forall m | m in table :: c !in table[m].calls && d !in table[m].calls
      requires forall m | m in pending :: m in table && table[m].session.Some? && table[m].session.value.phase.Pending?
      requires forall m | m in flipping ::
                 m in table && m !in pending && table[m].session.Some? && table[m].session.value.phase.CoinFlip? &&
                   Both(table[m])
      modifies this`table
      ensures table.Keys == old(table.Keys)
      ensures forall m | m in table ::
                table[m] == if m in pending then Whole(old(table)[m], c, PendingOnes, now, 0, 0, None)
                            else if m in flipping then FlippedBy(old(table)[m], d, heads(m), now, grace, turn)
                            else old(table)[m]
      ensures forall m | m in table && M.BeforePickBan(old(table)[m].status) && Quiet(old(table)[m]) ::
                table[m].session == old(table)[m].session
    {
      hide Whole;
      ghost var start := table;
      for i := 0 to |pending|
        invariant table.Keys == start.Keys
        invariant forall m | m in table ::
                    table[m] == if m in pending[..i] then Whole(start[m], c, PendingOnes, now, 0, 0, None) else start[m]
      {
        var m := pending[i];
        assert pending[..i + 1] == pending[..i] + [m];
        assert m !in pending[..i];
        StartPending(m, c, now);
      }
      assert pending[..|pending|] == pending;
      ghost var begun := table;
      for i := 0 to |flipping|
        invariant table.Keys == start.Keys
        invariant forall m | m in table ::
                    table[m] == if m in flipping[..i] then FlippedBy(begun[m], d, heads(m), now, grace, turn)
                                else begun[m]
      {
        var m := flipping[i];
        assert flipping[..i + 1] == flipping[..i] + [m];
        assert m !in flipping[..i];
        FlipForgotten(m, d, now, grace, heads(m), turn);
      }
      assert flipping[..|flipping|] == flipping;
      forall m | m in table && M.BeforePickBan(start[m].status) && Quiet(start[m])
        ensures table[m].session == start[m].session
      {
        if m in pending {
          PendingWaits(start[m], c, now);
        }
      }
    }
  }

  lemma AtAt(s: State, c: CallId, x: Stage, y: Stage)
    ensures At(At(s, c, x), c, y) == At(s, c, y)
  {
    assert s.calls[c := x][c := y] == s.calls[c := y];
  }

  /** An action and the deciders after it. */
  function ActedOut(x: Session, next: Option<int>): Session
    requires x.left > 0
    decreases x.left
  {
    var y := Acted(x, x.left, next);
    if Chains(y) then ActedOut(y, next) else y
  }

  /** The actions after `was.left` are performed up to the next one that is no decider, which gets
      the next turn; if there is none, the veto is complete. Nothing else changes. */
  predicate ActedUpTo(was: Session, x: Session, next: Option<int>) {
    && x.left < was.left
    && (forall k | x.left < k < was.left :: k in was.deciders)
    && (if x.left == 0 then x.phase.Completed? && x.deadline.None?
        else x.phase.InProgress? && x.left !in was.deciders && x.deadline == next)
    && x == was.(left := x.left, phase := x.phase, deadline := x.deadline)
  }

  lemma {:induction false} ActedOutExactly(x: Session, next: Option<int>)
    requires x.left > 0
    ensures ActedUpTo(x, ActedOut(x, next), next)
    decreases x.left
  {
    var y := Acted(x, x.left, next);
    if Chains(y) {
      ActedOutExactly(y, next);
    }
  }

  /** The chain of one caller ends with the session acted out. */
  lemma {:induction false} ChainActsOut(s: State, c: CallId, byPass: bool, now: int, next: Option<int>)
    requires c in s.calls && s.calls[c] == Chaining(byPass) && s.session.Some? && s.session.value.left > 0
    ensures ChainOn(s, c, now, next) == At(s, c, Finished).(session := Some(ActedOut(s.session.value, next)))
    decreases s.session.value.left
  {
    var x := s.session.value;
    var r := Do(s, Read(c, now));
    assert r == At(s, c, Doing(ToAct, byPass, x.left));
    var w := Do(r, Write(c, now, 0, next));
    var y := Acted(x, x.left, next);
    AtAt(s, c, Doing(ToAct, byPass, x.left), Chaining(byPass));
    AtAt(s, c, Doing(ToAct, byPass, x.left), Finished);
    if Chains(y) {
      assert w == At(s, c, Chaining(byPass)).(session := Some(y));
      ChainActsOut(w, c, byPass, now, next);
      AtAt(s, c, Chaining(byPass), Finished);
    }
  }

  // ---------------------------------------------------------------- every veto is completed

  /** One pass after another, each begun when the turn that the one before set is over. */
  function PassAfterPass(s: State, c: CallId, passes: nat, now: int, turn: nat): State
    decreases passes
  {
    if passes == 0 then s
    else
      PassAfterPass(Whole(s, c, TimedOutOnes, now, 0, 0, Some(now + turn)), c + 1, passes - 1, now + turn + 1, turn)
  }

  lemma {:induction false} IdlePasses(s: State, c: CallId, passes: nat, now: int, turn: nat)
    requires (forall d | d in s.calls :: d < c) && s.session.Some? && s.session.value.phase.Completed?
    ensures PassAfterPass(s, c, passes, now, turn) == s
    decreases passes
  {
    if passes > 0 {
      assert Do(s, List(c, TimedOutOnes, now, 0)) == s;
      assert Whole(s, c, TimedOutOnes, now, 0, 0, Some(now + turn)) == s;
      IdlePasses(s, c + 1, passes - 1, now + turn + 1, turn);
    }
  }

  /** Captains who never act do not hold up a veto: the pass completes it after at most as many
      turns as there are actions left. */
  lemma {:induction false} PassesComplete(s: State, c: CallId, passes: nat, now: int, turn: nat)
    requires s.session.Some? && s.session.value.phase.InProgress? && TurnOver(s.session.value, now)
    requires 0 < s.session.value.left <= passes && !Shielded(s.status) && forall d | d in s.calls :: d < c
    ensures var r := PassAfterPass(s, c, passes, now, turn);
            r.session.Some? && r.session.value.phase.Completed? && r.session.value.left == 0
    decreases passes
  {
    hide *;
    var t := Whole(s, c, TimedOutOnes, now, 0, 0, Some(now + turn));
    OnePass(s, c, now, turn);
    OneAfterAnother(s, c, passes, now, turn);
    if t.session.value.left == 0 {
      IdlePasses(t, c + 1, passes - 1, now + turn + 1, turn);
    } else {
      PassesComplete(t, c + 1, passes - 1, now + turn + 1, turn);
    }
  }

  lemma OneAfterAnother(s: State, c: CallId, passes: nat, now: int, turn: nat)
    requires passes > 0
    ensures var t := Whole(s, c, TimedOutOnes, now, 0, 0, Some(now + turn));
            PassAfterPass(s, c, passes, now, turn) == PassAfterPass(t, c + 1, passes - 1, now + turn + 1, turn)
  {
    hide Whole;
  }

  lemma OnePass(s: State, c: CallId, now: int, turn: nat)
    requires s.session.Some? && s.session.value.phase.InProgress? && TurnOver(s.session.value, now)
    requires s.session.value.left > 0 && !Shielded(s.status) && forall d | d in s.calls :: d < c
    ensures var t := Whole(s, c, TimedOutOnes, now, 0, 0, Some(now + turn));
            && t.session.Some? && t.session.value.left < s.session.value.left && t.status == s.status
            && (forall d | d in t.calls :: d < c + 1)
            && (if t.session.value.left == 0 then t.session.value.phase.Completed?
                else t.session.value.phase.InProgress? && TurnOver(t.session.value, now + turn + 1))
  {
    WholeTimedOut(s, c, now, Some(now + turn));
    ActedOutExactly(s.session.value, Some(now + turn));
    hide Whole, ActedOut;
  }

  /** From the listing on: the look, the read and the write of one caller. */
  function Rest(s: State, c: CallId, now: int, turn: nat, next: Option<int>): State {
    Do(Do(Do(s, Look(c)), Read(c, now)), Write(c, now, turn, next))
  }

  lemma RestRefused(s: State, c: CallId, stage: Stage, now: int, turn: nat, next: Option<int>)
    requires Do(At(s, c, stage), Look(c)) == At(s, c, Finished)
    ensures Rest(At(s, c, stage), c, now, turn, next) == At(s, c, Finished)
  {
  }

  lemma RestGranted(s: State, c: CallId, stage: Stage, wish: Wish, now: int, turn: nat, next: Option<int>)
    requires Do(At(s, c, stage), Look(c)) == At(s, c, May(wish, true))
    requires s.session.Some?
    ensures var x := s.session.value;
            Rest(At(s, c, stage), c, now, turn, next) ==
            if !Grants(x, wish, true, now) then At(s, c, Finished)
            else
              var y := Written(x, Doing(wish, true, x.left), now, turn, next);
              At(s, c, if wish.ToAct? && Chains(y) then Chaining(true) else Finished).(session := Some(y))
  {
    var doing := Doing(wish, true, s.session.value.left);
    AtAt(s, c, May(wish, true), doing);
    AtAt(s, c, May(wish, true), Finished);
    AtAt(s, c, doing, Finished);
    AtAt(s, c, doing, Chaining(true));
  }

  lemma WholePending(s: State, c: CallId, now: int)
    requires s.session.Some? && s.session.value.phase.Pending? && c !in s.calls
    ensures var x := s.session.value;
            Whole(s, c, PendingOnes, now, 0, 0, None) ==
            if s.status.PickBan?
            then At(s, c, Finished).(session := Some(Written(x, Doing(ToStart, true, x.left), now, 0, None)))
            else At(s, c, Finished)
  {
    AtAt(s, c, ListedPending, Finished);
    AtAt(s, c, ListedPending, May(ToStart, true));
    assert Whole(s, c, PendingOnes, now, 0, 0, None) ==
             ChainOn(Rest(At(s, c, ListedPending), c, now, 0, None), c, now, None);
    if s.status.PickBan? {
      RestGranted(s, c, ListedPending, ToStart, now, 0, None);
    } else {
      RestRefused(s, c, ListedPending, now, 0, None);
    }
  }

  lemma WholeFlipping(s: State, c: CallId, who: RegistrationId, now: int, grace: int, turn: nat)
    requires s.session.Some? && s.session.value.phase.CoinFlip? && c !in s.calls && Both(s)
    requires Some(who) == s.first || Some(who) == s.second
    ensures var x := s.session.value;
            Whole(s, c, FlippingOnes(who), now, grace, turn, None) ==
            if now - Started(x) < grace then s
            else if !M.Terminal(s.status) && x.winner.None?
            then At(s, c, Finished).(session := Some(Written(x, Doing(ToFlip(who), true, x.left), now, turn, None)))
            else At(s, c, Finished)
  {
    if now - Started(s.session.value) >= grace {
      AtAt(s, c, ListedFlipping(who), Finished);
      AtAt(s, c, ListedFlipping(who), May(ToFlip(who), true));
      assert Whole(s, c, FlippingOnes(who), now, grace, turn, None) ==
             ChainOn(Rest(At(s, c, ListedFlipping(who)), c, now, turn, None), c, now, None);
      if M.Terminal(s.status) {
        RestRefused(s, c, ListedFlipping(who), now, turn, None);
      } else {
        RestGranted(s, c, ListedFlipping(who), ToFlip(who), now, turn, None);
      }
    }
  }

  lemma WholeTimedOut(s: State, c: CallId, now: int, next: Option<int>)
    requires s.session.Some? && s.session.value.phase.InProgress? && TurnOver(s.session.value, now) && c !in s.calls
    ensures var x := s.session.value;
            Whole(s, c, TimedOutOnes, now, 0, 0, next) ==
            if M.Terminal(s.status) then At(s, c, Finished).(session := Some(x.(phase := Cancelled)))
            else if s.status.CheckingIn? || x.left == 0 then At(s, c, Finished)
            else At(s, c, Finished).(session := Some(ActedOut(x, next)))
  {
    var x := s.session.value;
    var rest := Rest(At(s, c, ListedTimedOut), c, now, 0, next);
    AtAt(s, c, ListedTimedOut, Finished);
    AtAt(s, c, ListedTimedOut, May(ToCancel, true));
    AtAt(s, c, ListedTimedOut, May(ToAct, true));
    assert Whole(s, c, TimedOutOnes, now, 0, 0, next) == ChainOn(rest, c, now, next);
    if s.status.CheckingIn? {
      RestRefused(s, c, ListedTimedOut, now, 0, next);
    } else if M.Terminal(s.status) {
      RestGranted(s, c, ListedTimedOut, ToCancel, now, 0, next);
    } else {
      RestGranted(s, c, ListedTimedOut, ToAct, now, 0, next);
      var y := Acted(x, x.left, next);
      if x.left > 0 && Chains(y) {
        ChainActsOut(rest, c, true, now, next);
        AtAt(s, c, Chaining(true), Finished);
      }
    }
  }

  function FlippedBy(s: State, d: CallId, heads: bool, now: int, grace: int, turn: nat): State {
    Whole(s, d, FlippingOnes(Side(s, heads)), now, grace, turn, None)
  }

  function Side(s: State, heads: bool): RegistrationId {
    if s.first.None? || s.second.None? then 0 else if heads then s.first.value else s.second.value
  }

  lemma PendingWaits(s: State, c: CallId, now: int)
    requires !s.status.PickBan? && c !in s.calls
    ensures Whole(s, c, PendingOnes, now, 0, 0, None).session == s.session
  {
    var s1 := Do(s, List(c, PendingOnes, now, 0));
    assert c in Do(s1, Look(c)).calls ==> Do(s1, Look(c)).calls[c].Finished?;
  }
}
