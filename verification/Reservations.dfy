/**
 Server reservations: allocation, load, the retry cap, and the re-queue that calls back
 into allocation. The functions here say, without recursion, what one entry into that cycle
 does; the methods of ReservationHandlers call each other in the cycle and are proved to do
 just that, whatever the agents answer.
*/
module Reservations {
  import opened Options
  import Schedules
  import opened Collections

  type MatchId = nat
  type ServerId = nat
  type ReservationId = nat

  const MAX_LOAD_RETRIES := 3

  datatype Status = Pending | Configuring | Ready | Live | Completed | Failed | Cancelled

  datatype ServerStatus = Available | Reserved | Loading | InMatch | Broken

  /** `settled` is not a column: the reservation has ended once, and its failed loads are booked.
      An event that comes late can open it again, but never to be loaded. */
  datatype Reservation = Reservation(match_: MatchId, status: Status, server: Option<ServerId>, retries: nat,
                                     settled: bool)

  /** Bookkeeping for the bounds; none of it is stored. `broken` are the servers marked after
      the retry cap and not put back, `lifted` counts the marks that were put back or whose
      write was lost, `ended` the reservations of a match that ended in another way. */
  datatype Tally = Tally(
    loads: nat,
    failures: map<MatchId, nat>,
    ended: map<MatchId, nat>,
    capped: nat,
    lifted: nat,
    broken: set<ServerId>)

  datatype State = State(
    reservations: map<ReservationId, Reservation>,
    servers: map<ServerId, ServerStatus>,
    next: ReservationId,
    tally: Tally)

  /** What the cycle cannot know: whether a match still wants a server, whether its config
      builds, which servers the allocation query accepts and which of them it takes, what the
      agent answers to each LoadMatch, and whether the write that marks a server lands. */
  datatype World = World(
    assignable: MatchId -> bool,
    configurable: MatchId -> bool,
    eligible: set<ServerId>,
    pick: set<ServerId> -> ServerId,
    answers: nat -> bool,
    marks: nat -> bool)

  /** The query takes one of the servers it accepts. */
  ghost predicate Sound(w: World) {
    forall candidates: set<ServerId> | candidates != {} :: w.pick(candidates) in candidates
  }

  predicate Open(status: Status) {
    status.Pending? || status.Configuring? || status.Ready? || status.Live?
  }

  predicate IsOpen(s: State, r: ReservationId) {
    r in s.reservations && Open(s.reservations[r].status)
  }

  predicate HasOpen(s: State, m: MatchId) {
    exists r | r in s.reservations :: IsOpen(s, r) && s.reservations[r].match_ == m
  }

  function Count(counts: map<MatchId, nat>, m: MatchId): nat {
    if m in counts then counts[m] else 0
  }

  function Plus(counts: map<MatchId, nat>, m: MatchId): map<MatchId, nat> {
    counts[m := Count(counts, m) + 1]
  }

  // ---------------------------------------------------------------- single writes

  function Created(s: State, m: MatchId): State {
    s.(reservations := s.reservations[s.next := Reservation(m, Pending, None, 0, false)], next := s.next + 1)
  }

  function WithStatus(s: State, r: ReservationId, status: Status): State
    requires r in s.reservations
  {
    s.(reservations := s.reservations[r := s.reservations[r].(status := status)])
  }

  function Closed(s: State, r: ReservationId, final: Status): State
    requires r in s.reservations
  {
    s.(reservations := s.reservations[r := s.reservations[r].(status := final, settled := true)])
  }

  /** The unique index on open reservations' servers refuses this one. */
  predicate Taken(s: State, r: ReservationId, v: ServerId) {
    exists q | q in s.reservations :: q != r && IsOpen(s, q) && s.reservations[q].server == Some(v)
  }

  /** One of the two unique indexes refuses to have this reservation open. */
  predicate Refused(s: State, r: ReservationId)
    requires r in s.reservations
  {
    || HasOpen(s, s.reservations[r].match_)
    || (s.reservations[r].server.Some? && Taken(s, r, s.reservations[r].server.value))
  }

  function Candidates(s: State, w: World): set<ServerId> {
    set v | v in s.servers && s.servers[v].Available? && v in w.eligible
  }

  function Allocated(s: State, r: ReservationId, v: ServerId): State
    requires r in s.reservations
  {
    s.(reservations := s.reservations[r := s.reservations[r].(server := Some(v))],
       servers := s.servers[v := Reserved])
  }

  /** The reservation ends and its server goes back, unless someone marked it meanwhile. */
  function Released(s: State, r: ReservationId, final: Status): State
    requires r in s.reservations
  {
    var t := Closed(s, r, final);
    match s.reservations[r].server
    case Some(v) =>
      if v in s.servers && (s.servers[v].Reserved? || s.servers[v].Loading? || s.servers[v].InMatch?)
      then t.(servers := s.servers[v := Available]) else t
    case None => t
  }

  function LoadAccepted(s: State, r: ReservationId): State
    requires r in s.reservations && s.reservations[r].server.Some?
  {
    var t := WithStatus(s, r, Configuring);
    t.(servers := s.servers[s.reservations[r].server.value := Loading], tally := s.tally.(loads := s.tally.loads + 1))
  }

  function LoadRefused(s: State, r: ReservationId): State
    requires r in s.reservations
  {
    var row := s.reservations[r];
    s.(reservations := s.reservations[r := row.(retries := row.retries + 1)],
       tally := s.tally.(loads := s.tally.loads + 1, failures := Plus(s.tally.failures, row.match_)))
  }

  function Marked(s: State, v: ServerId, lands: bool): State {
    var t := s.(tally := s.tally.(capped := s.tally.capped + 1));
    if lands then t.(servers := s.servers[v := Broken], tally := t.tally.(broken := s.tally.broken + {v}))
    else t.(tally := t.tally.(lifted := s.tally.lifted + 1))
  }

  // ---------------------------------------------------------------- entries

  /** One LoadMatch whose refusal does not reach the cap. */
  function LoadedOnce(s: State, r: ReservationId, w: World): State
    requires r in s.reservations && s.reservations[r].server.Some?
  {
    if w.answers(s.tally.loads) then LoadAccepted(s, r) else LoadRefused(s, r)
  }

  /** The query may pick a server that an event freed under another reservation; binding it is
      an error that leaves the reservation queued. */
  predicate Placeable(s: State, r: ReservationId, w: World)
    requires r in s.reservations
  {
    s.reservations[r].status.Pending? && Candidates(s, w) != {} && !Taken(s, r, w.pick(Candidates(s, w)))
  }

  function Placed(s: State, r: ReservationId, w: World): State
    requires r in s.reservations
  {
    if !Placeable(s, r, w) then s
    else LoadedOnce(Allocated(s, r, w.pick(Candidates(s, w))), r, w)
  }

  /** A request for a match: at most one LoadMatch, and never at the cap. */
  function Requested(s: State, m: MatchId, w: World): State {
    if HasOpen(s, m) || !w.assignable(m) then s
    else if !w.configurable(m) then Closed(Created(s, m), s.next, Failed)
    else Placed(Created(s, m), s.next, w)
  }

  /** The reservation that just failed for the last time, and its server, out of the way. */
  function Capped(s: State, r: ReservationId, w: World): State
    requires r in s.reservations && s.reservations[r].server.Some?
  {
    Marked(Released(LoadRefused(s, r), r, Failed), s.reservations[r].server.value, w.marks(s.tally.capped))
  }

  /** A load, and everything its failure sets off: at most one re-queue, at most two LoadMatch. */
  function Loaded(s: State, r: ReservationId, w: World): State
    requires r in s.reservations && s.reservations[r].server.Some?
  {
    if w.answers(s.tally.loads) || s.reservations[r].retries + 1 < MAX_LOAD_RETRIES then LoadedOnce(s, r, w)
    else Requested(Capped(s, r, w), s.reservations[r].match_, w)
  }

  /** An entry into the cycle, or something that happens to a reservation or server beside it. */
  datatype Command =
    | Assign(m: MatchId)                            // veto completed, or an admin asks
    | Drive(r: ReservationId)                       // maintenance pass: pending, or stuck configuring
    | Went(r: ReservationId, live: bool)            // series_start or going_live
    | Finish(r: ReservationId, final: Status)       // series end, reconciliation, cancellation
    | Restore(v: ServerId)                          // a broken server is put back

  datatype Step = Step(command: Command, world: World)

  function DoDrive(s: State, r: ReservationId, w: World): State {
    if r !in s.reservations || !(s.reservations[r].status.Pending? || s.reservations[r].status.Configuring?) then s
    else if s.reservations[r].server.Some? then Loaded(s, r, w)
    else Placed(s, r, w)
  }

  /** A release, of a reservation in any status: a late event releases an ended one again, and
      frees its server under whoever has it by now. */
  function DoFinish(s: State, r: ReservationId, final: Status): State {
    if r !in s.reservations || Open(final) then s
    else
      var t := Released(s, r, final);
      var ended := if s.reservations[r].settled then s.tally.ended else Plus(s.tally.ended, s.reservations[r].match_);
      t.(tally := s.tally.(ended := ended))
  }

  function DoRestore(s: State, v: ServerId): State {
    if v !in s.tally.broken then s
    else s.(servers := s.servers[v := Available],
            tally := s.tally.(broken := s.tally.broken - {v}, lifted := s.tally.lifted + 1))
  }

  /** A lifecycle event, on a reservation in any status: only the indexes can refuse it. A
      series_start puts the server in the match as well, quarantined or not. */
  function DoWent(s: State, r: ReservationId, live: bool): State {
    if r !in s.reservations || (!IsOpen(s, r) && Refused(s, r)) then s
    else if live then WithStatus(s, r, Live)
    else
      var t := WithStatus(s, r, Ready);
      match s.reservations[r].server
      case None => t
      case Some(v) =>
        var u := if v in s.servers then t.(servers := s.servers[v := InMatch]) else t;
        if v in s.tally.broken
        then u.(tally := s.tally.(broken := s.tally.broken - {v}, lifted := s.tally.lifted + 1)) else u
  }

  function Do(s: State, step: Step): State {
    match step.command
    case Assign(m) => Requested(s, m, step.world)
    case Drive(r) => DoDrive(s, r, step.world)
    case Went(r, live) => DoWent(s, r, live)
    case Finish(r, final) => DoFinish(s, r, final)
    case Restore(v) => DoRestore(s, v)
  }

  function Run(s: State, steps: seq<Step>): State {
    Schedules.Fold(Do, s, steps)
  }

  // ---------------------------------------------------------------- invariant

  /** The two partial unique indexes; and no reservation on its first run holds a server marked
      after the cap. */
  ghost predicate Indexed(s: State) {
    && (forall r | r in s.reservations :: r < s.next)
    && (forall r, q | IsOpen(s, r) && IsOpen(s, q) :: s.reservations[r].match_ == s.reservations[q].match_ ==> r == q)
    && (forall r, q | IsOpen(s, r) && IsOpen(s, q) ::
          s.reservations[r].server.Some? && s.reservations[r].server == s.reservations[q].server ==> r == q)
    && (forall r | r in s.reservations && s.reservations[r].server.Some? :: Known(s, s.reservations[r]))
  }

  predicate Known(s: State, row: Reservation)
    requires row.server.Some?
  {
    row.server.value in s.servers && (!row.settled ==> row.server.value !in s.tally.broken)
  }

  predicate Sane(row: Reservation) {
    && (row.status.Pending? || row.status.Configuring? ==> !row.settled)
    && (!Open(row.status) ==> row.settled)
    && (!row.settled ==> row.retries < MAX_LOAD_RETRIES)
    && (!row.settled && (row.retries > 0 || row.status.Configuring?) ==> row.server.Some?)
  }

  function Owed(row: Reservation): nat {
    if row.settled then 0 else row.retries
  }

  function Allowance(s: State, m: MatchId): nat {
    3 * s.tally.capped + 2 * Count(s.tally.ended, m)
  }

  /** Failed loads of a match are paid for by capped and ended reservations and the open one. */
  ghost predicate Paid(s: State) {
    && (forall r | r in s.reservations :: Sane(s.reservations[r]))
    && (forall r | IsOpen(s, r) ::
          Count(s.tally.failures, s.reservations[r].match_) <=
              Allowance(s, s.reservations[r].match_) + Owed(s.reservations[r]))
    && (forall m | m in s.tally.failures && !HasOpen(s, m) :: s.tally.failures[m] <= Allowance(s, m))
  }

  ghost predicate Quarantined(s: State) {
    && s.tally.broken <= s.servers.Keys
    && (forall v | v in s.tally.broken :: s.servers[v].Broken?)
    && s.tally.capped == |s.tally.broken| + s.tally.lifted
  }

  ghost predicate Inv(s: State) {
    Indexed(s) && Paid(s) && Quarantined(s)
  }

  function Start(fleet: map<ServerId, ServerStatus>): (s: State)
    ensures Inv(s)
  {
    State(map[], fleet, 0, Tally(0, map[], map[], 0, 0, {}))
  }

  /** Which reservations of which matches are open is all that `HasOpen` depends on. */
  lemma HasOpenKept(s: State, t: State)
    requires forall r :: IsOpen(s, r) == IsOpen(t, r)
    requires forall r | IsOpen(s, r) && IsOpen(t, r) :: s.reservations[r].match_ == t.reservations[r].match_
    ensures forall m :: HasOpen(s, m) == HasOpen(t, m)
  {
    forall m ensures HasOpen(s, m) == HasOpen(t, m) {
      if HasOpen(s, m) {
        var r :| r in s.reservations && IsOpen(s, r) && s.reservations[r].match_ == m;
        assert IsOpen(t, r);
      }
      if HasOpen(t, m) {
        var r :| r in t.reservations && IsOpen(t, r) && t.reservations[r].match_ == m;
        assert IsOpen(s, r);
      }
    }
  }

  lemma CreatedKeepsInv(s: State, m: MatchId)
    requires Inv(s) && !HasOpen(s, m)
    ensures Inv(Created(s, m)) && IsOpen(Created(s, m), s.next)
  {
    CreatedStaysIndexed(s, m);
    CreatedStaysPaid(s, m);
    hide Indexed, Paid;
  }

  lemma CreatedStaysIndexed(s: State, m: MatchId)
    requires Inv(s) && !HasOpen(s, m)
    ensures Indexed(Created(s, m))
  {
    assert forall r | r != s.next :: IsOpen(Created(s, m), r) == IsOpen(s, r);
    assert forall r | IsOpen(s, r) :: s.reservations[r].match_ != m;
    hide HasOpen;
  }

  lemma CreatedStaysPaid(s: State, m: MatchId)
    requires Inv(s) && !HasOpen(s, m)
    ensures Paid(Created(s, m))
  {
    var t := Created(s, m);
    assert forall r | r != s.next :: IsOpen(t, r) == IsOpen(s, r);
    forall k | HasOpen(s, k) ensures HasOpen(t, k) {
      var r :| r in s.reservations && IsOpen(s, r) && s.reservations[r].match_ == k;
      assert IsOpen(t, r);
    }
    hide HasOpen;
    assert Count(s.tally.failures, m) <= Allowance(s, m);
  }

  lemma FailedAtOnceKeepsInv(s: State, m: MatchId)
    requires Inv(s) && !HasOpen(s, m)
    ensures Inv(Closed(Created(s, m), s.next, Failed))
  {
    var t := Closed(Created(s, m), s.next, Failed);
    assert forall r :: IsOpen(t, r) == IsOpen(s, r);
    HasOpenKept(s, t);
  }

  lemma AllocatedKeepsInv(s: State, r: ReservationId, w: World)
    requires Inv(s) && Sound(w) && r in s.reservations && Placeable(s, r, w)
    ensures w.pick(Candidates(s, w)) in Candidates(s, w)
    ensures Inv(Allocated(s, r, w.pick(Candidates(s, w))))
  {
    var v := w.pick(Candidates(s, w));
    var t := Allocated(s, r, v);
    assert forall q :: IsOpen(t, q) == IsOpen(s, q);
    assert v !in s.tally.broken;
    HasOpenKept(s, t);
  }

  /** On its first run, waiting for a server or for its server to report. */
  predicate FirstRun(s: State, r: ReservationId) {
    r in s.reservations && (s.reservations[r].status.Pending? || s.reservations[r].status.Configuring?)
  }

  lemma LoadAcceptedKeepsInv(s: State, r: ReservationId)
    requires Inv(s) && FirstRun(s, r) && s.reservations[r].server.Some?
    ensures Inv(LoadAccepted(s, r))
  {
    var t := LoadAccepted(s, r);
    assert forall q :: IsOpen(t, q) == IsOpen(s, q);
    assert Known(s, s.reservations[r]);
    HasOpenKept(s, t);
  }

  lemma LoadRefusedKeepsInv(s: State, r: ReservationId)
    requires Inv(s) && FirstRun(s, r) && s.reservations[r].server.Some? &&
             s.reservations[r].retries + 1 < MAX_LOAD_RETRIES
    ensures Inv(LoadRefused(s, r))
  {
    var t := LoadRefused(s, r);
    assert forall q :: IsOpen(t, q) == IsOpen(s, q);
    HasOpenKept(s, t);
  }

  lemma WentKeepsInv(s: State, r: ReservationId, live: bool)
    requires Inv(s)
    ensures Inv(DoWent(s, r, live))
  {
    if r in s.reservations && (IsOpen(s, r) || !Refused(s, r)) {
      var t := DoWent(s, r, live);
      WentEffects(s, r, live);
      WentStaysIndexed(s, r, live);
      WentStaysPaid(s, r, live);
      hide DoWent, Indexed, Paid;
    }
  }

  /** An event opens the row or keeps it open; at most its server's quarantine is lifted. */
  lemma WentEffects(s: State, r: ReservationId, live: bool)
    requires Inv(s) && r in s.reservations && (IsOpen(s, r) || !Refused(s, r))
    ensures var t, row := DoWent(s, r, live), s.reservations[r];
            && t.reservations == s.reservations[r := row.(status := if live then Live else Ready)]
            && t.next == s.next && t.servers.Keys == s.servers.Keys
            && t.tally.failures == s.tally.failures && t.tally.ended == s.tally.ended &&
               t.tally.capped == s.tally.capped
            && t.tally.loads == s.tally.loads && t.tally.broken <= s.tally.broken
            && Quarantined(t)
  {
    if s.reservations[r].server.Some? {
      assert Known(s, s.reservations[r]);
    }
  }

  lemma WentStaysIndexed(s: State, r: ReservationId, live: bool)
    requires Inv(s) && r in s.reservations && (IsOpen(s, r) || !Refused(s, r))
    ensures Indexed(DoWent(s, r, live))
  {
    var t := DoWent(s, r, live);
    WentEffects(s, r, live);
    hide DoWent, Paid, Quarantined;
    assert forall q :: IsOpen(t, q) <==> IsOpen(s, q) || q == r;
    forall q | IsOpen(s, q) && q != r
      ensures s.reservations[q].match_ != s.reservations[r].match_
      ensures s.reservations[r].server.Some? ==> s.reservations[q].server != s.reservations[r].server
    {
      if !IsOpen(s, r) {
        assert !HasOpen(s, s.reservations[r].match_);
      }
    }
    forall q | q in t.reservations && t.reservations[q].server.Some? ensures Known(t, t.reservations[q]) {
      assert Known(s, s.reservations[q]);
    }
  }

  lemma WentStaysPaid(s: State, r: ReservationId, live: bool)
    requires Inv(s) && r in s.reservations && (IsOpen(s, r) || !Refused(s, r))
    ensures Paid(DoWent(s, r, live))
  {
    var t := DoWent(s, r, live);
    WentEffects(s, r, live);
    hide DoWent, Indexed, Quarantined;
    assert forall q :: IsOpen(t, q) <==> IsOpen(s, q) || q == r;
    assert Sane(s.reservations[r]);
    var m := s.reservations[r].match_;
    forall k | HasOpen(s, k) ensures HasOpen(t, k) {
      var q :| q in s.reservations && IsOpen(s, q) && s.reservations[q].match_ == k;
      assert IsOpen(t, q);
    }
    if !IsOpen(s, r) {
      assert !HasOpen(s, m);
      assert Count(s.tally.failures, m) <= Allowance(s, m);
    }
    hide HasOpen;
  }

  lemma RestoreKeepsInv(s: State, v: ServerId)
    requires Inv(s)
    ensures Inv(DoRestore(s, v))
  {
    var t := DoRestore(s, v);
    assert forall q :: IsOpen(t, q) == IsOpen(s, q);
    HasOpenKept(s, t);
  }

  /** A reservation ends, in a step that leaves the others alone. */
  ghost predicate Closes(s: State, t: State, r: ReservationId) {
    && t.reservations.Keys == s.reservations.Keys
    && IsOpen(s, r) && !IsOpen(t, r)
    && (forall q | q in s.reservations && q != r :: t.reservations[q] == s.reservations[q])
    && t.reservations[r].match_ == s.reservations[r].match_
    && t.next == s.next
  }

  lemma ClosesOne(s: State, t: State, r: ReservationId)
    requires Inv(s) && Closes(s, t, r)
    ensures !HasOpen(t, s.reservations[r].match_)
    ensures forall m :: HasOpen(t, m) == (HasOpen(s, m) && m != s.reservations[r].match_)
    ensures forall q :: IsOpen(t, q) == (IsOpen(s, q) && q != r)
  {
    forall m ensures HasOpen(t, m) == (HasOpen(s, m) && m != s.reservations[r].match_) {
      if HasOpen(s, m) {
        var q :| q in s.reservations && IsOpen(s, q) && s.reservations[q].match_ == m;
        assert q == r || IsOpen(t, q);
      }
      if HasOpen(t, m) {
        var q :| q in t.reservations && IsOpen(t, q) && t.reservations[q].match_ == m;
        assert IsOpen(s, q);
      }
    }
  }

  /** The servers of the other open reservations are not this one's. */
  lemma OthersHeld(s: State, t: State, r: ReservationId)
    requires Inv(s) && Closes(s, t, r) && t.reservations[r].settled &&
             t.reservations[r].server == s.reservations[r].server
    requires s.servers.Keys <= t.servers.Keys
    requires forall v | v in s.servers && s.reservations[r].server != Some(v) ::
               (v in t.tally.broken <==> v in s.tally.broken)
    ensures Indexed(t)
  {
    ClosesOne(s, t, r);
    forall q | q in t.reservations && t.reservations[q].server.Some? ensures Known(t, t.reservations[q]) {
      assert Known(s, s.reservations[q]) && Sane(s.reservations[q]);
    }
  }

  lemma FinishKeepsInv(s: State, r: ReservationId, final: Status)
    requires Inv(s)
    ensures Inv(DoFinish(s, r, final))
  {
    if r in s.reservations && !Open(final) {
      var t := DoFinish(s, r, final);
      FinishEffects(s, r, final);
      hide DoFinish;
      if IsOpen(s, r) {
        FinishStaysPaid(s, r, final);
        hide Paid;
        OthersHeld(s, t, r);
      } else {
        EndAgainStaysIndexed(s, t, r);
        EndAgainStaysPaid(s, t, r);
      }
    }
  }

  /** Ending what has ended changes nothing that counts. */
  ghost predicate EndsAgain(s: State, t: State, r: ReservationId) {
    && r in s.reservations && !IsOpen(s, r)
    && t.reservations.Keys == s.reservations.Keys
    && (forall q | q in s.reservations && q != r :: t.reservations[q] == s.reservations[q])
    && t.reservations[r] == s.reservations[r].(status := t.reservations[r].status, settled := true) && !IsOpen(t, r)
    && t.next == s.next && t.servers.Keys == s.servers.Keys
    && t.tally == s.tally
  }

  lemma EndAgainStaysIndexed(s: State, t: State, r: ReservationId)
    requires Inv(s) && EndsAgain(s, t, r)
    ensures Indexed(t)
  {
    assert forall q :: IsOpen(t, q) == IsOpen(s, q);
    forall q | q in t.reservations && t.reservations[q].server.Some? ensures Known(t, t.reservations[q]) {
      assert Known(s, s.reservations[q]);
    }
  }

  lemma EndAgainStaysPaid(s: State, t: State, r: ReservationId)
    requires Inv(s) && EndsAgain(s, t, r)
    ensures Paid(t)
  {
    assert forall q :: IsOpen(t, q) == IsOpen(s, q);
    HasOpenKept(s, t);
    hide HasOpen, Indexed;
  }

  lemma FinishEffects(s: State, r: ReservationId, final: Status)
    requires Inv(s) && r in s.reservations && !Open(final)
    ensures var t, row := DoFinish(s, r, final), s.reservations[r];
            && t.reservations == s.reservations[r := row.(status := final, settled := true)] && t.next == s.next
            && (IsOpen(s, r) ==> Closes(s, t, r))
            && t.tally == s.tally.(ended := if row.settled then s.tally.ended else Plus(s.tally.ended, row.match_))
            && t.servers.Keys == s.servers.Keys
            && (forall v | v in s.servers && row.server != Some(v) :: t.servers[v] == s.servers[v])
            && Quarantined(t)
  {
    FinishRows(s, r, final);
    assert Sane(s.reservations[r]);
    if s.reservations[r].server.Some? {
      assert Known(s, s.reservations[r]);
    }
    hide Indexed, Paid;
  }

  lemma FinishRows(s: State, r: ReservationId, final: Status)
    requires r in s.reservations && !Open(final)
    ensures var t, row := DoFinish(s, r, final), s.reservations[r];
            && t.reservations == s.reservations[r := row.(status := final, settled := true)] && t.next == s.next
  {
  }

  lemma FinishStaysPaid(s: State, r: ReservationId, final: Status)
    requires Inv(s) && IsOpen(s, r) && !Open(final)
    ensures Paid(DoFinish(s, r, final))
  {
    var t := DoFinish(s, r, final);
    FinishEffects(s, r, final);
    assert Sane(s.reservations[r]);
    hide DoFinish;
    ClosingStaysPaid(s, t, r);
  }

  /** The row that closes pays for its failed loads with the ending, or with the cap. */
  lemma ClosingStaysPaid(s: State, t: State, r: ReservationId)
    requires Inv(s) && Closes(s, t, r) && t.reservations[r].settled
    requires forall m :: Allowance(t, m) >= Allowance(s, m)
    requires t.tally.failures == s.tally.failures ||
             t.tally.failures == Plus(s.tally.failures, s.reservations[r].match_)
    requires var m := s.reservations[r].match_;
             Allowance(t, m) - Allowance(s, m) - Owed(s.reservations[r]) >=
             Count(t.tally.failures, m) - Count(s.tally.failures, m)
    ensures Paid(t)
  {
    ClosesOne(s, t, r);
    hide Allowance, HasOpen;
    assert forall q | q in t.reservations && q != r :: Sane(s.reservations[q]);
  }

  /** What the cap does to the rows and the tallies, in one look. */
  lemma CappedEffects(s: State, r: ReservationId, w: World)
    requires Inv(s) && FirstRun(s, r) && s.reservations[r].server.Some?
    ensures var t, row, v := Capped(s, r, w), s.reservations[r], s.reservations[r].server.value;
            && Closes(s, t, r)
            && t.reservations[r] == row.(status := Failed, retries := row.retries + 1, settled := true)
            && v in s.servers && v !in s.tally.broken
            && t.tally.failures == Plus(s.tally.failures, row.match_)
            && t.tally.ended == s.tally.ended
            && t.tally.capped == s.tally.capped + 1
            && t.servers.Keys == s.servers.Keys
            && (forall u | u in s.servers && u != v :: t.servers[u] == s.servers[u])
            && (if w.marks(s.tally.capped)
                then t.servers[v].Broken? && t.tally.broken == s.tally.broken + {v} && t.tally.lifted == s.tally.lifted
                else t.tally.broken == s.tally.broken && t.tally.lifted == s.tally.lifted + 1)
  {
    FirstRunServer(s, r);
    CappedCloses(s, r, w);
    CappedServers(s, r, w);
    CappedRows(s, r, w);
    hide Inv, Closes, IsOpen, Capped, FirstRun;
  }

  lemma CappedServers(s: State, r: ReservationId, w: World)
    requires FirstRun(s, r) && s.reservations[r].server.Some? && s.reservations[r].server.value in s.servers
    ensures var t, row, v := Capped(s, r, w), s.reservations[r], s.reservations[r].server.value;
            && t.tally.failures == Plus(s.tally.failures, row.match_)
            && t.tally.ended == s.tally.ended
            && t.tally.capped == s.tally.capped + 1
            && t.servers.Keys == s.servers.Keys
            && (forall u | u in s.servers && u != v :: t.servers[u] == s.servers[u])
            && (if w.marks(s.tally.capped)
                then t.servers[v].Broken? && t.tally.broken == s.tally.broken + {v} && t.tally.lifted == s.tally.lifted
                else t.tally.broken == s.tally.broken && t.tally.lifted == s.tally.lifted + 1)
  {
    hide Plus;
  }

  lemma CappedCloses(s: State, r: ReservationId, w: World)
    requires FirstRun(s, r) && s.reservations[r].server.Some?
    ensures Closes(s, Capped(s, r, w), r)
  {
    CappedRows(s, r, w);
    hide Capped;
    assert !Open(Failed);
  }

  lemma CappedRows(s: State, r: ReservationId, w: World)
    requires FirstRun(s, r) && s.reservations[r].server.Some?
    ensures Capped(s, r, w).next == s.next
    ensures Capped(s, r, w).reservations ==
              s.reservations[r := s.reservations[r].(status := Failed, retries := s.reservations[r].retries + 1,
                                                     settled := true)]
  {
  }

  lemma CappedStaysPaid(s: State, r: ReservationId, w: World)
    requires Inv(s) && FirstRun(s, r) && s.reservations[r].server.Some?
    requires s.reservations[r].retries + 1 >= MAX_LOAD_RETRIES
    ensures Paid(Capped(s, r, w))
  {
    var t := Capped(s, r, w);
    CappedEffects(s, r, w);
    hide Capped;
    ClosingStaysPaid(s, t, r);
  }

  lemma CappedKeepsInv(s: State, r: ReservationId, w: World)
    requires Inv(s) && FirstRun(s, r) && s.reservations[r].server.Some?
    requires s.reservations[r].retries + 1 >= MAX_LOAD_RETRIES
    ensures Inv(Capped(s, r, w)) && !HasOpen(Capped(s, r, w), s.reservations[r].match_)
  {
    var t := Capped(s, r, w);
    CappedEffects(s, r, w);
    CappedStaysPaid(s, r, w);
    hide Capped, Paid;
    ClosesOne(s, t, r);
    OthersHeld(s, t, r);
  }

  lemma PlacedKeepsInv(s: State, r: ReservationId, w: World)
    requires Inv(s) && Sound(w) && FirstRun(s, r) && s.reservations[r].server.None?
    ensures Inv(Placed(s, r, w))
  {
    if Placeable(s, r, w) {
      AllocatedKeepsInv(s, r, w);
      var t := Allocated(s, r, w.pick(Candidates(s, w)));
      LoadedOnceKeepsInv(t, r, w);
    }
  }

  lemma LoadedOnceKeepsInv(s: State, r: ReservationId, w: World)
    requires Inv(s) && FirstRun(s, r) && s.reservations[r].server.Some?
    requires w.answers(s.tally.loads) || s.reservations[r].retries + 1 < MAX_LOAD_RETRIES
    ensures Inv(LoadedOnce(s, r, w))
  {
    if w.answers(s.tally.loads) {
      LoadAcceptedKeepsInv(s, r);
    } else {
      LoadRefusedKeepsInv(s, r);
    }
  }

  lemma RequestedKeepsInv(s: State, m: MatchId, w: World)
    requires Inv(s) && Sound(w)
    ensures Inv(Requested(s, m, w))
  {
    if !HasOpen(s, m) && w.assignable(m) {
      if w.configurable(m) {
        CreatedKeepsInv(s, m);
        PlacedKeepsInv(Created(s, m), s.next, w);
      } else {
        FailedAtOnceKeepsInv(s, m);
      }
    }
  }

  lemma LoadedKeepsInv(s: State, r: ReservationId, w: World)
    requires Inv(s) && Sound(w) && FirstRun(s, r) && s.reservations[r].server.Some?
    ensures Inv(Loaded(s, r, w))
  {
    if w.answers(s.tally.loads) || s.reservations[r].retries + 1 < MAX_LOAD_RETRIES {
      LoadedOnceKeepsInv(s, r, w);
    } else {
      CappedKeepsInv(s, r, w);
      RequestedKeepsInv(Capped(s, r, w), s.reservations[r].match_, w);
    }
  }

  lemma DoKeepsInv(s: State, step: Step)
    requires Inv(s) && Sound(step.world)
    ensures Inv(Do(s, step))
  {
    hide Inv;
    match step.command
    case Assign(m) => RequestedKeepsInv(s, m, step.world);
    case Drive(r) =>
      if FirstRun(s, r) {
        if s.reservations[r].server.Some? {
          LoadedKeepsInv(s, r, step.world);
        } else {
          PlacedKeepsInv(s, r, step.world);
        }
      }
    case Went(r, live) => WentKeepsInv(s, r, live);
    case Finish(r, final) => FinishKeepsInv(s, r, final);
    case Restore(v) => RestoreKeepsInv(s, v);
  }

  // ---------------------------------------------------------------- whole runs

  ghost predicate AllSound(steps: seq<Step>) {
    forall i | 0 <= i < |steps| :: Sound(steps[i].world)
  }

  /** Over any run: one open reservation per match and per server, none past the cap. */
  lemma {:induction false} RunKeepsInv(s: State, steps: seq<Step>)
    requires Inv(s) && AllSound(steps)
    ensures Inv(Run(s, steps))
    decreases |steps|
  {
    if steps != [] {
      RunKeepsInv(s, steps[..|steps| - 1]);
      DoKeepsInv(Run(s, steps[..|steps| - 1]), steps[|steps| - 1]);
    }
  }

  /** Over any run of requests, passes, cancellations and events, late ones included: at most one
      open reservation for a match and for a server; one on its first run has fewer failed loads
      than the cap, so one over the cap is an ended one that an event opened again. */
  lemma OpenReservations(fleet: map<ServerId, ServerStatus>, steps: seq<Step>, r: ReservationId, q: ReservationId)
    requires AllSound(steps)
    requires IsOpen(Run(Start(fleet), steps), r) && IsOpen(Run(Start(fleet), steps), q)
    ensures var t := Run(Start(fleet), steps);
            && (t.reservations[r].retries >= MAX_LOAD_RETRIES ==> t.reservations[r].settled)
            && (FirstRun(t, r) ==> !t.reservations[r].settled)
            && (t.reservations[r].match_ == t.reservations[q].match_ ==> r == q)
            && (t.reservations[r].server.Some? && t.reservations[r].server == t.reservations[q].server ==> r == q)
  {
    RunKeepsInv(Start(fleet), steps);
    hide Schedules.Fold, Do;
    assert Sane(Run(Start(fleet), steps).reservations[r]);
  }

  /** A reservation that has ended once is never loaded again, opened by a late event or not. */
  lemma {:induction false} EndedNeverLoads(s: State, steps: seq<Step>, r: ReservationId)
    requires Inv(s) && AllSound(steps) && r in s.reservations && s.reservations[r].settled
    ensures var t := Run(s, steps);
            && r in t.reservations && t.reservations[r].settled &&
               t.reservations[r].retries == s.reservations[r].retries
            && !t.reservations[r].status.Pending? && !t.reservations[r].status.Configuring?
    decreases |steps|
  {
    RunKeepsInv(s, steps);
    if steps != [] {
      var n := |steps| - 1;
      EndedNeverLoads(s, steps[..n], r);
      RunKeepsInv(s, steps[..n]);
      EndedStep(Run(s, steps[..n]), steps[n], r);
    }
    assert Sane(Run(s, steps).reservations[r]);
  }

  lemma EndedStep(s: State, step: Step, r: ReservationId)
    requires Inv(s) && Sound(step.world) && r in s.reservations && s.reservations[r].settled
    ensures var t := Do(s, step);
            r in t.reservations && t.reservations[r].settled && t.reservations[r].retries == s.reservations[r].retries
  {
    assert Sane(s.reservations[r]);
    assert r < s.next;
    var w := step.world;
    match step.command
    case Assign(m) => RequestKeepsOthers(s, m, w, r);
    case Drive(q) =>
      if q in s.reservations && FirstRun(s, q) {
        assert q != r;
        DriveKeepsOthers(s, q, w, r);
      }
    case Went(q, live) =>
      if q in s.reservations && (IsOpen(s, q) || !Refused(s, q)) {
        WentEffects(s, q, live);
      }
    case Finish(q, final) =>
      if q in s.reservations && !Open(final) {
        FinishEffects(s, q, final);
      }
    case Restore(_) =>
  }

  lemma PlacedKeepsOthers(s: State, q: ReservationId, w: World, r: ReservationId)
    requires q in s.reservations && r in s.reservations && q != r
    ensures r in Placed(s, q, w).reservations && Placed(s, q, w).reservations[r] == s.reservations[r]
  {
  }

  lemma RequestKeepsOthers(s: State, m: MatchId, w: World, r: ReservationId)
    requires r in s.reservations && r < s.next
    ensures r in Requested(s, m, w).reservations && Requested(s, m, w).reservations[r] == s.reservations[r]
  {
    hide Placed;
    PlacedKeepsOthers(Created(s, m), s.next, w, r);
  }

  lemma DriveKeepsOthers(s: State, q: ReservationId, w: World, r: ReservationId)
    requires Inv(s) && FirstRun(s, q) && r in s.reservations && q != r && r < s.next
    ensures r in DoDrive(s, q, w).reservations && DoDrive(s, q, w).reservations[r] == s.reservations[r]
  {
    hide Placed, Requested, Capped;
    if s.reservations[q].server.Some? {
      CappedRows(s, q, w);
      RequestKeepsOthers(Capped(s, q, w), s.reservations[q].match_, w, r);
    } else {
      PlacedKeepsOthers(s, q, w, r);
    }
  }

  /** A late event opens an ended reservation exactly when no index refuses: its match has no
      open reservation and its server is under none. Over the cap or not makes no difference. */
  lemma LateEventReopensExactly(s: State, r: ReservationId, live: bool)
    requires Inv(s) && r in s.reservations && !IsOpen(s, r)
    ensures IsOpen(DoWent(s, r, live), r) <==> !Refused(s, r)
    ensures r in DoWent(s, r, live).reservations &&
            DoWent(s, r, live).reservations[r].retries == s.reservations[r].retries
  {
    if !Refused(s, r) {
      WentEffects(s, r, live);
    }
  }

  predicate ReadyPastTheCap(t: State, r: ReservationId) {
    r in t.reservations && t.reservations[r].status.Ready? && t.reservations[r].retries >= MAX_LOAD_RETRIES
  }

  /** A run that leaves a reservation ready with three failed loads: its server never loads, the
      match is over by the third time, and then the server reports a start after all. */
  lemma RevivedPastTheCap(w: World, late: World) returns (steps: seq<Step>)
    requires Sound(w) && w.assignable(0) && w.configurable(0) && 0 in w.eligible && (forall n :: !w.answers(n)) &&
             w.marks(0)
    requires Sound(late) && !late.assignable(0) && (forall n :: !late.answers(n)) && late.marks(0)
    ensures AllSound(steps) && ReadyPastTheCap(Run(Start(map[0 := Available]), steps), 0)
  {
    hide Run, ReadyPastTheCap, AllSound, Requested, DoDrive;
    var a, b, d, e := Step(Assign(0), w), Step(Drive(0), w), Step(Drive(0), late), Step(Went(0, false), w);
    var s := Start(map[0 := Available]);
    steps := [a, b, d, e];
    FourSteps(s, a, b, d, e);
    FirstRefusal(w);
    hide Do;
    SecondRefusal(Do(s, a), w);
    CapAndLateStart(Do(Do(s, a), b), late, w);
    AllFour(a, b, d, e);
  }

  lemma AllFour(a: Step, b: Step, d: Step, e: Step)
    requires Sound(a.world) && Sound(b.world) && Sound(d.world) && Sound(e.world)
    ensures AllSound([a, b, d, e])
  {
  }

  lemma FourSteps(s: State, a: Step, b: Step, d: Step, e: Step)
    ensures Run(s, [a, b, d, e]) == Do(Do(Do(Do(s, a), b), d), e)
  {
    hide Do;
    Schedules.FoldOne(Do, s, a);
    Schedules.FoldSnoc(Do, s, [a], b);
    Schedules.FoldSnoc(Do, s, [a] + [b], d);
    Schedules.FoldSnoc(Do, s, [a] + [b] + [d], e);
    assert [a] + [b] + [d] + [e] == [a, b, d, e];
  }

  function Refusing(n: nat): State {
    State(map[0 := Reservation(0, Pending, Some(0), n, false)], map[0 := Reserved], 1,
          Tally(n, map[0 := n], map[], 0, 0, {}))
  }

  lemma FirstRefusal(w: World)
    requires Sound(w) && w.assignable(0) && w.configurable(0) && 0 in w.eligible && !w.answers(0)
    ensures Do(Start(map[0 := Available]), Step(Assign(0), w)) == Refusing(1)
  {
    var s := Start(map[0 := Available]);
    var t := Created(s, 0);
    assert !HasOpen(s, 0);
    assert t.reservations == map[0 := Reservation(0, Pending, None, 0, false)] && t.servers == s.servers;
    OnlyOneToPick(t, w);
    RefusedAtOnce(t, w);
  }

  lemma OnlyOneToPick(t: State, w: World)
    requires Sound(w) && 0 in w.eligible && t.servers == map[0 := Available]
    ensures Candidates(t, w) == {0} && w.pick(Candidates(t, w)) == 0
  {
    assert Candidates(t, w) == {0};
    assert w.pick(Candidates(t, w)) in Candidates(t, w);
  }

  lemma RefusedAtOnce(t: State, w: World)
    requires t.reservations == map[0 := Reservation(0, Pending, None, 0, false)] && t.servers == map[0 := Available]
    requires t.next == 1 && t.tally == Tally(0, map[], map[], 0, 0, {})
    requires Candidates(t, w) == {0} && w.pick(Candidates(t, w)) == 0 && !w.answers(0)
    ensures Placed(t, 0, w) == Refusing(1)
  {
    assert !Taken(t, 0, 0);
    hide Candidates, Taken;
  }

  lemma SecondRefusal(s: State, w: World)
    requires s == Refusing(1) && !w.answers(1)
    ensures Do(s, Step(Drive(0), w)) == Refusing(2)
  {
  }

  lemma CapAndLateStart(s: State, late: World, w: World)
    requires s == Refusing(2) && !late.answers(2) && !late.assignable(0) && late.marks(0)
    ensures ReadyPastTheCap(Do(Do(s, Step(Drive(0), late)), Step(Went(0, false), w)), 0)
  {
    var r := Do(s, Step(Drive(0), late));
    assert r == Capped(s, 0, late);
    assert r.reservations == map[0 := Reservation(0, Failed, Some(0), 3, true)];
    assert !HasOpen(r, 0) && !Taken(r, 0, 0);
  }

  lemma PlacedKeepsFleet(s: State, r: ReservationId, w: World)
    requires Sound(w) && r in s.reservations
    ensures Placed(s, r, w).servers.Keys == s.servers.Keys
  {
    if Candidates(s, w) != {} {
      assert w.pick(Candidates(s, w)) in Candidates(s, w);
    }
    hide Taken;
  }

  lemma DoKeepsFleet(s: State, step: Step)
    requires Inv(s) && Sound(step.world)
    ensures Do(s, step).servers.Keys == s.servers.Keys
  {
    hide Placed, Capped, DoWent, DoFinish;
    var w := step.world;
    match step.command
    case Assign(m) => PlacedKeepsFleet(Created(s, m), s.next, w);
    case Drive(r) =>
      if FirstRun(s, r) && s.reservations[r].server.Some? {
        FirstRunServer(s, r);
        CappedEffects(s, r, w);
        hide Inv;
        PlacedKeepsFleet(Created(Capped(s, r, w), s.reservations[r].match_), Capped(s, r, w).next, w);
      } else if r in s.reservations {
        PlacedKeepsFleet(s, r, w);
      }
    case Went(r, live) =>
      if r in s.reservations && (IsOpen(s, r) || !Refused(s, r)) {
        WentEffects(s, r, live);
      } else {
        EventIgnored(s, r, live);
      }
    case Finish(r, final) =>
      if r in s.reservations && !Open(final) {
        FinishEffects(s, r, final);
      } else {
        FinishIgnored(s, r, final);
      }
    case Restore(v) => BrokenInFleet(s);
  }

  lemma EventIgnored(s: State, r: ReservationId, live: bool)
    requires r !in s.reservations || (!IsOpen(s, r) && Refused(s, r))
    ensures DoWent(s, r, live) == s
  {
  }

  lemma FinishIgnored(s: State, r: ReservationId, final: Status)
    requires r !in s.reservations || Open(final)
    ensures DoFinish(s, r, final) == s
  {
  }

  lemma FirstRunServer(s: State, r: ReservationId)
    requires Inv(s) && FirstRun(s, r) && s.reservations[r].server.Some?
    ensures s.reservations[r].server.value in s.servers && s.reservations[r].server.value !in s.tally.broken
    ensures !s.reservations[r].settled
  {
    assert Sane(s.reservations[r]) && Known(s, s.reservations[r]);
  }

  lemma ServerOfOpen(s: State, r: ReservationId)
    requires Inv(s) && IsOpen(s, r) && !s.reservations[r].settled && s.reservations[r].server.Some?
    ensures s.reservations[r].server.value in s.servers && s.reservations[r].server.value !in s.tally.broken
  {
    assert Known(s, s.reservations[r]);
  }

  lemma BrokenInFleet(s: State)
    requires Inv(s)
    ensures s.tally.broken <= s.servers.Keys && s.tally.capped == |s.tally.broken| + s.tally.lifted
  {
  }

  lemma {:induction false} RunKeepsFleet(s: State, steps: seq<Step>)
    requires Inv(s) && AllSound(steps)
    ensures Run(s, steps).servers.Keys == s.servers.Keys
    decreases |steps|
  {
    if steps != [] {
      hide Inv, Do;
      RunKeepsFleet(s, steps[..|steps| - 1]);
      RunKeepsInv(s, steps[..|steps| - 1]);
      DoKeepsFleet(Run(s, steps[..|steps| - 1]), steps[|steps| - 1]);
    }
  }

  // ---------------------------------------------------------------- no server leaks

  predicate Busy(status: ServerStatus) {
    status.Reserved? || status.Loading? || status.InMatch?
  }

  /** The server a reservation had is available if it was busy, and as marked if it was not;
      no other server changes. */
  ghost predicate Freed(was: map<ServerId, ServerStatus>, now: map<ServerId, ServerStatus>, held: Option<ServerId>) {
    && now.Keys == was.Keys
    && forall v | v in was ::
         now[v] == if held == Some(v) && (was[v].Reserved? || was[v].Loading? || was[v].InMatch?)
                   then Available else was[v]
  }

  lemma FinishFrees(s: State, r: ReservationId, final: Status, w: World)
    requires r in s.reservations && !Open(final)
    ensures var t := Do(s, Step(Finish(r, final), w));
            && Freed(s.servers, t.servers, s.reservations[r].server)
            && r in t.reservations && t.reservations[r].status == final
  {
  }

  predicate Holds(s: State, r: ReservationId, v: ServerId) {
    IsOpen(s, r) && s.reservations[r].server == Some(v)
  }

  ghost predicate Held(s: State, v: ServerId) {
    exists r: ReservationId :: Holds(s, r, v)
  }

  ghost predicate NoLeak(s: State) {
    forall v | v in s.servers && Busy(s.servers[v]) :: Held(s, v)
  }

  /** Every busy server keeps its holder, or has a new one. */
  lemma StaysHeld(s: State, t: State, except: ReservationId)
    requires NoLeak(s)
    requires forall r, v | Holds(s, r, v) && r != except :: Holds(t, r, v)
    requires forall v | v in t.servers && Busy(t.servers[v]) ::
               Holds(t, except, v) || (v in s.servers && Busy(s.servers[v]) && !Holds(s, except, v))
    ensures NoLeak(t)
  {
    forall v | v in t.servers && Busy(t.servers[v]) ensures Held(t, v) {
      if !Holds(t, except, v) {
        var r: ReservationId :| Holds(s, r, v);
        assert Holds(t, r, v);
      }
    }
  }

  lemma LoadedOnceHolds(s: State, r: ReservationId, w: World)
    requires NoLeak(s) && IsOpen(s, r) && s.reservations[r].server.Some?
    ensures NoLeak(LoadedOnce(s, r, w))
  {
    var t := LoadedOnce(s, r, w);
    assert forall q, v :: Holds(s, q, v) <==> Holds(t, q, v);
    assert Holds(t, r, s.reservations[r].server.value);
    hide LoadedOnce;
    forall v | v in t.servers && Busy(t.servers[v]) ensures Held(t, v) {
      if v != s.reservations[r].server.value {
        var q: ReservationId :| Holds(s, q, v);
        assert Holds(t, q, v);
      }
    }
  }

  lemma AllocatedHolds(s: State, r: ReservationId, v: ServerId)
    requires NoLeak(s) && IsOpen(s, r) && s.reservations[r].server.None?
    ensures NoLeak(Allocated(s, r, v))
  {
    StaysHeld(s, Allocated(s, r, v), r);
  }

  lemma PlacedHolds(s: State, r: ReservationId, w: World)
    requires NoLeak(s) && IsOpen(s, r) && s.reservations[r].server.None?
    ensures NoLeak(Placed(s, r, w))
  {
    if Placeable(s, r, w) {
      hide Candidates, Taken;
      var v := w.pick(Candidates(s, w));
      AllocatedHolds(s, r, v);
      assert IsOpen(Allocated(s, r, v), r);
      LoadedOnceHolds(Allocated(s, r, v), r, w);
    }
  }

  lemma RequestedHolds(s: State, m: MatchId, w: World)
    requires Inv(s) && NoLeak(s)
    ensures NoLeak(Requested(s, m, w))
  {
    if !HasOpen(s, m) && w.assignable(m) {
      var t := Created(s, m);
      StaysHeld(s, t, s.next);
      if w.configurable(m) {
        hide Placed;
        PlacedHolds(t, s.next, w);
      } else {
        StaysHeld(s, Closed(t, s.next, Failed), s.next);
      }
    }
  }

  lemma CappedHolds(s: State, r: ReservationId, w: World)
    requires Inv(s) && NoLeak(s) && FirstRun(s, r) && s.reservations[r].server.Some?
    ensures NoLeak(Capped(s, r, w))
  {
    CappedEffects(s, r, w);
    CappedIdles(s, r, w);
    hide Capped, Inv;
    StaysHeld(s, Capped(s, r, w), r);
  }

  lemma CappedIdles(s: State, r: ReservationId, w: World)
    requires FirstRun(s, r) && s.reservations[r].server.Some? && s.reservations[r].server.value in s.servers
    ensures s.reservations[r].server.value in Capped(s, r, w).servers
    ensures !Busy(Capped(s, r, w).servers[s.reservations[r].server.value])
  {
  }

  lemma LoadedHolds(s: State, r: ReservationId, w: World)
    requires Inv(s) && NoLeak(s) && Sound(w) && FirstRun(s, r) && s.reservations[r].server.Some?
    ensures NoLeak(Loaded(s, r, w))
  {
    hide Requested, Capped, Inv, NoLeak;
    if w.answers(s.tally.loads) || s.reservations[r].retries + 1 < MAX_LOAD_RETRIES {
      LoadedOnceHolds(s, r, w);
    } else {
      CappedHolds(s, r, w);
      CappedKeepsInv(s, r, w);
      RequestedHolds(Capped(s, r, w), s.reservations[r].match_, w);
    }
  }

  lemma WentHolds(s: State, r: ReservationId, live: bool)
    requires Inv(s) && NoLeak(s)
    ensures NoLeak(DoWent(s, r, live))
  {
    if r in s.reservations && (IsOpen(s, r) || !Refused(s, r)) {
      hide Inv, Refused;
      StaysHeld(s, DoWent(s, r, live), r);
    }
  }

  lemma FinishHolds(s: State, r: ReservationId, final: Status)
    requires Inv(s) && NoLeak(s)
    ensures NoLeak(DoFinish(s, r, final))
  {
    if r in s.reservations && !Open(final) {
      hide Inv;
      StaysHeld(s, DoFinish(s, r, final), r);
    }
  }

  lemma RestoreHolds(s: State, v: ServerId)
    requires Inv(s) && NoLeak(s)
    ensures NoLeak(DoRestore(s, v))
  {
    StaysHeld(s, DoRestore(s, v), s.next);
  }

  lemma DoHolds(s: State, step: Step)
    requires Inv(s) && NoLeak(s) && Sound(step.world)
    ensures NoLeak(Do(s, step))
  {
    hide NoLeak, Inv;
    match step.command
    case Assign(m) => RequestedHolds(s, m, step.world);
    case Drive(r) =>
      if FirstRun(s, r) {
        if s.reservations[r].server.Some? {
          LoadedHolds(s, r, step.world);
        } else {
          PlacedHolds(s, r, step.world);
        }
      }
    case Went(r, live) => WentHolds(s, r, live);
    case Finish(r, final) => FinishHolds(s, r, final);
    case Restore(v) => RestoreHolds(s, v);
  }

  lemma {:induction false} RunHolds(s: State, steps: seq<Step>)
    requires Inv(s) && NoLeak(s) && AllSound(steps)
    ensures NoLeak(Run(s, steps))
    decreases |steps|
  {
    if steps != [] {
      hide NoLeak, Inv, Do;
      RunHolds(s, steps[..|steps| - 1]);
      RunKeepsInv(s, steps[..|steps| - 1]);
      DoHolds(Run(s, steps[..|steps| - 1]), steps[|steps| - 1]);
    }
  }

  /** From a fleet with no busy server, over any run: a server that is reserved, loading or in a
      match is held by an open reservation, and by one only. */
  lemma NoServerLeaks(fleet: map<ServerId, ServerStatus>, steps: seq<Step>, v: ServerId)
    requires AllSound(steps) && forall u | u in fleet :: !Busy(fleet[u])
    requires v in Run(Start(fleet), steps).servers && Busy(Run(Start(fleet), steps).servers[v])
    ensures exists r: ReservationId :: Holds(Run(Start(fleet), steps), r, v) &&
              forall q: ReservationId | Holds(Run(Start(fleet), steps), q, v) :: q == r
  {
    hide Do, Schedules.Fold;
    var t := Run(Start(fleet), steps);
    RunHolds(Start(fleet), steps);
    RunKeepsInv(Start(fleet), steps);
    hide Run;
    var r: ReservationId :| Holds(t, r, v);
    assert forall q: ReservationId | Holds(t, q, v) :: q == r;
  }

  /** Failed loads of a match, over any run from an empty table: three for each server, plus
      three for each quarantine that was lifted or never landed, plus two for each reservation
      of the match that ended in another way. */
  lemma FailuresBounded(fleet: map<ServerId, ServerStatus>, steps: seq<Step>, m: MatchId)
    requires AllSound(steps)
    ensures var t := Run(Start(fleet), steps);
            Count(t.tally.failures, m) <= 3 * |fleet| + 3 * t.tally.lifted + 2 * Count(t.tally.ended, m)
  {
    var t := Run(Start(fleet), steps);
    RunKeepsInv(Start(fleet), steps);
    RunKeepsFleet(Start(fleet), steps);
    hide Schedules.Fold, Do;
    WithinFleet(t, m);
    assert t.servers.Keys == fleet.Keys;
  }

  /** An open reservation with a failed load holds a server that is not yet quarantined. */
  lemma WithinFleet(t: State, m: MatchId)
    requires Inv(t)
    ensures Count(t.tally.failures, m) <= 3 * |t.servers| + 3 * t.tally.lifted + 2 * Count(t.tally.ended, m)
  {
    BrokenInFleet(t);
    assert |t.servers.Keys| == |t.servers|;
    if HasOpen(t, m) {
      var r :| r in t.reservations && IsOpen(t, r) && t.reservations[r].match_ == m;
      assert Sane(t.reservations[r]);
      if Owed(t.reservations[r]) > 0 {
        ServerOfOpen(t, r);
        Smaller(t.tally.broken + {t.reservations[r].server.value}, t.servers.Keys);
      } else {
        Smaller(t.tally.broken, t.servers.Keys);
      }
    } else {
      Smaller(t.tally.broken, t.servers.Keys);
    }
  }

  /** With no quarantine lifted and no reservation ended from outside, three per server. */
  lemma AtMostThreePerServer(fleet: map<ServerId, ServerStatus>, steps: seq<Step>, m: MatchId)
    requires AllSound(steps)
    requires Run(Start(fleet), steps).tally.lifted == 0 && m !in Run(Start(fleet), steps).tally.ended
    ensures Count(Run(Start(fleet), steps).tally.failures, m) <= 3 * |fleet|
  {
    hide Schedules.Fold, Do;
    FailuresBounded(fleet, steps, m);
  }

  // ---------------------------------------------------------------- one entry

  /** A request that goes ahead adds one row and sends at most one LoadMatch: the row has failed
      without a config, waits with no server, keeps a free one, now reserved, after a refusal, or
      is configuring on one that is loading. No other row and no other server changes. */
  lemma RequestAddsOne(s: State, m: MatchId, w: World)
    requires Sound(w) && !HasOpen(s, m) && w.assignable(m)
    ensures var t := Requested(s, m, w);
            && t.reservations.Keys == s.reservations.Keys + {s.next}
            && t.reservations == s.reservations[s.next := t.reservations[s.next]]
            && t.reservations[s.next].match_ == m
            && (IsOpen(t, s.next) <==> w.configurable(m))
            && (t.reservations[s.next].server.Some? ==> t.reservations[s.next].server.value in Candidates(s, w))
            && t.tally.loads - s.tally.loads == (if t.reservations[s.next].server.Some? then 1 else 0)
            && (t.reservations[s.next].server.None? && w.configurable(m) ==>
                  !Placeable(Created(s, m), s.next, w) && t.reservations[s.next].status.Pending?)
            && (t.reservations[s.next].status.Configuring? <==>
                  t.reservations[s.next].server.Some? && t.reservations[s.next].retries == 0)
            && t.reservations[s.next].retries <= 1
    ensures var t := Requested(s, m, w);
            var row := t.reservations[s.next];
            && row.status == (if !w.configurable(m) then Failed
                              else if row.server.Some? && w.answers(s.tally.loads) then Configuring else Pending)
            && t.servers == if row.server.None? then s.servers
                            else s.servers[row.server.value := if row.status.Configuring? then Loading else Reserved]
  {
    assert Candidates(Created(s, m), w) == Candidates(s, w);
    if Candidates(s, w) != {} {
      assert w.pick(Candidates(s, w)) in Candidates(s, w);
    }
  }

  lemma CappedLoads(s: State, r: ReservationId, w: World)
    requires r in s.reservations && s.reservations[r].server.Some?
    ensures Capped(s, r, w).tally.loads == s.tally.loads + 1
  {
  }

  /** However the agents answer, one entry sends at most two LoadMatch, and a request at most one. */
  lemma LoadsPerEntry(s: State, step: Step)
    requires Sound(step.world)
    ensures Do(s, step).tally.loads <=
              s.tally.loads + (if step.command.Drive? then 2 else if step.command.Assign? then 1 else 0)
  {
    hide Requested, Capped, Placed, Candidates;
    var w := step.world;
    match step.command
    case Assign(m) => RequestLoads(s, m, w);
    case Drive(r) =>
      if r in s.reservations {
        if s.reservations[r].server.Some? {
          CappedLoads(s, r, w);
          RequestLoads(Capped(s, r, w), s.reservations[r].match_, w);
        } else {
          PlacedLoads(s, r, w);
        }
      }
    case _ =>
  }

  /** A drive sends a LoadMatch exactly when the reservation is pending or configuring and has a
      server, or, pending, finds a free one that no index refuses. */
  lemma DriveLoadsExactly(s: State, r: ReservationId, w: World)
    requires Inv(s) && Sound(w)
    ensures Do(s, Step(Drive(r), w)).tally.loads > s.tally.loads <==>
              FirstRun(s, r) && (s.reservations[r].server.Some? || Placeable(s, r, w))
  {
    hide Requested, Candidates, Taken;
    if FirstRun(s, r) {
      assert Sane(s.reservations[r]);
      if s.reservations[r].server.Some? {
        CappedLoads(s, r, w);
        LoadsGrow(Capped(s, r, w), s.reservations[r].match_, w);
      }
    }
  }

  lemma LoadsGrow(s: State, m: MatchId, w: World)
    ensures Requested(s, m, w).tally.loads >= s.tally.loads
  {
    hide Candidates, Taken;
  }

  lemma RequestLoads(s: State, m: MatchId, w: World)
    requires Sound(w)
    ensures Requested(s, m, w).tally.loads <= s.tally.loads + 1
  {
    hide Placed;
    PlacedLoads(Created(s, m), s.next, w);
  }

  lemma PlacedLoads(s: State, r: ReservationId, w: World)
    requires r in s.reservations
    ensures Placed(s, r, w).tally.loads <= s.tally.loads + 1
  {
  }

  /** A request leaves the match with exactly one open reservation, unless it may not have a
      server or its config does not build; asking again changes nothing. */
  lemma RequestLeavesOne(s: State, m: MatchId, w: World)
    requires Inv(s) && Sound(w)
    ensures HasOpen(Requested(s, m, w), m) <==> HasOpen(s, m) || (w.assignable(m) && w.configurable(m))
    ensures HasOpen(s, m) || HasOpen(Requested(s, m, w), m) ==>
              Requested(Requested(s, m, w), m, w) == Requested(s, m, w)
  {
    if !HasOpen(s, m) && w.assignable(m) {
      RequestAddsOne(s, m, w);
      hide Placed, Candidates;
      var t := Requested(s, m, w);
      if HasOpen(t, m) {
        var r :| r in t.reservations && IsOpen(t, r) && t.reservations[r].match_ == m;
        assert r == s.next || IsOpen(s, r);
      }
    }
  }

  /** After the last failure the server is out of the way: if the mark landed, the replacement
      is on another server or still queued, and carries at most one failed load of its own. */
  lemma ReplacementIsElsewhere(s: State, r: ReservationId, w: World, q: ReservationId)
    requires Inv(s) && Sound(w) && FirstRun(s, r) && s.reservations[r].server.Some?
    requires !w.answers(s.tally.loads) && s.reservations[r].retries + 1 >= MAX_LOAD_RETRIES && w.marks(s.tally.capped)
    requires IsOpen(Loaded(s, r, w), q) && Loaded(s, r, w).reservations[q].match_ == s.reservations[r].match_
    ensures q == s.next && q != r
    ensures Loaded(s, r, w).reservations[q].server != s.reservations[r].server
    ensures Loaded(s, r, w).reservations[q].retries <= 1
    ensures r in Loaded(s, r, w).reservations && Loaded(s, r, w).reservations[r].status == Failed
  {
    var t, m := Capped(s, r, w), s.reservations[r].match_;
    assert r < s.next;
    assert Loaded(s, r, w) == Requested(t, m, w);
    hide *;
    CappedKeepsInv(s, r, w);
    CappedRow(s, r, w);
    AfterRequest(t, m, w, s.reservations[r].server.value, q);
  }

  /** The third failed load: the reservation has failed for good and its server is marked, or, with
      the mark lost, free for the next one. The match has a new reservation exactly when it
      still wants a server and its config builds. */
  lemma AtTheCap(s: State, r: ReservationId, w: World)
    requires Inv(s) && Sound(w) && FirstRun(s, r) && s.reservations[r].server.Some?
    requires !w.answers(s.tally.loads) && s.reservations[r].retries + 1 >= MAX_LOAD_RETRIES
    ensures var t, row, v := Do(s, Step(Drive(r), w)), s.reservations[r], s.reservations[r].server.value;
            && r in t.reservations
            && t.reservations[r] == row.(status := Failed, retries := row.retries + 1, settled := true)
            && v in t.servers
            && (w.marks(s.tally.capped) ==> t.servers[v].Broken?)
            && (!w.marks(s.tally.capped) ==>
                  !Busy(t.servers[v]) || (s.next in t.reservations && t.reservations[s.next].server == Some(v)))
            && (HasOpen(t, row.match_) <==> w.assignable(row.match_) && w.configurable(row.match_))
  {
    var c, m := Capped(s, r, w), s.reservations[r].match_;
    assert r < s.next;
    assert Do(s, Step(Drive(r), w)) == Requested(c, m, w);
    CappedKeepsInv(s, r, w);
    CappedEffects(s, r, w);
    CappedIdles(s, r, w);
    RequestLeavesOne(c, m, w);
    hide Capped, Inv, HasOpen, Do, Requested;
    AfterTheCap(c, m, w, r, s.reservations[r].server.value);
  }

  lemma AfterTheCap(c: State, m: MatchId, w: World, r: ReservationId, v: ServerId)
    requires Sound(w) && r in c.reservations && r < c.next && v in c.servers && !HasOpen(c, m)
    ensures var t := Requested(c, m, w);
            && r in t.reservations && t.reservations[r] == c.reservations[r] && v in t.servers
            && (c.servers[v].Available? || t.servers[v] == c.servers[v])
            && (t.servers[v] == c.servers[v] ||
                (c.next in t.reservations && t.reservations[c.next].server == Some(v)))
  {
    if w.assignable(m) {
      RequestAddsOne(c, m, w);
      assert forall u | u in Candidates(c, w) :: c.servers[u].Available?;
    } else {
      NotAssignable(c, m, w);
    }
    hide *;
  }

  lemma CappedRow(s: State, r: ReservationId, w: World)
    requires Inv(s) && FirstRun(s, r) && s.reservations[r].server.Some?
    ensures var t, v := Capped(s, r, w), s.reservations[r].server.value;
            && t.next == s.next && r in t.reservations && t.reservations[r].status == Failed
            && (w.marks(s.tally.capped) ==> v in t.servers && t.servers[v].Broken?)
  {
    CappedEffects(s, r, w);
  }

  lemma AfterRequest(t: State, m: MatchId, w: World, v: ServerId, q: ReservationId)
    requires Inv(t) && Sound(w) && !HasOpen(t, m) && v in t.servers && t.servers[v].Broken?
    ensures forall r | r in t.reservations ::
              r in Requested(t, m, w).reservations && Requested(t, m, w).reservations[r] == t.reservations[r]
    ensures IsOpen(Requested(t, m, w), q) && Requested(t, m, w).reservations[q].match_ == m ==>
              var row := Requested(t, m, w).reservations[q];
              q == t.next && row.server != Some(v) && row.retries <= 1
  {
    if w.assignable(m) {
      RequestAddsOne(t, m, w);
    } else {
      NotAssignable(t, m, w);
    }
    hide Requested;
    assert IsOpen(t, q) ==> t.reservations[q].match_ != m;
  }

  lemma NotAssignable(s: State, m: MatchId, w: World)
    requires !w.assignable(m)
    ensures Requested(s, m, w) == s
  {
  }
}
