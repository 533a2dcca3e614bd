/**
 Webhook events: inserted once per dedupe key, processed on arrival, and retried once by
 the maintenance sweep. A handler may die after processing an event and before marking it;
 the bounds below count those deaths, and are the promised ones when there are none.
*/
module ServerEvents {
  import opened Options
  import Schedules
  import opened Collections

  type ReservationId = nat

  datatype Kind = SeriesStart | GoingLive | RoundEnd | MapResult | SeriesEnd | BackupUploaded | Unhandled(name: string)

  /** The dedupe index: absent map and round numbers count as -1. */
  datatype Key = Key(reservation: ReservationId, kind: Kind, mapNumber: int, round: int)

  function DedupeKey(reservation: ReservationId, kind: Kind, mapNumber: Option<int>, round: Option<int>): Key {
    Key(reservation, kind,
        if mapNumber.Some? then mapNumber.value else -1,
        if round.Some? then round.value else -1)
  }

  predicate SameNumber(a: Option<int>, b: Option<int>) {
    a == b || (a == None && b == Some(-1)) || (a == Some(-1) && b == None)
  }

  /** Two deliveries are one event exactly when reservation, kind, map and round agree; a missing
      number is told from every other but -1. */
  lemma SameKeyExactly(r: ReservationId, q: ReservationId, kind: Kind, other: Kind, map1: Option<int>,
                       map2: Option<int>, round1: Option<int>, round2: Option<int>)
    ensures DedupeKey(r, kind, map1, round1) == DedupeKey(q, other, map2, round2) <==>
              r == q && kind == other && SameNumber(map1, map2) && SameNumber(round1, round2)
  {
  }

  /** Replays of these are processed again; every other duplicate is dropped. */
  predicate Lifecycle(kind: Kind) {
    kind.SeriesStart? || kind.GoingLive?
  }

  /** A stored event. The counters are not columns: how often it was processed, how often
      that succeeded, and how many handlers died holding it. */
  datatype Event = Event(processed: bool, received: int, attempts: nat, successes: nat, crashes: nat)

  datatype Status = Configuring | Ready | Live | Completed

  datatype State = State(events: map<Key, Event>, reservations: map<ReservationId, Status>)

  /** How processing ends. It can fail after the reservation was written: a tied series_end
      releases the reservation and then fails, a series_start fails when the write of the server
      does not land. */
  datatype Outcome = Success | Failure(late: bool)

  /** How processing ends, and whether the handler lives to mark the row. */
  datatype Fate = Fate(outcome: Outcome, dies: bool)

  const LIMIT := 20
  const MIN_AGE := 60

  // ---------------------------------------------------------------- processing

  /** Processing gets as far as the write of the reservation's status. */
  predicate Moves(kind: Kind, outcome: Outcome) {
    match kind
    case SeriesStart => outcome.Success? || outcome.late
    case GoingLive => outcome.Success?
    case SeriesEnd => outcome.Success? || outcome.late
    case _ => false
  }

  /** `process_event`, as far as the reservation's status goes. */
  function Settle(reservations: map<ReservationId, Status>, key: Key, outcome: Outcome): map<ReservationId, Status> {
    if key.reservation !in reservations || !Moves(key.kind, outcome) then reservations
    else
      reservations[key.reservation :=
        if key.kind.SeriesStart? then Ready else if key.kind.GoingLive? then Live else Completed]
  }

  function Tried(e: Event, outcome: Outcome): Event {
    e.(attempts := e.attempts + 1, successes := e.successes + if outcome.Success? then 1 else 0)
  }

  /** `ingest_server_event`. */
  function Ingest(s: State, key: Key, now: int, fate: Fate): State {
    if key !in s.events then
      var e := Tried(Event(false, now, 0, 0, 0), fate.outcome);
      State(s.events[key := if fate.dies then e.(crashes := 1) else e.(processed := fate.outcome.Success?)],
            Settle(s.reservations, key, fate.outcome))
    else if Lifecycle(key.kind) then s.(reservations := Settle(s.reservations, key, fate.outcome))
    else s
  }

  /** The insert committed and the handler died before processing. */
  function InsertOnly(s: State, key: Key, now: int): State {
    if key in s.events then s else s.(events := s.events[key := Event(false, now, 0, 0, 1)])
  }

  /** One event of the sweep. It is parked whatever processing said, unless the pass dies. */
  function Retry(s: State, key: Key, fate: Fate): State {
    if key !in s.events || s.events[key].processed then s
    else if key.reservation !in s.reservations then s.(events := s.events[key := s.events[key].(processed := true)])
    else
      var e := Tried(s.events[key], fate.outcome);
      State(s.events[key := if fate.dies then e.(crashes := e.crashes + 1) else e.(processed := true)],
            Settle(s.reservations, key, fate.outcome))
  }

  datatype Action =
    | Webhook(key: Key, now: int, fate: Fate)
    | Stored(key: Key, now: int)
    | SweepOne(key: Key, fate: Fate)

  function Do(s: State, a: Action): State {
    match a
    case Webhook(key, now, fate) => Ingest(s, key, now, fate)
    case Stored(key, now) => InsertOnly(s, key, now)
    case SweepOne(key, fate) => Retry(s, key, fate)
  }

  function Run(s: State, actions: seq<Action>): State {
    Schedules.Fold(Do, s, actions)
  }

  // ---------------------------------------------------------------- bounds per key

  predicate Bounded(e: Event) {
    && e.attempts <= e.crashes + (if e.processed then 2 else 1)
    && e.successes <= e.crashes + (if e.processed then 1 else 0)
  }

  ghost predicate AllBounded(s: State) {
    forall k | k in s.events :: Bounded(s.events[k])
  }

  /** Over any stream of duplicated or reordered webhooks, reconciler events, sweeps and
      deaths, an event is processed at most twice and succeeds at most once, plus once for
      each handler that died between processing it and marking it. */
  lemma {:induction false} AttemptsBounded(s: State, actions: seq<Action>)
    requires AllBounded(s)
    ensures AllBounded(Run(s, actions))
    decreases |actions|
  {
    if actions != [] {
      AttemptsBounded(s, actions[..|actions| - 1]);
    }
  }

  predicate Survives(a: Action) {
    match a
    case Webhook(_, _, fate) => !fate.dies
    case Stored(_, _) => false
    case SweepOne(_, fate) => !fate.dies
  }

  ghost predicate NoDeaths(s: State) {
    forall k | k in s.events :: s.events[k].crashes == 0
  }

  lemma {:induction false} SurvivorsOnly(s: State, actions: seq<Action>)
    requires NoDeaths(s) && forall i | 0 <= i < |actions| :: Survives(actions[i])
    ensures NoDeaths(Run(s, actions))
    decreases |actions|
  {
    if actions != [] {
      SurvivorsOnly(s, actions[..|actions| - 1]);
    }
  }

  /** The promise: with no handler dying, at most two attempts and one success per key. */
  lemma AtMostOnce(s: State, actions: seq<Action>, key: Key)
    requires s.events == map[] && (forall i | 0 <= i < |actions| :: Survives(actions[i]))
    requires key in Run(s, actions).events
    ensures Run(s, actions).events[key].attempts <= 2 && Run(s, actions).events[key].successes <= 1
  {
    AttemptsBounded(s, actions);
    SurvivorsOnly(s, actions);
  }

  /** One death after a success is enough to make an event count twice. */
  lemma DeathCanCountTwice(s: State, key: Key, now: int)
    requires key !in s.events && key.reservation in s.reservations
    ensures var r := Run(s, [Webhook(key, now, Fate(Success, true)), SweepOne(key, Fate(Success, false))]);
            key in r.events && r.events[key].successes == 2 && r.events[key].processed
  {
    var first, second := Webhook(key, now, Fate(Success, true)), SweepOne(key, Fate(Success, false));
    Schedules.FoldOne(Do, s, first);
    Schedules.FoldSnoc(Do, s, [first], second);
    assert [first] + [second] == [first, second];
  }

  lemma KeysKept(s: State, a: Action)
    ensures s.events.Keys <= Do(s, a).events.Keys
  {
  }

  lemma {:induction false} KeysStay(s: State, actions: seq<Action>)
    ensures s.events.Keys <= Run(s, actions).events.Keys
    decreases |actions|
  {
    if actions != [] {
      KeysStay(s, actions[..|actions| - 1]);
      KeysKept(Run(s, actions[..|actions| - 1]), actions[|actions| - 1]);
    }
  }

  /** However often and however late a stored scoring event is delivered again, the run ends
      as if it had not been: replays, reordered duplicates, and the `series_end` the
      reconciler makes up for a webhook that arrives after all. */
  lemma ReplaysDoNotMatter(s: State, before: seq<Action>, between: seq<Action>, after: seq<Action>,
                           key: Key, first: Action, now: int, fate: Fate)
    requires first.Webhook? && first.key == key && !Lifecycle(key.kind)
    ensures Run(s, before + [first] + between + [Webhook(key, now, fate)] + after) ==
            Run(s, before + [first] + between + after)
  {
    var stored := before + [first];
    Schedules.FoldSnoc(Do, s, before, first);
    assert key in Run(s, stored).events;
    Schedules.FoldConcat(Do, s, stored, between);
    KeysStay(Run(s, stored), between);
    Schedules.FoldSnoc(Do, s, stored + between, Webhook(key, now, fate));
    Schedules.FoldConcat(Do, s, stored + between + [Webhook(key, now, fate)], after);
    Schedules.FoldConcat(Do, s, stored + between, after);
  }

  /** A lifecycle event always reaches processing, replayed or not: with the database up, the
      reservation ends where the event says, whatever state it was stranded in. */
  lemma LifecycleAlwaysProcessed(s: State, key: Key, now: int, dies: bool)
    requires Lifecycle(key.kind) && key.reservation in s.reservations
    ensures var r := Do(s, Webhook(key, now, Fate(Success, dies)));
            r.reservations == s.reservations[key.reservation := if key.kind.SeriesStart? then Ready else Live]
  {
  }

  // ---------------------------------------------------------------- one event from first to last

  /** What an event does to the reservations: its own is moved to where the event says, if
      processing got that far, and no other changes. */
  predicate Settles(was: map<ReservationId, Status>, now: map<ReservationId, Status>, key: Key, outcome: Outcome) {
    var r := key.reservation;
    && now.Keys == was.Keys
    && (forall q | q in was && q != r :: now[q] == was[q])
    && (r in was ==>
          if key.kind.SeriesStart? && outcome != Failure(false) then now[r] == Ready
          else if key.kind.GoingLive? && outcome == Success then now[r] == Live
          else if key.kind.SeriesEnd? && outcome != Failure(false) then now[r] == Completed
          else now[r] == was[r])
  }

  /** After a first delivery the event is attempted once and is processed if and only if that
      succeeded; a failed one is due from a minute later on. */
  lemma FirstDelivery(s: State, before: seq<Action>, key: Key, now: int, outcome: Outcome)
    requires key !in Run(s, before).events
    ensures var r := Run(s, before + [Webhook(key, now, Fate(outcome, false))]);
            && key in r.events
            && r.events[key].attempts == 1
            && r.events[key].successes == (if outcome.Success? then 1 else 0)
            && (r.events[key].processed <==> outcome.Success?)
            && Settles(Run(s, before).reservations, r.reservations, key, outcome)
            && forall later ::
                 Due(r, key, later) <==> !outcome.Success? && !key.kind.BackupUploaded? && later > now + 60
  {
    Schedules.FoldSnoc(Do, s, before, Webhook(key, now, Fate(outcome, false)));
  }

  /** And if its handler died, before processing or after, it is due all the same. */
  lemma FirstDeath(s: State, before: seq<Action>, first: Action)
    requires first.Stored? || (first.Webhook? && first.fate.dies)
    requires first.key !in Run(s, before).events
    ensures var r := Run(s, before + [first]);
            && first.key in r.events
            && forall later :: Due(r, first.key, later) <==> !first.key.kind.BackupUploaded? && later > first.now + 60
  {
    Schedules.FoldSnoc(Do, s, before, first);
  }

  predicate Sweeps(a: Action, key: Key) {
    a.SweepOne? && a.key == key
  }

  /** Only a sweep that lists it changes a stored event. */
  lemma {:induction false} UnsweptStays(s: State, actions: seq<Action>, key: Key)
    requires key in s.events && forall i | 0 <= i < |actions| :: !Sweeps(actions[i], key)
    ensures key in Run(s, actions).events && Run(s, actions).events[key] == s.events[key]
    ensures Run(s, actions).reservations.Keys == s.reservations.Keys
    decreases |actions|
  {
    if actions != [] {
      UnsweptStays(s, actions[..|actions| - 1], key);
    }
  }

  lemma {:induction false} ReservationsStay(s: State, actions: seq<Action>)
    ensures Run(s, actions).reservations.Keys == s.reservations.Keys
    decreases |actions|
  {
    if actions != [] {
      ReservationsStay(s, actions[..|actions| - 1]);
    }
  }

  lemma RetrySettles(s: State, key: Key, second: Outcome)
    requires key in s.events && !s.events[key].processed && key.reservation in s.reservations
    ensures var r, e := Do(s, SweepOne(key, Fate(second, false))), s.events[key];
            && r.events == s.events[key := Event(true, e.received, e.attempts + 1,
                                                 e.successes + (if second.Success? then 1 else 0), e.crashes)]
            && Settles(s.reservations, r.reservations, key, second)
  {
  }

  /** A pass that dies on an event has tried it and leaves it as due as it was. */
  lemma DeadSweepLeavesDue(s: State, key: Key, outcome: Outcome, later: int)
    requires key in s.events && !s.events[key].processed && key.reservation in s.reservations
    ensures var r, e := Do(s, SweepOne(key, Fate(outcome, true))), s.events[key];
            && (Due(r, key, later) <==> Due(s, key, later))
            && r.events == s.events[key := Event(false, e.received, e.attempts + 1,
                                                 e.successes + (if outcome.Success? then 1 else 0), e.crashes + 1)]
            && Settles(s.reservations, r.reservations, key, outcome)
  {
  }

  /** A failed first delivery is kept as it is, and due, until a sweep lists it, whatever is
      delivered or swept meanwhile. The sweep attempts it once more and parks it: two attempts in
      all, a success if and only if the second one is, and then the reservation is where the
      event says. */
  lemma RetriedOnce(s: State, before: seq<Action>, key: Key, now: int, first: Outcome, between: seq<Action>,
                    second: Outcome)
    requires key !in Run(s, before).events && key.reservation in s.reservations
    requires first.Failure? && forall i | 0 <= i < |between| :: !Sweeps(between[i], key)
    ensures var m := Run(s, before + [Webhook(key, now, Fate(first, false))] + between);
            var r := Run(s, before + [Webhook(key, now, Fate(first, false))] + between +
                            [SweepOne(key, Fate(second, false))]);
            && (forall later | later > now + 60 && !key.kind.BackupUploaded? :: Due(m, key, later))
            && key in r.events && r.events[key].processed && r.events[key].attempts == 2
            && r.events[key].successes == (if second.Success? then 1 else 0)
            && (forall later :: !Due(r, key, later))
            && Settles(m.reservations, r.reservations, key, second)
            && key.reservation in m.reservations
  {
    var delivered := before + [Webhook(key, now, Fate(first, false))];
    FirstDelivery(s, before, key, now, first);
    ReservationsStay(s, delivered);
    Delivered(s, before, key, now, first);
    Schedules.FoldConcat(Do, s, delivered, between);
    UnsweptStays(Run(s, delivered), between, key);
    Schedules.FoldSnoc(Do, s, delivered + between, SweepOne(key, Fate(second, false)));
    RetrySettles(Run(s, delivered + between), key, second);
    hide Do, Settles, Run;
  }

  lemma Delivered(s: State, before: seq<Action>, key: Key, now: int, first: Outcome)
    requires key !in Run(s, before).events && first.Failure?
    ensures var r := Run(s, before + [Webhook(key, now, Fate(first, false))]);
            key in r.events && r.events[key] == Event(false, now, 1, 0, 0)
  {
    Schedules.FoldSnoc(Do, s, before, Webhook(key, now, Fate(first, false)));
  }

  predicate MovesReservation(a: Action, r: ReservationId) {
    !a.Stored? && a.key.reservation == r &&
      (a.key.kind.SeriesStart? || a.key.kind.GoingLive? || a.key.kind.SeriesEnd?)
  }

  /** Rounds, map results, backups and unknown events move no reservation, however often they are
      delivered or swept. */
  lemma {:induction false} OthersMoveNothing(s: State, actions: seq<Action>, r: ReservationId)
    requires r in s.reservations && forall i | 0 <= i < |actions| :: !MovesReservation(actions[i], r)
    ensures r in Run(s, actions).reservations && Run(s, actions).reservations[r] == s.reservations[r]
    decreases |actions|
  {
    if actions != [] {
      OthersMoveNothing(s, actions[..|actions| - 1], r);
    }
  }

  // ---------------------------------------------------------------- the sweep

  predicate Due(s: State, key: Key, now: int) {
    key in s.events && !s.events[key].processed && !key.kind.BackupUploaded? && s.events[key].received < now - MIN_AGE
  }

  ghost function DueKeys(s: State, now: int): set<Key> {
    set k | k in s.events && Due(s, k, now)
  }

  /** What `list_unprocessed` may return: the oldest due events, up to the limit. */
  ghost predicate Listing(s: State, now: int, keys: seq<Key>) {
    && NoRepeats(keys)
    && (forall k | k in keys :: Due(s, k, now))
    && |keys| == (if |DueKeys(s, now)| < LIMIT then |DueKeys(s, now)| else LIMIT)
    && (forall k, d | k in keys && Due(s, d, now) && d !in keys :: s.events[k].received <= s.events[d].received)
  }

  /** The pass over a listing, as a schedule. */
  function Pass(keys: seq<Key>, outcomes: seq<Outcome>): (r: seq<Action>)
    requires |outcomes| == |keys|
    ensures |r| == |keys|
  {
    seq(|keys|, i requires 0 <= i < |keys| => SweepOne(keys[i], Fate(outcomes[i], false)))
  }

  lemma PassSnoc(keys: seq<Key>, outcomes: seq<Outcome>, i: nat)
    requires |outcomes| == |keys| && i < |keys|
    ensures Pass(keys, outcomes)[..i + 1] == Pass(keys, outcomes)[..i] + [SweepOne(keys[i], Fate(outcomes[i], false))]
  {
  }

  class EventStore {
    var events: map<Key, Event>
    var reservations: map<ReservationId, Status>

    function View(): State
      reads this
    {
      State(events, reservations)
    }

    constructor (known: map<ReservationId, Status>)
      ensures View() == State(map[], known) && AllBounded(View()) && NoDeaths(View())
    {
      events, reservations := map[], known;
    }

    /** INSERT ... ON CONFLICT DO NOTHING: false on a dedupe hit. */
    method Insert(key: Key, now: int) returns (inserted: bool)
      modifies this`events
      ensures inserted == (key !in old(events))
      ensures events == if inserted then old(events)[key := Event(false, now, 0, 0, 0)] else old(events)
    {
      inserted := key !in events;
      if inserted {
        events := events[key := Event(false, now, 0, 0, 0)];
      }
    }

    /** Apply the event to its reservation; a false result is a processing error. */
    method Process(key: Key, outcome: Outcome) returns (processed: bool)
      modifies this`reservations
      ensures processed == outcome.Success? && reservations == Settle(old(reservations), key, outcome)
      ensures Settles(old(reservations), reservations, key, outcome)
    {
      if key.reservation in reservations {
        match key.kind {
          case SeriesStart =>
            if outcome != Failure(false) {
              reservations := reservations[key.reservation := Ready];
            }
          case GoingLive =>
            if outcome.Success? {
              reservations := reservations[key.reservation := Live];
            }
          case SeriesEnd =>
            if outcome != Failure(false) {
              reservations := reservations[key.reservation := Completed];
            }
          case _ =>
        }
      }
      processed := outcome.Success?;
    }

    /** `ingest_server_event`, with a handler that lives to its end. */
    method IngestServerEvent(key: Key, now: int, outcome: Outcome)
      modifies this
      ensures View() == Do(old(View()), Webhook(key, now, Fate(outcome, false)))
      ensures key !in old(events) ==>
                events == old(events)[key := Event(outcome.Success?, now, 1, if outcome.Success? then 1 else 0, 0)]
      ensures key in old(events) ==> events == old(events)
      ensures key !in old(events) || key.kind.SeriesStart? || key.kind.GoingLive? ==>
                Settles(old(reservations), reservations, key, outcome)
      ensures key in old(events) && !key.kind.SeriesStart? && !key.kind.GoingLive? ==>
                reservations == old(reservations)
    {
      var inserted := Insert(key, now);
      if !inserted {
        if Lifecycle(key.kind) {
          var replayed := Process(key, outcome);
        }
        return;
      }
      var succeeded := Process(key, outcome);
      var tried := Tried(events[key], outcome);
      events := events[key := if succeeded then tried.(processed := true) else tried];
    }

    /** One listed event: an event of a lost reservation is parked unprocessed. */
    method RetryEvent(key: Key, outcome: Outcome) returns (succeeded: bool)
      requires key in events && !events[key].processed
      modifies this
      ensures View() == Retry(old(View()), key, Fate(outcome, false))
      ensures succeeded == (key.reservation in old(reservations) && outcome.Success?)
      ensures events == old(events)[key := events[key]] && events[key].processed
      ensures key.reservation in old(reservations) ==>
                && events[key].attempts == old(events)[key].attempts + 1
                && events[key].successes == old(events)[key].successes + if succeeded then 1 else 0
      ensures Settles(old(reservations), reservations, key, outcome)
    {
      if key.reservation !in reservations {
        events := events[key := events[key].(processed := true)];
        return false;
      }
      succeeded := Process(key, outcome);
      events := events[key := Tried(events[key], outcome).(processed := true)];
    }

    /** Phase 4 of the maintenance pass: one retry for each listed event, then park it.
        All due events are gone when there were at most twenty; otherwise exactly twenty are. */
    method SweepUnprocessed(now: int, keys: seq<Key>, outcomes: seq<Outcome>) returns (reconciled: nat)
      requires Listing(View(), now, keys) && |outcomes| == |keys|
      modifies this
      ensures View() == Run(old(View()), Pass(keys, outcomes))
      ensures DueKeys(View(), now) == DueKeys(old(View()), now) - (set k | k in keys)
      ensures |DueKeys(old(View()), now)| <= 20 ==> DueKeys(View(), now) == {}
      ensures |DueKeys(old(View()), now)| > 20 ==> |DueKeys(View(), now)| == |DueKeys(old(View()), now)| - 20
      ensures reconciled == |Reconciled(old(reservations), keys, outcomes, |keys|)|
    {
      hide Listing, Retry;
      ghost var start := View();
      reconciled := 0;
      for i := 0 to |keys|
        invariant View() == Run(start, Pass(keys, outcomes)[..i])
        invariant reconciled == |Reconciled(start.reservations, keys, outcomes, i)|
        invariant reservations.Keys == start.reservations.Keys
      {
        PassParks(start, now, keys, outcomes, i);
        PassSnoc(keys, outcomes, i);
        Schedules.FoldSnoc(Do, start, Pass(keys, outcomes)[..i], SweepOne(keys[i], Fate(outcomes[i], false)));
        var succeeded := RetryEvent(keys[i], outcomes[i]);
        ReconciledOneMore(start.reservations, keys, outcomes, i);
        if succeeded {
          reconciled := reconciled + 1;
        }
      }
      assert Pass(keys, outcomes)[..|keys|] == Pass(keys, outcomes);
      PassParks(start, now, keys, outcomes, |keys|);
      assert keys[..|keys|] == keys;
      Swept(start, View(), now, keys);
      ListingSize(start, now, keys);
    }
  }

  /** The first `n` listed events that were reconciled. */
  ghost function Reconciled(reservations: map<ReservationId, Status>, keys: seq<Key>, outcomes: seq<Outcome>, n: nat)
    : set<nat>
    requires |outcomes| == |keys| && n <= |keys|
  {
    set i: nat | i < n && outcomes[i].Success? && keys[i].reservation in reservations
  }

  lemma ReconciledOneMore(reservations: map<ReservationId, Status>, keys: seq<Key>, outcomes: seq<Outcome>, n: nat)
    requires |outcomes| == |keys| && n < |keys|
    ensures |Reconciled(reservations, keys, outcomes, n + 1)| ==
            |Reconciled(reservations, keys, outcomes, n)| +
            (if outcomes[n].Success? && keys[n].reservation in reservations then 1 else 0)
  {
    var before := Reconciled(reservations, keys, outcomes, n);
    assert Reconciled(reservations, keys, outcomes, n + 1) ==
           if outcomes[n].Success? && keys[n].reservation in reservations then before + {n} else before;
  }

  /** After the first `i` retries those events are parked and the others are as listed. */
  lemma {:induction false} PassParks(s: State, now: int, keys: seq<Key>, outcomes: seq<Outcome>, i: nat)
    requires Listing(s, now, keys) && |outcomes| == |keys| && i <= |keys|
    ensures var r := Run(s, Pass(keys, outcomes)[..i]);
            && r.events.Keys == s.events.Keys
            && (forall k | k in r.events && k !in keys[..i] :: r.events[k] == s.events[k])
            && (forall k | k in keys[..i] :: k in r.events && r.events[k].processed)
            && (i < |keys| ==> keys[i] in r.events && !r.events[keys[i]].processed)
  {
    if i > 0 {
      PassParks(s, now, keys, outcomes, i - 1);
      PassSnoc(keys, outcomes, i - 1);
      Schedules.FoldSnoc(Do, s, Pass(keys, outcomes)[..i - 1], SweepOne(keys[i - 1], Fate(outcomes[i - 1], false)));
      assert keys[..i] == keys[..i - 1] + [keys[i - 1]];
    }
    if i < |keys| {
      assert Due(s, keys[i], now) && keys[i] !in keys[..i];
    }
  }

  lemma ListingSize(s: State, now: int, keys: seq<Key>)
    requires Listing(s, now, keys)
    ensures |keys| == (if |DueKeys(s, now)| < LIMIT then |DueKeys(s, now)| else LIMIT)
  {
  }

  lemma Swept(s: State, r: State, now: int, keys: seq<Key>)
    requires Listing(s, now, keys) && r.events.Keys == s.events.Keys
    requires forall k | k in r.events && k !in keys :: r.events[k] == s.events[k]
    requires forall k | k in keys :: k in r.events && r.events[k].processed
    ensures DueKeys(r, now) == DueKeys(s, now) - (set k | k in keys)
    ensures |DueKeys(r, now)| == |DueKeys(s, now)| - |keys|
  {
    SizeOfElements(keys);
    assert Elements(keys) == set k | k in keys;
    assert (set k | k in keys) <= DueKeys(s, now);
    assert DueKeys(r, now) == DueKeys(s, now) - (set k | k in keys);
  }
}
