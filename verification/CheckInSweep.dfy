/** The check-in phases of the lifecycle pass, over the whole table of matches. */
module CheckInSweep {
  import opened Options
  import opened MatchLifecycle
  import opened CheckIn
  import opened Collections

  type MatchId = nat

  /** The order a query returns its rows in: all of them, each once. */
  ghost predicate Orders(order: set<MatchId> -> seq<MatchId>) {
    forall pool: set<MatchId> :: NoRepeats(order(pool)) && Elements(order(pool)) == pool
  }

  function Limited(keys: seq<MatchId>, limit: nat): seq<MatchId> {
    if |keys| <= limit then keys else keys[..limit]
  }

  lemma LimitedListing(order: set<MatchId> -> seq<MatchId>, pool: set<MatchId>, table: set<MatchId>, limit: nat)
    requires Orders(order) && pool <= table
    ensures NoRepeats(Limited(order(pool), limit))
    ensures forall m | m in Limited(order(pool), limit) :: m in pool
    ensures |table| <= limit ==> forall m | m in pool :: m in Limited(order(pool), limit)
    ensures forall i | 0 <= i < |order(pool)| :: order(pool)[i] in Limited(order(pool), limit) <==> i < limit
  {
    SizeOfElements(order(pool));
    Smaller(pool, table);
    assert forall m :: m in order(pool) <==> m in Elements(order(pool));
  }

  /** The later of the scheduled time and the moment of the stamp, plus the grace. */
  predicate Stamped(deadline: Option<int>, scheduledAt: Option<int>, at: int, grace: int) {
    && deadline.Some?
    && deadline.value - grace >= at
    && (scheduledAt.Some? ==> deadline.value - grace >= scheduledAt.value)
    && (deadline.value - grace == at || scheduledAt == Some(deadline.value - grace))
  }

  /** With a lost stamp nothing changes. Otherwise the deadline is stamped, and with the transition
      not lost and allowed the match is in check-in; nothing else changes. */
  predicate WindowOpens(was: Match, x: Match, at: int, how: Opening, grace: int) {
    if how.StampLost? then x == was
    else
      && Stamped(x.deadline, was.scheduledAt, at, grace)
      && x == was.(status := x.status, deadline := x.deadline)
      && x.status == if how.TransitionLost? || CheckingIn !in Allowed(was.status) then was.status else CheckingIn
  }

  /** Somebody was absent when the match was listed, both sides are seated and, with one side
      absent, the match can still be forfeited and that side still plays it. */
  predicate CanSettle(row: Match, listed: Match) {
    && row.first.Some? && row.second.Some?
    && !(listed.firstIn && listed.secondIn)
    && (listed.firstIn != listed.secondIn ==>
          var absent := if listed.firstIn then listed.second else listed.first;
          CanForfeit(row.status) && (absent == row.first || absent == row.second))
  }

  /** With nobody in, cancelled. Otherwise forfeited: the side that was absent when the match was
      listed has lost, and the other participant of the row has won. */
  predicate Settled(x: Match, was: Match, listed: Match) {
    if !listed.firstIn && !listed.secondIn then x == was.(status := Cancelled)
    else
      && x == was.(status := Forfeit, winner := x.winner, loser := x.loser)
      && x.loser == (if listed.firstIn then listed.second else listed.first)
      && x.winner == (if x.loser == was.first then was.second else was.first)
      && x.winner.Some? && x.loser.Some?
  }

  class Lifecycle {
    const config: Config
    var matches: map<MatchId, Match>

    constructor (config: Config, matches: map<MatchId, Match>)
      ensures this.config == config && this.matches == matches
    {
      this.config, this.matches := config, matches;
    }

    /** Deadline first, then status: a handler that stops in between leaves the match scheduled. */
    method OpenCheckInWindow(m: MatchId, at: int, how: Opening) returns (done: bool)
      requires m in matches
      modifies this`matches
      ensures matches == old(matches)[m := OpenWindow(config, old(matches)[m], at, how)]
      ensures done <==> how.Opened? && CheckingIn in Allowed(old(matches)[m].status)
      ensures WindowOpens(old(matches)[m], matches[m], at, how, config.grace)
    {
      var listed := matches[m];
      if how.StampLost? {
        return false;
      }
      var base := at;
      if listed.scheduledAt.Some? && at < listed.scheduledAt.value {
        base := listed.scheduledAt.value;
      }
      matches := matches[m := matches[m].(deadline := Some(base + config.grace))];
      if how.TransitionLost? || CheckingIn !in Allowed(matches[m].status) {
        return false;
      }
      matches := matches[m := matches[m].(status := CheckingIn)];
      done := how.Opened?;
    }

    method RepairCheckInDeadline(m: MatchId, at: int, lands: bool)
      requires m in matches
      modifies this`matches
      ensures matches == old(matches)[m := Repair(config, old(matches)[m], at, lands)]
      ensures matches[m] == old(matches)[m].(deadline := matches[m].deadline)
      ensures if lands then Stamped(matches[m].deadline, old(matches)[m].scheduledAt, at, config.grace)
              else matches[m] == old(matches)[m]
    {
      var base := at;
      if matches[m].scheduledAt.Some? && at < matches[m].scheduledAt.value {
        base := matches[m].scheduledAt.value;
      }
      if lands {
        matches := matches[m := matches[m].(deadline := Some(base + config.grace))];
      }
    }

    /** Forfeit whichever side was absent when the match was listed. */
    method ProcessCheckInTimeout(m: MatchId, listed: Match, lands: bool) returns (settled: bool)
      requires m in matches
      modifies this`matches
      ensures matches == old(matches)[m := if lands then TimedOut(old(matches)[m], listed) else old(matches)[m]]
      ensures !settled ==> matches == old(matches)
      ensures settled <==> lands && CanSettle(old(matches)[m], listed)
      ensures settled ==> Settled(matches[m], old(matches)[m], listed)
    {
      settled := false;
      var row := matches[m];
      if listed.firstIn && listed.secondIn {
        return;
      }
      if !listed.firstIn && !listed.secondIn {
        if lands && row.first.Some? && row.second.Some? {
          matches := matches[m := row.(status := Cancelled)];
          settled := true;
        }
        return;
      }
      var absent := if listed.firstIn then listed.second else listed.first;
      if absent.None? || !lands || !CanForfeit(row.status) {
        return;
      }
      if row.first == absent && row.second.Some? {
        matches := matches[m := row.(status := Forfeit, winner := row.second, loser := absent)];
        settled := true;
      } else if row.first != absent && row.second == absent && row.first.Some? {
        matches := matches[m := row.(status := Forfeit, winner := row.first, loser := absent)];
        settled := true;
      }
    }

    /** Due matches get their window. */
    method OpenWindows(now: int, k: MatchId -> Conditions, order: set<MatchId> -> seq<MatchId>)
      returns (ghost keys: set<MatchId>)
      requires Orders(order)
      modifies this`matches
      ensures matches.Keys == old(matches.Keys)
      ensures forall m | m in keys :: m in matches && Due(old(matches)[m], now + config.lead)
      ensures var listed := order(set m | m in old(matches) && Due(old(matches)[m], now + config.lead));
              forall i | 0 <= i < |listed| :: listed[i] in keys <==> i < config.batch
      ensures |old(matches)| <= config.batch ==>
                forall m | m in matches && Due(old(matches)[m], now + config.lead) :: m in keys
      ensures forall m | m in matches ::
                matches[m] == if m in keys then OpenWindow(config, old(matches)[m], k(m).opensAt, k(m).how)
                    else old(matches)[m]
    {
      ghost var start := matches;
      assert |start.Keys| == |start|;
      var pool := set m | m in matches && Due(matches[m], now + config.lead);
      var listed := Limited(order(pool), config.batch);
      LimitedListing(order, pool, matches.Keys, config.batch);
      hide Orders, OpenWindow, TimedOut, Due, Expired, MissingDeadline, Limited;
      hide Stamped, Settled, CanSettle, WindowOpens;
      for i := 0 to |listed|
        invariant matches.Keys == start.Keys
        invariant forall m | m in matches ::
                    matches[m] == if m in listed[..i] then OpenWindow(config, start[m], k(m).opensAt, k(m).how)
                        else start[m]
      {
        var m := listed[i];
        assert m in start;
        assert m !in listed[..i];
        var done := OpenCheckInWindow(m, k(m).opensAt, k(m).how);
        assert listed[..i + 1] == listed[..i] + [m];
      }
      assert listed[..|listed|] == listed;
      keys := set m | m in listed;
    }

    /** Open windows without a deadline get one. */
    method RepairDeadlines(now: int, k: MatchId -> Conditions, order: set<MatchId> -> seq<MatchId>)
      returns (ghost keys: set<MatchId>)
      requires Orders(order)
      modifies this`matches
      ensures matches.Keys == old(matches.Keys)
      ensures forall m | m in keys :: m in matches && MissingDeadline(old(matches)[m])
      ensures var listed := order(set m | m in old(matches) && MissingDeadline(old(matches)[m]));
              forall i | 0 <= i < |listed| :: listed[i] in keys <==> i < config.batch
      ensures |old(matches)| <= config.batch ==>
                forall m | m in matches && MissingDeadline(old(matches)[m]) :: m in keys
      ensures forall m | m in matches ::
                matches[m] == if m in keys then Repair(config, old(matches)[m], k(m).repairsAt, k(m).repairs)
                    else old(matches)[m]
    {
      ghost var start := matches;
      assert |start.Keys| == |start|;
      var pool := set m | m in matches && MissingDeadline(matches[m]);
      var listed := Limited(order(pool), config.batch);
      LimitedListing(order, pool, matches.Keys, config.batch);
      hide Orders, OpenWindow, TimedOut, Due, Expired, MissingDeadline, Limited;
      hide Stamped, Settled, CanSettle, WindowOpens;
      for i := 0 to |listed|
        invariant matches.Keys == start.Keys
        invariant forall m | m in matches ::
                    matches[m] == if m in listed[..i] then Repair(config, start[m], k(m).repairsAt, k(m).repairs)
                        else start[m]
      {
        var m := listed[i];
        assert m in start;
        assert m !in listed[..i];
        RepairCheckInDeadline(m, k(m).repairsAt, k(m).repairs);
        assert listed[..i + 1] == listed[..i] + [m];
      }
      assert listed[..|listed|] == listed;
      keys := set m | m in listed;
    }

    /** Windows past their deadline are settled. */
    method ProcessTimeouts(now: int, k: MatchId -> Conditions, order: set<MatchId> -> seq<MatchId>)
      returns (ghost keys: set<MatchId>)
      requires Orders(order)
      modifies this`matches
      ensures matches.Keys == old(matches.Keys)
      ensures forall m | m in keys :: m in matches && Expired(old(matches)[m], now)
      ensures var listed := order(set m | m in old(matches) && Expired(old(matches)[m], now));
              forall i | 0 <= i < |listed| :: listed[i] in keys <==> i < config.batch
      ensures |old(matches)| <= config.batch ==> forall m | m in matches && Expired(old(matches)[m], now) :: m in keys
      ensures forall m | m in matches ::
                matches[m] == if m in keys && k(m).times then TimedOut(old(matches)[m], old(matches)[m])
                    else old(matches)[m]
    {
      ghost var start := matches;
      assert |start.Keys| == |start|;
      var pool := set m | m in matches && Expired(matches[m], now);
      var listed := Limited(order(pool), config.batch);
      LimitedListing(order, pool, matches.Keys, config.batch);
      hide Orders, OpenWindow, TimedOut, Due, Expired, MissingDeadline, Limited;
      hide Stamped, Settled, CanSettle, WindowOpens;
      for i := 0 to |listed|
        invariant matches.Keys == start.Keys
        invariant forall m | m in matches ::
                    matches[m] == if m in listed[..i] && k(m).times then TimedOut(start[m], start[m]) else start[m]
      {
        var m := listed[i];
        assert m in start;
        assert m !in listed[..i];
        var settled := ProcessCheckInTimeout(m, matches[m], k(m).times);
        assert listed[..i + 1] == listed[..i] + [m];
      }
      assert listed[..|listed|] == listed;
      keys := set m | m in listed;
    }

    /** The three phases in order. Every match ends as its own pass says or, when the batch
        limit left it out, untouched; with the limit no smaller than the table, none is. */
    method RunPass(now: int, k: MatchId -> Conditions, order: set<MatchId> -> seq<MatchId>)
      requires Orders(order) && config.grace >= 0
      requires forall m :: k(m).now == now && Onward(k(m))
      modifies this`matches
      ensures matches.Keys == old(matches.Keys)
      ensures forall m | m in matches ::
                matches[m] == Pass(config, old(matches)[m], k(m)) || matches[m] == old(matches)[m]
      ensures |old(matches)| <= config.batch ==>
                forall m | m in matches :: matches[m] == Pass(config, old(matches)[m], k(m))
    {
      hide Orders, OpenWindow, Repair, TimedOut, Due, Expired, MissingDeadline, Pass;
      ghost var start := matches;
      ghost var opens := OpenWindows(now, k, order);
      ghost var first := matches;
      SameSize(start, first);
      ghost var repairs := RepairDeadlines(now, k, order);
      ghost var second := matches;
      SameSize(start, second);
      ghost var times := ProcessTimeouts(now, k, order);
      forall m | m in matches
        ensures matches[m] == Pass(config, start[m], k(m)) || matches[m] == start[m]
        ensures |start| <= config.batch ==> matches[m] == Pass(config, start[m], k(m))
      {
        OneActs(config, start[m], k(m), m in opens, m in repairs, m in times);
      }
    }
  }

  lemma SameSize(a: map<MatchId, Match>, b: map<MatchId, Match>)
    requires a.Keys == b.Keys
    ensures |a| == |b|
  {
    assert |a.Keys| == |a| && |b.Keys| == |b|;
  }

  /** At most one phase changes a match, so a match listed by its phase has its whole pass. */
  lemma OneActs(c: Config, x: Match, k: Conditions, opens: bool, repairs: bool, times: bool)
    requires c.grace >= 0 && Onward(k)
    requires opens ==> Due(x, k.now + c.lead)
    ensures var a := if opens then OpenWindow(c, x, k.opensAt, k.how) else x;
            var b := if repairs then Repair(c, a, k.repairsAt, k.repairs) else a;
            var d := if times && k.times then TimedOut(b, b) else b;
            var due, missing, expired := Due(x, k.now + c.lead), MissingDeadline(a), Expired(b, k.now);
            var whole := (due ==> opens) && (missing ==> repairs) && (expired ==> times);
            (repairs ==> missing) && (times ==> expired) ==>
              (d == Pass(c, x, k) || d == x) && (whole ==> d == Pass(c, x, k))
  {
  }
}
