/**
 The handlers of the reservation cycle, calling each other as the source's do. A request
 creates a reservation with no failed load, so it never reaches the cap: that is why the
 cycle ends, and it is what the `decreases` clauses say.
*/
module ReservationHandlers {
  import opened Options
  import opened Reservations
  import Schedules

  function Drives(listed: seq<ReservationId>, worlds: seq<World>): (steps: seq<Step>)
    requires |worlds| == |listed|
    ensures |steps| == |listed|
  {
    seq(|listed|, i requires 0 <= i < |listed| => Step(Drive(listed[i]), worlds[i]))
  }

  /** What a handler returns: the reservation, or an error with nothing more to do. */
  type Outcome = Option<ReservationId>

  /** One row has one failed load more, and nothing else changes. */
  predicate RefusedOnce(was: map<ReservationId, Reservation>, now: map<ReservationId, Reservation>, r: ReservationId) {
    r in was && now == was[r := was[r].(retries := was[r].retries + 1)]
  }

  class Dispatcher {
    var reservations: map<ReservationId, Reservation>
    var servers: map<ServerId, ServerStatus>
    var next: ReservationId
    var tally: Tally

    function View(): State
      reads this
    {
      State(reservations, servers, next, tally)
    }

    constructor (fleet: map<ServerId, ServerStatus>)
      ensures View() == Start(fleet)
    {
      reservations, servers, next, tally := map[], fleet, 0, Tally(0, map[], map[], 0, 0, {});
    }

    // -------------------------------------------------------------- repository calls

    method FindOpen(m: MatchId) returns (existing: Outcome)
      ensures existing.Some? == HasOpen(View(), m)
      ensures existing.Some? ==> IsOpen(View(), existing.value) && reservations[existing.value].match_ == m
    {
      existing := None;
      var left := reservations.Keys;
      while left != {}
        invariant left <= reservations.Keys
        invariant forall r | r in reservations && r !in left :: !(IsOpen(View(), r) && reservations[r].match_ == m)
        decreases |left|
      {
        var r :| r in left;
        if Open(reservations[r].status) && reservations[r].match_ == m {
          assert IsOpen(View(), r);
          return Some(r);
        }
        left := left - {r};
      }
    }

    method CreatePending(m: MatchId) returns (r: ReservationId)
      modifies this
      ensures View() == Created(old(View()), m) && r == old(next)
    {
      r := next;
      reservations, next := reservations[r := Reservation(m, Pending, None, 0, false)], next + 1;
    }

    /** The insert of a closed row's end, and what the ledger notes of it. */
    method MarkFailed(r: ReservationId)
      requires r in reservations
      modifies this
      ensures View() == Closed(old(View()), r, Failed)
    {
      reservations := reservations[r := reservations[r].(status := Failed, settled := true)];
    }

    /** The unique index: some other open reservation has this server. */
    method IsTaken(r: ReservationId, v: ServerId) returns (taken: bool)
      ensures taken == Taken(View(), r, v)
    {
      taken := false;
      var left := reservations.Keys;
      while left != {}
        invariant left <= reservations.Keys
        invariant forall q | q in reservations && q !in left ::
                    !(q != r && IsOpen(View(), q) && reservations[q].server == Some(v))
        decreases |left|
      {
        var q :| q in left;
        if q != r && Open(reservations[q].status) && reservations[q].server == Some(v) {
          assert IsOpen(View(), q);
          return true;
        }
        left := left - {q};
      }
    }

    method SetStatus(r: ReservationId, status: Status)
      requires r in reservations
      modifies this
      ensures View() == WithStatus(old(View()), r, status)
    {
      reservations := reservations[r := reservations[r].(status := status)];
    }

    /** One transaction: pick a free server the query accepts, and bind it. An error when the
        server is still under another open reservation: nothing is bound. */
    method Allocate(r: ReservationId, w: World) returns (server: Option<ServerId>, conflict: bool)
      requires r in reservations && reservations[r].status.Pending?
      modifies this
      ensures server.Some? <==> Placeable(old(View()), r, w)
      ensures conflict <==> Candidates(old(View()), w) != {} && server.None?
      ensures server.None? ==> View() == old(View())
      ensures server.Some? ==>
                server.value == w.pick(Candidates(old(View()), w)) && View() == Allocated(old(View()), r, server.value)
      ensures server.None? && !conflict <==>
                forall v | v in old(servers) && v in w.eligible :: !old(servers)[v].Available?
      ensures server.Some? ==>
                && reservations == old(reservations)[r := old(reservations)[r].(server := server)]
                && servers == old(servers)[server.value := Reserved]
                && (Sound(w) ==> server.value in old(servers) && old(servers)[server.value].Available? &&
                                 server.value in w.eligible)
    {
      var free := Candidates(View(), w);
      if free == {} {
        assert forall u | u in servers && u in w.eligible :: u !in free;
        return None, false;
      }
      var v := w.pick(free);
      conflict := IsTaken(r, v);
      if conflict {
        return None, true;
      }
      reservations := reservations[r := reservations[r].(server := Some(v))];
      servers := servers[v := Reserved];
      server := Some(v);
    }

    method Release(r: ReservationId, final: Status)
      requires r in reservations
      modifies this
      ensures View() == Released(old(View()), r, final)
      ensures reservations == old(reservations)[r := old(reservations)[r].(status := final, settled := true)]
      ensures Freed(old(servers), servers, old(reservations)[r].server)
    {
      var server := reservations[r].server;
      reservations := reservations[r := reservations[r].(status := final, settled := true)];
      if server.Some? && server.value in servers {
        var status := servers[server.value];
        if status.Reserved? || status.Loading? || status.InMatch? {
          servers := servers[server.value := Available];
        }
      }
    }

    /** Mark a server after the retry cap; the write may fail, and its failure is ignored. */
    method Quarantine(v: ServerId, lands: bool)
      modifies this
      ensures View() == Marked(old(View()), v, lands)
    {
      tally := tally.(capped := tally.capped + 1);
      if lands {
        servers := servers[v := Broken];
        tally := tally.(broken := tally.broken + {v});
      } else {
        tally := tally.(lifted := tally.lifted + 1);
      }
    }

    // -------------------------------------------------------------- the cycle

    /** Return the open reservation of a match, or create one and try to place it. */
    method RequestAssignment(m: MatchId, w: World) returns (result: Outcome)
      modifies this
      ensures View() == Requested(old(View()), m, w)
      ensures result.Some? ==> IsOpen(View(), result.value) && reservations[result.value].match_ == m
      ensures result.Some? <==> (HasOpen(old(View()), m)
                                 || (w.assignable(m) && w.configurable(m) &&
                                     !Conflicts(Created(old(View()), m), old(next), w)))
      decreases 0, 3
    {
      hide Candidates, Taken;
      result := FindOpen(m);
      if result.Some? {
        return;
      }
      if !w.assignable(m) {
        return None;
      }
      var r := CreatePending(m);
      if !w.configurable(m) {
        MarkFailed(r);
        return None;
      }
      result := TryAllocateAndLoad(r, w);
    }

    /** Place a pending reservation; with no free server it stays queued. */
    method TryAllocateAndLoad(r: ReservationId, w: World) returns (result: Outcome)
      requires r in reservations && reservations[r].retries + 1 < MAX_LOAD_RETRIES
      modifies this
      ensures View() == Placed(old(View()), r, w)
      ensures result == if Conflicts(old(View()), r, w) then None else Some(r)
      ensures !old(reservations)[r].status.Pending? ==> View() == old(View())
      decreases 0, 2
    {
      hide Candidates, Taken;
      if !reservations[r].status.Pending? {
        return Some(r);
      }
      var server, conflict := Allocate(r, w);
      if conflict {
        return None;
      }
      if server.None? {
        return Some(r);
      }
      result := SendLoad(r, w);
    }

    /** Command the agent to load; a refusal goes to the failure handler. */
    method SendLoad(r: ReservationId, w: World) returns (result: Outcome)
      requires r in reservations && reservations[r].server.Some?
      modifies this
      ensures View() == Loaded(old(View()), r, w)
      ensures result == Some(r) || (result.Some? && IsOpen(View(), result.value))
      ensures old(reservations)[r].retries + 1 < MAX_LOAD_RETRIES ==> result == Some(r)
      ensures w.answers(old(tally.loads)) ==>
                && reservations == old(reservations)[r := old(reservations)[r].(status := Configuring)]
                && servers == old(servers)[old(reservations)[r].server.value := Loading]
      ensures !w.answers(old(tally.loads)) && old(reservations)[r].retries + 1 < MAX_LOAD_RETRIES ==>
                && RefusedOnce(old(reservations), reservations, r)
                && servers == old(servers)
      decreases Rank(r), 1
    {
      hide Requested, Capped;
      var ok := w.answers(tally.loads);
      if ok {
        var v := reservations[r].server.value;
        tally := tally.(loads := tally.loads + 1);
        SetStatus(r, Configuring);
        servers := servers[v := Loading];
        return Some(r);
      }
      result := HandleLoadFailure(r, w);
    }

    /** The database refuses to bind the server the query picked. */
    static predicate Conflicts(s: State, r: ReservationId, w: World) {
      r in s.reservations && s.reservations[r].status.Pending? && Candidates(s, w) != {} &&
        Taken(s, r, w.pick(Candidates(s, w)))
    }

    function Rank(r: ReservationId): nat
      reads this
    {
      if r in reservations && reservations[r].retries + 1 >= MAX_LOAD_RETRIES then 1 else 0
    }

    /** Count the refusal. At the cap: fail the reservation, mark its server, request anew. */
    method HandleLoadFailure(r: ReservationId, w: World) returns (result: Outcome)
      requires r in reservations && reservations[r].server.Some? && !w.answers(tally.loads)
      modifies this
      ensures View() == Loaded(old(View()), r, w)
      ensures result == Some(r) || (result.Some? && IsOpen(View(), result.value))
      ensures old(reservations)[r].retries + 1 < MAX_LOAD_RETRIES ==>
                && result == Some(r) && servers == old(servers)
                && RefusedOnce(old(reservations), reservations, r)
      decreases Rank(r), 0
    {
      hide Requested;
      var row := reservations[r];
      var retries := row.retries + 1;
      reservations := reservations[r := row.(retries := retries)];
      tally := tally.(loads := tally.loads + 1, failures := Plus(tally.failures, row.match_));
      if retries >= MAX_LOAD_RETRIES {
        var mark := w.marks(tally.capped);
        Release(r, Failed);
        Quarantine(row.server.value, mark);
        var replacement := RequestAssignment(row.match_, w);
        if replacement.Some? {
          return replacement;
        }
      }
      result := Some(r);
    }

    // -------------------------------------------------------------- beside the cycle

    /** One listed reservation of a maintenance pass: pending ones are placed or loaded again,
        configuring ones that heard nothing are loaded again. */
    method DriveListed(r: ReservationId, w: World)
      requires Inv(View()) && Sound(w)
      modifies this
      ensures View() == DoDrive(old(View()), r, w)
      ensures tally.loads > old(tally.loads) <==>
                FirstRun(old(View()), r) && (old(reservations)[r].server.Some? || Placeable(old(View()), r, w))
    {
      DriveLoadsExactly(View(), r, w);
      if r in reservations && (reservations[r].status.Pending? || reservations[r].status.Configuring?) {
        hide Requested, Capped;
        if reservations[r].server.Some? {
          var loaded := SendLoad(r, w);
        } else {
          assert Sane(reservations[r]);
          var placed := TryAllocateAndLoad(r, w);
        }
      }
    }

    /** An administrator puts a marked server back. */
    method PutBack(v: ServerId)
      requires Inv(View()) && v in tally.broken
      modifies this
      ensures View() == DoRestore(old(View()), v)
      ensures servers == old(servers)[v := Available] && reservations == old(reservations)
    {
      servers := servers[v := Available];
      tally := tally.(broken := tally.broken - {v}, lifted := tally.lifted + 1);
    }

    /** Cancel the open reservation of a match; false when there is none. */
    method CancelAssignment(m: MatchId) returns (done: bool)
      modifies this
      ensures done == HasOpen(old(View()), m)
      ensures !done ==> View() == old(View())
      ensures done ==> exists r :: IsOpen(old(View()), r) && old(reservations)[r].match_ == m &&
                                   View() == DoFinish(old(View()), r, Cancelled) &&
                                   Freed(old(servers), servers, old(reservations)[r].server) &&
                                   reservations == old(reservations)[r := reservations[r]] &&
                                   reservations[r].status.Cancelled?
    {
      var existing := FindOpen(m);
      if existing.None? {
        return false;
      }
      ghost var was := View();
      if !reservations[existing.value].settled {
        tally := tally.(ended := Plus(tally.ended, m));
      }
      Release(existing.value, Cancelled);
      assert View() == DoFinish(was, existing.value, Cancelled);
      done := true;
    }

    /** series_start and going_live, for a reservation in any status: only the unique indexes can
        refuse the write, and then the event has failed. */
    method ProcessLifecycle(r: ReservationId, live: bool) returns (processed: bool)
      requires r in reservations
      modifies this
      ensures View() == DoWent(old(View()), r, live)
      ensures processed <==> IsOpen(old(View()), r) || !Refused(old(View()), r)
      ensures processed <==>
                || Open(old(reservations)[r].status)
                || forall q | q in old(reservations) && Open(old(reservations)[q].status) ::
                     && old(reservations)[q].match_ != old(reservations)[r].match_
                     && (old(reservations)[r].server.Some? ==>
                           old(reservations)[q].server != old(reservations)[r].server)
      ensures !processed ==> View() == old(View())
      ensures processed ==>
                reservations == old(reservations)[r := old(reservations)[r].(status := if live then Live else Ready)]
      ensures processed ==>
                var held := old(reservations)[r].server;
                servers == if !live && held.Some? && held.value in old(servers)
                           then old(servers)[held.value := InMatch] else old(servers)
    {
      processed := true;
      if !Open(reservations[r].status) {
        var other := FindOpen(reservations[r].match_);
        var taken := false;
        if reservations[r].server.Some? {
          taken := IsTaken(r, reservations[r].server.value);
        }
        if other.Some? || taken {
          return false;
        }
      }
      SetStatus(r, if live then Live else Ready);
      var server := reservations[r].server;
      if live || server.None? {
        return;
      }
      if server.value in servers {
        servers := servers[server.value := InMatch];
      }
      if server.value in tally.broken {
        tally := tally.(broken := tally.broken - {server.value}, lifted := tally.lifted + 1);
      }
    }

    /** The maintenance pass over its listed reservations keeps the table and the bounds. */
    method MaintenancePass(listed: seq<ReservationId>, worlds: seq<World>)
      requires Inv(View()) && |worlds| == |listed| && forall w | w in worlds :: Sound(w)
      modifies this
      ensures Inv(View())
      ensures View() == Run(old(View()), Drives(listed, worlds))
      ensures tally.loads <= old(tally.loads) + 2 * |listed|
    {
      hide Inv, DoDrive;
      ghost var steps := Drives(listed, worlds);
      ghost var start := View();
      for i := 0 to |listed|
        invariant Inv(View()) && View() == Run(start, steps[..i])
        invariant tally.loads <= old(tally.loads) + 2 * i
      {
        Schedules.FoldPrefix(Do, start, steps, i);
        LoadsPerEntry(View(), steps[i]);
        DoKeepsInv(View(), steps[i]);
        DriveListed(listed[i], worlds[i]);
      }
      assert steps[..|listed|] == steps;
    }
  }
}
