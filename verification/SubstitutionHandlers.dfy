/** The substitution handlers over one match's rosters, statement by statement. */
module SubstitutionHandlers {
  import opened Options
  import opened Substitutions
  import Schedules

  datatype Reply = Accepted(row: nat) | NotPlaying | AlreadyPlaying | InFlight | NotAllowed

  /** Neither applied nor given up. */
  predicate InHand(status: Status) {
    !status.Applied? && !status.Cancelled? && !status.Rejected?
  }

  class MatchRosters {
    const base1: seq<Player>
    const base2: seq<Player>
    var subs: seq<Sub>
    var server: set<Listing>

    function View(): State
      reads this
    {
      State(base1, base2, subs, server)
    }

    /** The server is loaded with the registered rosters. */
    constructor (team1: seq<Player>, team2: seq<Player>)
      ensures View() == State(team1, team2, [], server) && Synced(View())
    {
      base1, base2, subs := team1, team2, [];
      server := (set p | p in team1 :: Listing(Team1, p)) + (set p | p in team2 :: Listing(Team2, p));
    }

    /** Registered players with the applied rows of this side swapped in, oldest row first. */
    method EffectivePlayerIds(side: Side) returns (players: seq<Player>)
      ensures players == Effective(View(), side)
    {
      players := if side == Team1 then base1 else base2;
      for k := 0 to |subs|
        invariant players == Folded(Base(View(), side), subs[..k], side)
      {
        assert subs[..k + 1][..k] == subs[..k];
        if subs[k].status.Applied? && subs[k].side == side {
          players := Retain(players, subs[k].outgoing);
          if subs[k].incoming.Some? {
            players := players + [subs[k].incoming.value];
          }
        }
      }
      assert subs[..|subs|] == subs;
    }

    method SetStatus(i: nat, status: Status)
      requires i < |subs|
      modifies this`subs
      ensures subs == old(subs)[i := old(subs)[i].(status := status)]
    {
      subs := subs[i := subs[i].(status := status)];
    }

    /** Mark the row applying, send the edit, and mark it applied only when the server took it. */
    method ApplySubstitution(i: nat, answer: Answer)
      requires i < |subs|
      modifies this`subs, this`server
      ensures View() == Apply(old(View()), i, answer)
      ensures subs == old(subs)[i := old(subs)[i].(status := if answer == Done then Applied else Applying)]
      ensures answer != Done ==> server == old(server)
      ensures answer == Done ==>
                forall x :: x in server <==>
                  || (x.side == old(subs)[i].side && old(subs)[i].incoming == Some(x.player))
                  || (x in old(server) && x.player != old(subs)[i].outgoing)
    {
      SetStatus(i, Applying);
      if answer == Done {
        server := Edit(server, subs[i]);
        SetStatus(i, Applied);
      }
    }

    /** `request_substitution`: validate against both effective rosters, insert, and apply
        unless the policy wants an approval first. */
    method RequestSubstitution(outgoing: Player, incoming: Option<Player>, allowed: bool, needsApproval: bool,
                               answer: Answer)
      returns (reply: Reply)
      modifies this`subs, this`server
      ensures View() == Do(old(View()), Request(outgoing, incoming, allowed, needsApproval, answer))
      ensures reply.Accepted? <==> allowed && old(Admissible(View(), outgoing, incoming))
      ensures var playing1, playing2 := old(Effective(View(), Team1)), old(Effective(View(), Team2));
              && (reply.NotPlaying? <==> outgoing !in playing1 && outgoing !in playing2)
              && (reply.NotAllowed? <==> (outgoing in playing1 || outgoing in playing2) && !allowed)
              && (reply.AlreadyPlaying? <==>
                    (outgoing in playing1 || outgoing in playing2) && allowed &&
                    incoming.Some? && (incoming.value in playing1 || incoming.value in playing2))
      ensures reply.InFlight? ==> exists i | 0 <= i < |subs| :: subs[i].outgoing == outgoing && InHand(subs[i].status)
      ensures !reply.Accepted? ==> View() == old(View())
      ensures reply.Accepted? ==>
                && reply.row == |old(subs)| == |subs| - 1 && subs[..reply.row] == old(subs)
                && subs[reply.row].outgoing == outgoing && subs[reply.row].incoming == incoming
                && subs[reply.row].side == (if outgoing in old(Effective(View(), Team1)) then Team1 else Team2)
                && subs[reply.row].status == (if needsApproval then AwaitingApproval
                                              else if answer == Done then Applied else Applying)
                && forall i | 0 <= i < reply.row :: subs[i].outgoing == outgoing ==> !InHand(subs[i].status)
    {
      var team1 := EffectivePlayerIds(Team1);
      var team2 := EffectivePlayerIds(Team2);
      if outgoing !in team1 && outgoing !in team2 {
        return NotPlaying;
      }
      var side := if outgoing in team1 then Team1 else Team2;
      if !allowed {
        return NotAllowed;
      }
      if incoming.Some? && (incoming.value in team1 || incoming.value in team2) {
        return AlreadyPlaying;
      }
      if exists i | 0 <= i < |subs| :: subs[i].outgoing == outgoing && Live(subs[i].status) {
        return InFlight;
      }
      reply := Accepted(|subs|);
      subs := subs + [Sub(side, outgoing, incoming, if needsApproval then AwaitingApproval else Pending)];
      if !needsApproval {
        ApplySubstitution(|subs| - 1, answer);
      }
    }

    /** `approve_and_apply`, behind the handler's status check. */
    method ApproveAndApply(i: nat, answer: Answer)
      modifies this`subs, this`server
      ensures View() == Do(old(View()), Approve(i, answer))
      ensures subs == if i < |old(subs)| && old(subs)[i].status.AwaitingApproval?
                      then old(subs)[i := old(subs)[i].(status := if answer == Done then Applied else Applying)]
                      else old(subs)
    {
      if i < |subs| && subs[i].status.AwaitingApproval? {
        SetStatus(i, Pending);
        ApplySubstitution(i, answer);
      }
    }

    /** `cancel_substitution`, behind the check on the caller: any row but an applied one. */
    method CancelSubstitution(i: nat) returns (done: bool)
      requires i < |subs|
      modifies this`subs
      ensures View() == Do(old(View()), Cancel(i))
      ensures done <==> !old(subs)[i].status.Applied?
      ensures subs == if done then old(subs)[i := old(subs)[i].(status := Cancelled)] else old(subs)
    {
      done := !subs[i].status.Applied?;
      if done {
        SetStatus(i, Cancelled);
      }
    }

    /** `reject_substitution`: only a row that is still to be applied. */
    method RejectSubstitution(i: nat) returns (done: bool)
      requires i < |subs|
      modifies this`subs
      ensures View() == Do(old(View()), Reject(i))
      ensures done <==> InHand(old(subs)[i].status)
      ensures subs == if done then old(subs)[i := old(subs)[i].(status := Rejected)] else old(subs)
    {
      done := subs[i].status.Pending? || subs[i].status.AwaitingApproval? || subs[i].status.Applying?;
      if done {
        SetStatus(i, Rejected);
      }
    }

    /** `retry_applying_substitutions`: the rows parked when it starts, oldest first. */
    method RetryApplying(answers: seq<Answer>) returns (ghost log: seq<Action>)
      requires |answers| == |subs|
      modifies this`subs, this`server
      ensures View() == Run(old(View()), log)
      ensures forall i | 0 <= i < |log| :: log[i].Retry?
      ensures |subs| == |old(subs)|
      ensures forall i | 0 <= i < |subs| ::
                subs[i] == if old(subs)[i].status.Applying? && answers[i] == Done
                           then old(subs)[i].(status := Applied) else old(subs)[i]
    {
      ghost var start := View();
      log := [];
      for k := 0 to |subs|
        invariant |subs| == |start.subs|
        invariant View() == Run(start, log)
        invariant forall i | 0 <= i < |log| :: log[i].Retry?
        invariant forall i | k <= i < |subs| :: subs[i] == start.subs[i]
        invariant forall i | 0 <= i < k ::
                    subs[i] == if start.subs[i].status.Applying? && answers[i] == Done
                               then start.subs[i].(status := Applied) else start.subs[i]
      {
        if subs[k].status.Applying? {
          Schedules.FoldSnoc(Do, start, log, Retry(k, answers[k]));
          log := log + [Retry(k, answers[k])];
          ApplySubstitution(k, answers[k]);
        }
      }
    }
  }
}
