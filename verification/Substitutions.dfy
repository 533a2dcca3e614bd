/**
 Mid-series substitutions: one roster held in two places.

 The server's roster is edited one substitution at a time, in the order the edits land.
 The database recomputes it by folding the applied rows over the registered roster, in the
 order the rows were *created*. The two agree only while those orders do not conflict; the
 exact condition for one edit is `Settles`, and every run whose edits meet it keeps them equal.
*/
module Substitutions {
  import opened Options
  import Schedules
  import opened Collections

  type Player = nat

  datatype Side = Team1 | Team2

  datatype Status = AwaitingApproval | Pending | Applying | Applied | Cancelled | Rejected

  /** A row of `match_substitutions`; `incoming` is None when the side plays short-handed. */
  datatype Sub = Sub(side: Side, outgoing: Player, incoming: Option<Player>, status: Status)

  datatype Listing = Listing(side: Side, player: Player)

  /** `subs` in creation order; `server` is who the running server lists. */
  datatype State = State(base1: seq<Player>, base2: seq<Player>, subs: seq<Sub>, server: set<Listing>)

  /** How the agent answers a roster edit. Blocked and Refused edits are taken as not applied. */
  datatype Answer = Done | Blocked | Refused

  function Other(side: Side): Side {
    if side == Team1 then Team2 else Team1
  }

  function Base(s: State, side: Side): seq<Player> {
    if side == Team1 then s.base1 else s.base2
  }

  // ---------------------------------------------------------------- the database fold

  function Retain(players: seq<Player>, gone: Player): (r: seq<Player>)
    ensures forall p :: p in r <==> p in players && p != gone
  {
    if players == [] then []
    else
      var rest := Retain(players[..|players| - 1], gone);
      if players[|players| - 1] == gone then rest else rest + [players[|players| - 1]]
  }

  function Swap(players: seq<Player>, sub: Sub): seq<Player> {
    Retain(players, sub.outgoing) + if sub.incoming.Some? then [sub.incoming.value] else []
  }

  predicate Counts(sub: Sub, side: Side) {
    sub.status.Applied? && sub.side == side
  }

  function Folded(players: seq<Player>, subs: seq<Sub>, side: Side): seq<Player> {
    if subs == [] then players
    else
      var before := Folded(players, subs[..|subs| - 1], side);
      if Counts(subs[|subs| - 1], side) then Swap(before, subs[|subs| - 1]) else before
  }

  function Effective(s: State, side: Side): seq<Player> {
    Folded(Base(s, side), s.subs, side)
  }

  /** The server lists exactly the players the database would recompute. */
  ghost predicate Synced(s: State) {
    forall side, p :: Listing(side, p) in s.server <==> p in Effective(s, side)
  }

  // ---------------------------------------------------------------- the handlers

  /** The roster edit on the server: the removal names no team, the addition does. */
  function Edit(server: set<Listing>, sub: Sub): set<Listing> {
    server - {Listing(Team1, sub.outgoing), Listing(Team2, sub.outgoing)}
    + if sub.incoming.Some? then {Listing(sub.side, sub.incoming.value)} else {}
  }

  function WithStatus(s: State, i: nat, status: Status): State
    requires i < |s.subs|
  {
    s.(subs := s.subs[i := s.subs[i].(status := status)])
  }

  /** `apply_substitution` on row `i`. */
  function Apply(s: State, i: nat, answer: Answer): State
    requires i < |s.subs|
  {
    if answer == Done
    then WithStatus(s, i, Applied).(server := Edit(s.server, s.subs[i]))
    else WithStatus(s, i, Applying)
  }

  predicate Live(status: Status) {
    status.Pending? || status.AwaitingApproval? || status.Applying?
  }

  predicate Playing(s: State, p: Player) {
    p in Effective(s, Team1) || p in Effective(s, Team2)
  }

  /** What `request_substitution` and the live-row index demand of a request. */
  predicate Admissible(s: State, outgoing: Player, incoming: Option<Player>) {
    && Playing(s, outgoing)
    && (incoming.Some? ==> !Playing(s, incoming.value))
    && (forall i | 0 <= i < |s.subs| :: s.subs[i].outgoing == outgoing ==> !Live(s.subs[i].status))
  }

  function SideOf(s: State, p: Player): Side {
    if p in Effective(s, Team1) then Team1 else Team2
  }

  datatype Action =
    | Request(outgoing: Player, incoming: Option<Player>, allowed: bool, needsApproval: bool, answer: Answer)
    | Approve(i: nat, answer: Answer)
    | Retry(i: nat, answer: Answer)
    | Cancel(i: nat)
    | Reject(i: nat)

  function DoRequest(s: State, a: Action): State
    requires a.Request?
  {
    if !(a.allowed && Admissible(s, a.outgoing, a.incoming)) then s
    else
      var status := if a.needsApproval then AwaitingApproval else Pending;
      var r := s.(subs := s.subs + [Sub(SideOf(s, a.outgoing), a.outgoing, a.incoming, status)]);
      if a.needsApproval then r else Apply(r, |s.subs|, a.answer)
  }

  /** One handler, run to its end. `allowed` stands for the checks on the requester, the
      roster and the Steam link. */
  function Do(s: State, a: Action): State {
    match a
    case Request(_, _, _, _, _) => DoRequest(s, a)
    case Approve(i, answer) =>
      if i < |s.subs| && s.subs[i].status.AwaitingApproval? then Apply(s, i, answer) else s
    case Retry(i, answer) =>
      if i < |s.subs| && s.subs[i].status.Applying? then Apply(s, i, answer) else s
    case Cancel(i) =>
      if i < |s.subs| && !s.subs[i].status.Applied? then WithStatus(s, i, Cancelled) else s
    case Reject(i) =>
      if i < |s.subs| && Live(s.subs[i].status) then WithStatus(s, i, Rejected) else s
  }

  function Run(s: State, actions: seq<Action>): State {
    Schedules.Fold(Do, s, actions)
  }

  // ---------------------------------------------------------------- who decides a player

  predicate Mentions(sub: Sub, p: Player) {
    sub.outgoing == p || sub.incoming == Some(p)
  }

  lemma SwapMembers(players: seq<Player>, sub: Sub, p: Player)
    ensures p in Swap(players, sub) <==> if Mentions(sub, p) then sub.incoming == Some(p) else p in players
  {
  }

  /** A player no counted row mentions keeps its place. */
  lemma {:induction false} FoldedUnmentioned(players: seq<Player>, subs: seq<Sub>, side: Side, p: Player)
    requires forall j | 0 <= j < |subs| && Counts(subs[j], side) :: !Mentions(subs[j], p)
    ensures p in Folded(players, subs, side) <==> p in players
  {
    if subs != [] {
      var n := |subs| - 1;
      FoldedUnmentioned(players, subs[..n], side, p);
      SwapMembers(Folded(players, subs[..n], side), subs[n], p);
    }
  }

  /** Only the last counted row that mentions a player decides it. */
  lemma {:induction false} FoldedDecided(players: seq<Player>, subs: seq<Sub>, side: Side, p: Player, j: nat)
    requires j < |subs| && Counts(subs[j], side) && Mentions(subs[j], p)
    requires forall k | j < k < |subs| && Counts(subs[k], side) :: !Mentions(subs[k], p)
    ensures p in Folded(players, subs, side) <==> subs[j].incoming == Some(p)
  {
    var n := |subs| - 1;
    SwapMembers(Folded(players, subs[..n], side), subs[n], p);
    if j < n {
      FoldedDecided(players, subs[..n], side, p, j);
    }
  }

  /** A counted row of this side, created after row `i`, mentions the player. */
  predicate MentionedLater(s: State, i: nat, p: Player)
    requires i < |s.subs|
  {
    exists j | i < j < |s.subs| :: Counts(s.subs[j], s.subs[i].side) && Mentions(s.subs[j], p)
  }

  lemma LastMention(subs: seq<Sub>, side: Side, p: Player, j: nat) returns (k: nat)
    requires j < |subs| && Counts(subs[j], side) && Mentions(subs[j], p)
    ensures j <= k < |subs| && Counts(subs[k], side) && Mentions(subs[k], p)
    ensures forall m | k < m < |subs| && Counts(subs[m], side) :: !Mentions(subs[m], p)
    decreases |subs| - j
  {
    k := j;
    if m :| j < m < |subs| && Counts(subs[m], side) && Mentions(subs[m], p) {
      k := LastMention(subs, side, p, m);
    }
  }

  /** Applying row `i` changes a player's place in the fold exactly when the row mentions it
      and no counted row created later does. */
  lemma AppliedMembers(s: State, i: nat, p: Player)
    requires i < |s.subs| && !s.subs[i].status.Applied?
    ensures var side := s.subs[i].side; var r := Apply(s, i, Done);
            p in Effective(r, side) <==>
              if Mentions(s.subs[i], p) && !MentionedLater(s, i, p) then s.subs[i].incoming == Some(p)
              else p in Effective(s, side)
  {
    var side, r := s.subs[i].side, Apply(s, i, Done);
    assert forall j | 0 <= j < |s.subs| && j != i :: r.subs[j] == s.subs[j];
    if MentionedLater(s, i, p) {
      var j :| i < j < |s.subs| && Counts(s.subs[j], side) && Mentions(s.subs[j], p);
      var k := LastMention(s.subs, side, p, j);
      FoldedDecided(Base(s, side), s.subs, side, p, k);
      FoldedDecided(Base(s, side), r.subs, side, p, k);
    } else if Mentions(s.subs[i], p) {
      FoldedDecided(Base(s, side), r.subs, side, p, i);
    } else {
      SameMentions(s, r, i, p);
    }
  }

  lemma SameMentions(s: State, r: State, i: nat, p: Player)
    requires i < |s.subs| && r == Apply(s, i, Done) && !s.subs[i].status.Applied? && !Mentions(s.subs[i], p)
    ensures p in Effective(r, s.subs[i].side) <==> p in Effective(s, s.subs[i].side)
  {
    var side := s.subs[i].side;
    assert forall j | 0 <= j < |s.subs| && j != i :: r.subs[j] == s.subs[j];
    if j :| 0 <= j < |s.subs| && Counts(s.subs[j], side) && Mentions(s.subs[j], p) {
      var k := LastMention(s.subs, side, p, j);
      FoldedDecided(Base(s, side), s.subs, side, p, k);
      FoldedDecided(Base(s, side), r.subs, side, p, k);
    } else {
      FoldedUnmentioned(Base(s, side), s.subs, side, p);
      FoldedUnmentioned(Base(s, side), r.subs, side, p);
    }
  }

  /** Changing row `i` of one side leaves the other side's fold alone. */
  lemma {:induction false} OtherSideKept(players: seq<Player>, subs: seq<Sub>, i: nat, changed: Sub, side: Side)
    requires i < |subs| && !Counts(subs[i], side) && !Counts(changed, side)
    ensures Folded(players, subs[i := changed], side) == Folded(players, subs, side)
  {
    var n := |subs| - 1;
    if i < n {
      assert subs[i := changed][..n] == subs[..n][i := changed];
      OtherSideKept(players, subs[..n], i, changed, side);
    } else {
      assert subs[i := changed][..n] == subs[..n];
    }
  }

  // ---------------------------------------------------------------- the exact condition

  /** The edit of row `i` agrees with the fold: no row created later has already settled one
      of its players the other way, and its outgoing player is not also on the other side. */
  predicate Settles(s: State, i: nat)
    requires i < |s.subs|
  {
    var sub := s.subs[i];
    && (sub.incoming.Some? && MentionedLater(s, i, sub.incoming.value) ==>
          sub.incoming.value in Effective(s, sub.side))
    && (sub.incoming != Some(sub.outgoing) && MentionedLater(s, i, sub.outgoing) ==>
          sub.outgoing !in Effective(s, sub.side))
    && sub.outgoing !in Effective(s, Other(sub.side))
  }

  lemma EditMembers(server: set<Listing>, sub: Sub, side: Side, p: Player)
    ensures Listing(side, p) in Edit(server, sub) <==>
              (side == sub.side && sub.incoming == Some(p)) || (Listing(side, p) in server && p != sub.outgoing)
  {
  }

  /** From an agreeing state, an edit that lands keeps server and database equal exactly
      when `Settles` held before it. */
  lemma EditStaysSyncedExactly(s: State, i: nat)
    requires Synced(s) && i < |s.subs| && !s.subs[i].status.Applied?
    ensures Synced(Apply(s, i, Done)) <==> Settles(s, i)
  {
    var r, sub := Apply(s, i, Done), s.subs[i];
    OtherSideKept(Base(s, Other(sub.side)), s.subs, i, sub.(status := Applied), Other(sub.side));
    assert Effective(r, Other(sub.side)) == Effective(s, Other(sub.side));
    if Settles(s, i) {
      forall side, p ensures Listing(side, p) in r.server <==> p in Effective(r, side) {
        EditMembers(s.server, sub, side, p);
        AppliedMembers(s, i, p);
      }
    } else {
      Unsettled(s, i);
    }
  }

  lemma Unsettled(s: State, i: nat)
    requires Synced(s) && i < |s.subs| && !s.subs[i].status.Applied? && !Settles(s, i)
    requires Effective(Apply(s, i, Done), Other(s.subs[i].side)) == Effective(s, Other(s.subs[i].side))
    ensures !Synced(Apply(s, i, Done))
  {
    var r, sub := Apply(s, i, Done), s.subs[i];
    AppliedMembers(s, i, sub.outgoing);
    EditMembers(s.server, sub, sub.side, sub.outgoing);
    EditMembers(s.server, sub, Other(sub.side), sub.outgoing);
    assert Listing(sub.side, sub.outgoing) in r.server <==> sub.incoming == Some(sub.outgoing);
    assert Listing(Other(sub.side), sub.outgoing) !in r.server;
    if sub.incoming.Some? {
      AppliedMembers(s, i, sub.incoming.value);
      EditMembers(s.server, sub, sub.side, sub.incoming.value);
      assert Listing(sub.side, sub.incoming.value) in r.server;
    }
  }

  // ---------------------------------------------------------------- over whole runs

  /** The state in which the action's edit lands, and the row it lands for, if it does. */
  function Landing(s: State, a: Action): Option<(State, nat)> {
    match a
    case Request(outgoing, incoming, allowed, needsApproval, answer) =>
      if allowed && Admissible(s, outgoing, incoming) && !needsApproval && answer == Done
      then Some((s.(subs := s.subs + [Sub(SideOf(s, outgoing), outgoing, incoming, Pending)]), |s.subs|))
      else None
    case Approve(i, answer) =>
      if i < |s.subs| && s.subs[i].status.AwaitingApproval? && answer == Done then Some((s, i)) else None
    case Retry(i, answer) =>
      if i < |s.subs| && s.subs[i].status.Applying? && answer == Done then Some((s, i)) else None
    case _ => None
  }

  /** If the action lands an edit, the edit settles. */
  predicate Orderly(s: State, a: Action) {
    var landing := Landing(s, a);
    landing.Some? ==> landing.value.1 < |landing.value.0.subs| && Settles(landing.value.0, landing.value.1)
  }

  lemma UncountedKept(s: State, i: nat, status: Status)
    requires i < |s.subs| && !s.subs[i].status.Applied? && !status.Applied?
    ensures forall side :: Effective(WithStatus(s, i, status), side) == Effective(s, side)
  {
    forall side ensures Effective(WithStatus(s, i, status), side) == Effective(s, side) {
      OtherSideKept(Base(s, side), s.subs, i, s.subs[i].(status := status), side);
    }
  }

  lemma RequestKept(s: State, sub: Sub)
    requires !sub.status.Applied?
    ensures forall side :: Effective(s.(subs := s.subs + [sub]), side) == Effective(s, side)
  {
    assert (s.subs + [sub])[..|s.subs|] == s.subs;
  }

  /** One handler keeps the two rosters equal exactly when the edit it lands settles. */
  lemma DoStaysSyncedExactly(s: State, a: Action)
    requires Synced(s)
    ensures Synced(Do(s, a)) <==> Orderly(s, a)
  {
    hide Folded, Settles;
    match a
    case Request(outgoing, incoming, allowed, needsApproval, answer) =>
      if allowed && Admissible(s, outgoing, incoming) {
        RequestStaysSyncedExactly(s, a);
      }
    case Approve(i, answer) =>
      if Do(s, a) != s {
        ApplyStaysSynced(s, i, answer);
      }
    case Retry(i, answer) =>
      if i < |s.subs| && s.subs[i].status.Applying? {
        ApplyStaysSynced(s, i, answer);
      }
    case Cancel(i) =>
      if Do(s, a) != s {
        UncountedKept(s, i, Cancelled);
      }
    case Reject(i) =>
      if Do(s, a) != s {
        UncountedKept(s, i, Rejected);
      }
  }

  lemma ApplyStaysSynced(s: State, i: nat, answer: Answer)
    requires Synced(s) && i < |s.subs| && !s.subs[i].status.Applied?
    ensures Synced(Apply(s, i, answer)) <==> (answer == Done ==> Settles(s, i))
  {
    if answer == Done {
      EditStaysSyncedExactly(s, i);
    } else {
      UncountedKept(s, i, Applying);
    }
  }

  lemma RequestStaysSyncedExactly(s: State, a: Action)
    requires Synced(s) && a.Request? && a.allowed && Admissible(s, a.outgoing, a.incoming)
    ensures Synced(Do(s, a)) <==> Orderly(s, a)
  {
    hide Folded, Settles;
    var status := if a.needsApproval then AwaitingApproval else Pending;
    var sub := Sub(SideOf(s, a.outgoing), a.outgoing, a.incoming, status);
    var r := s.(subs := s.subs + [sub]);
    RequestKept(s, sub);
    assert Synced(r);
    if !a.needsApproval {
      ApplyStaysSynced(r, |s.subs|, a.answer);
    }
  }

  ghost predicate OrderlyRun(s: State, actions: seq<Action>) {
    forall i | 0 <= i < |actions| :: Orderly(Run(s, actions[..i]), actions[i])
  }

  /** Over any run of requests, approvals, halftime blocks, agent failures, retries and
      cancellations whose landed edits settle, the server's roster is the database's. */
  lemma {:induction false} OrderlyRunStaysSynced(s: State, actions: seq<Action>)
    requires Synced(s) && OrderlyRun(s, actions)
    ensures Synced(Run(s, actions))
    decreases |actions|
  {
    if actions != [] {
      var n := |actions| - 1;
      forall i | 0 <= i < n ensures Orderly(Run(s, actions[..n][..i]), actions[..n][i]) {
        assert actions[..n][..i] == actions[..i];
      }
      OrderlyRunStaysSynced(s, actions[..n]);
      DoStaysSyncedExactly(Run(s, actions[..n]), actions[n]);
    }
  }

  /** An edit lands for a row none of whose successors is applied, and whose outgoing player is
      not on the other side as well. */
  predicate InCreationOrder(s: State, a: Action) {
    var landing := Landing(s, a);
    landing.Some? ==>
      var (at, i) := landing.value;
      && i < |at.subs|
      && (forall j | i < j < |at.subs| :: !at.subs[j].status.Applied?)
      && at.subs[i].outgoing !in Effective(at, Other(at.subs[i].side))
  }

  ghost predicate CreationOrderRun(s: State, actions: seq<Action>) {
    forall i | 0 <= i < |actions| :: InCreationOrder(Run(s, actions[..i]), actions[i])
  }

  /** Approved late or retried often: while the edits land in the order of the requests, the
      rosters stay equal, with no condition on the rosters themselves but that a player leaves
      one side only. */
  lemma CreationOrderStaysSynced(s: State, actions: seq<Action>)
    requires Synced(s) && CreationOrderRun(s, actions)
    ensures Synced(Run(s, actions))
  {
    forall i | 0 <= i < |actions| ensures Orderly(Run(s, actions[..i]), actions[i]) {
      InOrderIsOrderly(Run(s, actions[..i]), actions[i]);
    }
    OrderlyRunStaysSynced(s, actions);
  }

  lemma InOrderIsOrderly(s: State, a: Action)
    requires InCreationOrder(s, a)
    ensures Orderly(s, a)
  {
  }

  // ---------------------------------------------------------------- edits that land at once

  ghost predicate SidesDisjoint(s: State) {
    forall p :: !(p in Effective(s, Team1) && p in Effective(s, Team2))
  }

  /** The rosters a match starts from, and what immediate edits keep. */
  ghost predicate Tidy(s: State) {
    Synced(s) && SidesDisjoint(s) && NoRepeats(Effective(s, Team1)) && NoRepeats(Effective(s, Team2))
  }

  /** The default policy on a server that accepts the edit. */
  predicate Immediate(a: Action) {
    a.Request? && !a.needsApproval && a.answer == Done
  }

  lemma {:induction false} RetainNoRepeats(players: seq<Player>, gone: Player)
    requires NoRepeats(players)
    ensures NoRepeats(Retain(players, gone))
  {
    if players != [] {
      var n := |players| - 1;
      RetainNoRepeats(players[..n], gone);
      assert players[n] !in players[..n];
    }
  }

  lemma ImmediateKeepsTidy(s: State, a: Action)
    requires Tidy(s) && Immediate(a)
    ensures Tidy(Do(s, a))
  {
    if a.allowed && Admissible(s, a.outgoing, a.incoming) {
      var side := SideOf(s, a.outgoing);
      var sub := Sub(side, a.outgoing, a.incoming, Pending);
      var p := s.(subs := s.subs + [sub]);
      var r := Do(s, a);
      RequestKept(s, sub);
      assert r == Apply(p, |s.subs|, Done);
      assert r.subs[..|s.subs|] == s.subs;
      var done := sub.(status := Applied);
      assert Effective(r, side) == Swap(Effective(s, side), done);
      assert Effective(r, Other(side)) == Effective(s, Other(side));
      hide Folded;
      RetainNoRepeats(Effective(s, side), a.outgoing);
      assert NoRepeats(Effective(r, side));
      ImmediateKeepsDisjoint(s, r, done);
      DoStaysSyncedExactly(s, a);
    }
  }

  lemma ImmediateKeepsDisjoint(s: State, r: State, sub: Sub)
    requires SidesDisjoint(s) && (sub.incoming.Some? ==> !Playing(s, sub.incoming.value))
    requires Effective(r, sub.side) == Swap(Effective(s, sub.side), sub)
    requires Effective(r, Other(sub.side)) == Effective(s, Other(sub.side))
    ensures SidesDisjoint(r)
  {
    forall p ensures !(p in Effective(r, Team1) && p in Effective(r, Team2)) {
      SwapMembers(Effective(s, sub.side), sub, p);
    }
  }

  /** When every edit lands as it is requested, the rosters stay equal, disjoint and free of
      repeats, whoever is swapped in and out. */
  lemma {:induction false} ImmediateRunStaysTidy(s: State, actions: seq<Action>)
    requires Tidy(s) && forall i | 0 <= i < |actions| :: Immediate(actions[i])
    ensures Tidy(Run(s, actions))
    decreases |actions|
  {
    if actions != [] {
      ImmediateRunStaysTidy(s, actions[..|actions| - 1]);
      ImmediateKeepsTidy(Run(s, actions[..|actions| - 1]), actions[|actions| - 1]);
    }
  }

  /** What one such request does: the outgoing player stops playing, the incoming one plays, on
      the outgoing one's side, and nobody else's place changes. */
  lemma ImmediateSwaps(s: State, a: Action, side: Side, p: Player)
    requires Tidy(s) && Immediate(a) && a.allowed && Admissible(s, a.outgoing, a.incoming)
    ensures p in Effective(Do(s, a), side) <==>
              p != a.outgoing &&
              (p in Effective(s, side) || (a.incoming == Some(p) && a.outgoing in Effective(s, side)))
  {
    var own := SideOf(s, a.outgoing);
    var sub := Sub(own, a.outgoing, a.incoming, Pending);
    var q := s.(subs := s.subs + [sub]);
    var r := Do(s, a);
    RequestKept(s, sub);
    assert r == Apply(q, |s.subs|, Done);
    assert r.subs[..|s.subs|] == s.subs;
    assert Effective(r, own) == Swap(Effective(s, own), sub.(status := Applied));
    assert Effective(r, Other(own)) == Effective(s, Other(own));
    assert a.outgoing in Effective(s, own) && a.outgoing !in Effective(s, Other(own));
    hide Folded, Effective, Do;
    SwapMembers(Effective(s, own), sub.(status := Applied), p);
    assert side == own || side == Other(own);
  }

  // ---------------------------------------------------------------- one request for a player

  /** The live-row index: no two live rows take out the same player. */
  ghost predicate OneLive(s: State) {
    forall i, j | 0 <= i < j < |s.subs| && Live(s.subs[i].status) && Live(s.subs[j].status) ::
      s.subs[i].outgoing != s.subs[j].outgoing
  }

  lemma OneLiveStep(s: State, a: Action)
    requires OneLive(s)
    ensures OneLive(Do(s, a))
  {
    hide Effective;
  }

  /** Over any run: a player is never to be taken out by two requests at a time. */
  lemma {:induction false} OneLiveRun(s: State, actions: seq<Action>)
    requires OneLive(s)
    ensures OneLive(Run(s, actions))
    decreases |actions|
  {
    if actions != [] {
      OneLiveRun(s, actions[..|actions| - 1]);
      OneLiveStep(Run(s, actions[..|actions| - 1]), actions[|actions| - 1]);
    }
  }

  // ---------------------------------------------------------------- approvals out of order

  /** Player 3 replaces 2, then 4 replaces 3, and only then the first request, 3 for 1, is approved. */
  const Crossed: seq<Action> :=
    [Request(1, Some(3), true, true, Done), Request(2, Some(3), true, true, Done), Approve(1, Done),
     Request(3, Some(4), true, true, Done), Approve(2, Done), Approve(0, Done)]

  const Kickoff := State([1, 2], [5], [], {Listing(Team1, 1), Listing(Team1, 2), Listing(Team2, 5)})

  lemma Step(n: nat)
    requires n < |Crossed|
    ensures Run(Kickoff, Crossed[..n + 1]) == Do(Run(Kickoff, Crossed[..n]), Crossed[n])
  {
    Schedules.FoldPrefix(Do, Kickoff, Crossed, n);
  }

  function Row(outgoing: Player, incoming: Player, status: Status): Sub {
    Sub(Team1, outgoing, Some(incoming), status)
  }

  lemma CrossedRequests()
    ensures Run(Kickoff, Crossed[..2]) ==
            Kickoff.(subs := [Row(1, 3, AwaitingApproval), Row(2, 3, AwaitingApproval)])
  {
    assert Run(Kickoff, Crossed[..0]) == Kickoff;
    hide Schedules.Fold;
    Step(0);
    Step(1);
    var s := Kickoff.(subs := [Row(1, 3, AwaitingApproval)]);
    RequestKept(Kickoff, s.subs[0]);
    assert Kickoff.subs + [s.subs[0]] == s.subs;
  }

  lemma CrossedSwaps()
    ensures Run(Kickoff, Crossed[..5]) ==
            State([1, 2], [5], [Row(1, 3, AwaitingApproval), Row(2, 3, Applied), Row(3, 4, Applied)],
                  {Listing(Team1, 1), Listing(Team1, 4), Listing(Team2, 5)})
  {
    hide Schedules.Fold;
    CrossedRequests();
    Step(2);
    var s := State([1, 2], [5], [Row(1, 3, AwaitingApproval), Row(2, 3, Applied)],
                   {Listing(Team1, 1), Listing(Team1, 3), Listing(Team2, 5)});
    assert Run(Kickoff, Crossed[..3]) == s;
    SwappedIn(s);
    Step(3);
    Step(4);
  }

  lemma SwappedIn(s: State)
    requires s == State([1, 2], [5], [Row(1, 3, AwaitingApproval), Row(2, 3, Applied)],
                        {Listing(Team1, 1), Listing(Team1, 3), Listing(Team2, 5)})
    ensures 3 in Effective(s, Team1) && !Playing(s, 4)
  {
    FoldedDecided([1, 2], s.subs, Team1, 3, 1);
    FoldedUnmentioned([1, 2], s.subs, Team1, 4);
    FoldedUnmentioned([5], s.subs, Team2, 4);
  }

  /** Every request in this run passes its checks, and still the rosters part: the server
      lists player 3 for team 1, the database does not. */
  lemma ApprovalsCanCross()
    ensures Synced(Kickoff)
    ensures var r := Run(Kickoff, Crossed); Listing(Team1, 3) in r.server && 3 !in Effective(r, Team1)
  {
    hide Schedules.Fold;
    CrossedSwaps();
    Step(5);
    assert Crossed[..6] == Crossed;
    LateApproval(Run(Kickoff, Crossed[..5]));
  }

  lemma LateApproval(s: State)
    requires s == State([1, 2], [5], [Row(1, 3, AwaitingApproval), Row(2, 3, Applied), Row(3, 4, Applied)],
                        {Listing(Team1, 1), Listing(Team1, 4), Listing(Team2, 5)})
    ensures var r := Do(s, Approve(0, Done)); Listing(Team1, 3) in r.server && 3 !in Effective(r, Team1)
  {
    var r := Do(s, Approve(0, Done));
    assert r.subs == [Row(1, 3, Applied), Row(2, 3, Applied), Row(3, 4, Applied)];
    assert Base(r, Team1) == [1, 2] && Listing(Team1, 3) in r.server;
    hide Do;
    FoldedDecided([1, 2], r.subs, Team1, 3, 2);
  }
}
