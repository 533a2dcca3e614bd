/**
 Findings about who played: from the demos and the lineups of a match to the review that
 captains and admins see. Names, maps and restrictions are strings; what an eligibility
 service or a roster says is a parameter.
*/
module Findings {
  import opened Options

  type AccountId = nat
  type LinkId = nat

  datatype Side = One | Two

  datatype Player = Player(steam: string, name: string, team: Option<string>, account: Option<AccountId>)

  datatype Score = Score(first: int, second: int)

  datatype Metadata = Metadata(team1: string, team2: string, map_: string, score: Score)

  datatype Link = Link(id: LinkId, game: Option<int>, players: seq<Player>, metadata: Option<Metadata>)

  datatype GameResult = GameResult(number: int, map_: string, score: Score, link: Option<LinkId>)

  datatype Claim = Claim(links: seq<LinkId>, results: seq<GameResult>, score: Score)

  datatype Kind =
    | NoAccount
    | SideUnassigned
    | NotAMinority(substitutes: nat, played: nat)
    | OverCap(restriction: string)
    | AgainstOwnTeam(account: AccountId)

  datatype Finding = Finding(kind: Kind, steam: string, name: string, side: Side)

  datatype Validation = Validation(
    valid: bool, scoreMismatch: bool, mapMismatch: bool, noMetadata: bool, mapMatch: bool,
    claimed: Score, extracted: Option<Score>)

  datatype Outcome = Outcome(link: LinkId, validation: Validation, findings: seq<Finding>)

  const BlankValidation := Validation(false, false, false, false, false, Score(0, 0), None)

  // ---------------------------------------------------------------- one demo

  /** The side a demo's own team names give a player; team one when they do not say. */
  function SideOf(p: Player, names: Option<Metadata>): Side {
    if names.Some? && p.team.Some? && names.value.team2 != "" && p.team.value == names.value.team2 then Two else One
  }

  predicate Accountless(p: Player) {
    p.account.None?
  }

  /** Resolved to an account, but in neither side's demo lineup; with no such lineup, nobody is. */
  predicate Sideless(p: Player, lineup: set<AccountId>) {
    lineup != {} && p.account.Some? && p.account.value !in lineup
  }

  function Ringers(players: seq<Player>, names: Option<Metadata>): seq<Finding> {
    if players == [] then []
    else
      var p := players[|players| - 1];
      Ringers(players[..|players| - 1], names) +
      (if Accountless(p) then [Finding(NoAccount, p.steam, p.name, SideOf(p, names))] else [])
  }

  function Unassigned(players: seq<Player>, lineup: set<AccountId>): seq<Finding> {
    if players == [] then []
    else
      var p := players[|players| - 1];
      Unassigned(players[..|players| - 1], lineup) +
      (if Sideless(p, lineup) then [Finding(SideUnassigned, p.steam, p.name, One)] else [])
  }

  function OfLink(link: Link, lineup: set<AccountId>): seq<Finding> {
    Ringers(link.players, link.metadata) + Unassigned(link.players, lineup)
  }

  /** The finding a player gives rise to, if any: never two. Without an account, one on the side
      whose name the demo gives the player, the first if it gives none of the second's; with an
      account in no lineup, one on the first side, unless there is no lineup at all. */
  function OfPlayer(p: Player, names: Option<Metadata>, lineup: set<AccountId>): multiset<Finding> {
    match p.account
    case None =>
      var second := names.Some? && p.team == Some(names.value.team2) && names.value.team2 != "";
      multiset{Finding(NoAccount, p.steam, p.name, if second then Two else One)}
    case Some(account) =>
      if |lineup| > 0 && account !in lineup then multiset{Finding(SideUnassigned, p.steam, p.name, One)}
      else multiset{}
  }

  function OfPlayers(players: seq<Player>, names: Option<Metadata>, lineup: set<AccountId>): multiset<Finding> {
    if players == [] then multiset{}
    else OfPlayers(players[..|players| - 1], names, lineup) + OfPlayer(players[|players| - 1], names, lineup)
  }

  /** The two lists of a link are its players' findings, player by player: nobody is in both. */
  lemma {:induction false} OnePerPlayer(players: seq<Player>, names: Option<Metadata>, lineup: set<AccountId>)
    ensures multiset(Ringers(players, names)) + multiset(Unassigned(players, lineup)) ==
              OfPlayers(players, names, lineup)
    ensures |OfPlayers(players, names, lineup)| <= |players|
  {
    if players != [] {
      OnePerPlayer(players[..|players| - 1], names, lineup);
      OnlyOne(players[|players| - 1], names, lineup);
      hide OfPlayer, SideOf, Accountless, Sideless;
    }
  }

  lemma OnlyOne(p: Player, names: Option<Metadata>, lineup: set<AccountId>)
    ensures multiset(if Accountless(p) then [Finding(NoAccount, p.steam, p.name, SideOf(p, names))] else []) +
            multiset(if Sideless(p, lineup) then [Finding(SideUnassigned, p.steam, p.name, One)] else []) ==
              OfPlayer(p, names, lineup)
    ensures |OfPlayer(p, names, lineup)| <= 1
  {
  }

  // ---------------------------------------------------------------- validation

  function FindNumber(results: seq<GameResult>, number: int): (r: Option<GameResult>)
    ensures r.Some? ==> exists i | 0 <= i < |results| ::
              results[i] == r.value && r.value.number == number && forall j | 0 <= j < i :: results[j].number != number
    ensures r.None? ==> forall g | g in results :: g.number != number
  {
    if results == [] then None
    else if results[0].number == number then Some(results[0])
    else FindNumber(results[1..], number)
  }

  function FindLink(results: seq<GameResult>, link: LinkId): (r: Option<GameResult>)
    ensures r.Some? ==> exists i | 0 <= i < |results| ::
              && results[i] == r.value && r.value.link == Some(link)
              && forall j | 0 <= j < i :: results[j].link != Some(link)
    ensures r.None? ==> forall g | g in results :: g.link != Some(link)
  {
    if results == [] then None
    else if results[0].link == Some(link) then Some(results[0])
    else FindLink(results[1..], link)
  }

  /** By the link's game number, else by the result that points at the link. */
  function ResultOf(claim: Claim, link: Link): Option<GameResult> {
    var numbered := if link.game.Some? then FindNumber(claim.results, link.game.value) else None;
    if numbered.Some? then numbered else FindLink(claim.results, link.id)
  }

  function Validated(claim: Claim, link: Link, lower: string -> string): Validation {
    match link.metadata
    case None => BlankValidation.(noMetadata := true, claimed := claim.score)
    case Some(metadata) =>
      var game := ResultOf(claim, link);
      var claimed := if game.Some? then game.value.score else claim.score;
      var same := game.Some? && lower(metadata.map_) == lower(game.value.map_);
      Validation(metadata.score == claimed, metadata.score != claimed, game.Some? && !same, false, same,
                 claimed, Some(metadata.score))
  }

  /** The game result a link is compared with: the first one with its game number or, when none
      has that number, the first one that points at the link. */
  lemma ResultOfExactly(claim: Claim, link: Link)
    ensures var r := ResultOf(claim, link);
            var numbered := exists g | g in claim.results :: link.game == Some(g.number);
            && (r.None? <==> !numbered && forall g | g in claim.results :: g.link != Some(link.id))
            && (r.Some? ==> r.value in claim.results &&
                            if numbered then link.game == Some(r.value.number) else r.value.link == Some(link.id))
  {
  }

  /** A demo is valid if and only if its score is the claimed one, that of its game result or,
      with no such result, that of the whole claim; its map is compared with its game result's
      only, whatever the case of the letters; and without metadata nothing is compared. */
  lemma ValidationTells(claim: Claim, link: Link, lower: string -> string)
    ensures var v, r := Validated(claim, link, lower), ResultOf(claim, link);
            && v.claimed == (if link.metadata.Some? && r.Some? then r.value.score else claim.score)
            && (v.noMetadata <==> link.metadata.None?)
            && (v.valid <==> link.metadata.Some? && link.metadata.value.score == v.claimed)
            && (v.scoreMismatch <==> link.metadata.Some? && link.metadata.value.score != v.claimed)
            && (v.mapMatch <==>
                  link.metadata.Some? && r.Some? && lower(link.metadata.value.map_) == lower(r.value.map_))
            && (v.mapMismatch <==>
                  link.metadata.Some? && r.Some? && lower(link.metadata.value.map_) != lower(r.value.map_))
            && (v.extracted == if link.metadata.Some? then Some(link.metadata.value.score) else None)
  {
  }

  predicate Issue(v: Validation) {
    v.scoreMismatch || v.mapMismatch || v.noMetadata
  }

  function Outcomes(claim: Claim, links: seq<Link>, lineup: set<AccountId>, lower: string -> string): seq<Outcome> {
    if links == [] then []
    else
      var before, link := Outcomes(claim, links[..|links| - 1], lineup, lower), links[|links| - 1];
      if link.id !in claim.links || (!Issue(Validated(claim, link, lower)) && OfLink(link, lineup) == []) then before
      else before + [Outcome(link.id, Validated(claim, link, lower), OfLink(link, lineup))]
  }

  /** There is an outcome for exactly the claimed links with a mismatch, without metadata, or with
      a player who gives rise to a finding. */
  lemma {:induction false} OutcomesExactly(claim: Claim, links: seq<Link>, lineup: set<AccountId>,
                                           lower: string -> string, o: Outcome)
    ensures o in Outcomes(claim, links, lineup, lower) <==>
              exists l | l in links ::
                && l.id in claim.links
                && o == Outcome(l.id, Validated(claim, l, lower), OfLink(l, lineup))
                && (o.validation.scoreMismatch || o.validation.mapMismatch || o.validation.noMetadata ||
                    o.findings != [])
  {
    if links != [] {
      var n := |links| - 1;
      OutcomesExactly(claim, links[..n], lineup, lower, o);
      assert links == links[..n] + [links[n]];
      assert forall l :: l in links <==> l in links[..n] || l == links[n];
    }
  }

  /** Lineup violations join the first outcome, or stand alone on the first link. */
  function Attached(outcomes: seq<Outcome>, links: seq<Link>, violations: seq<Finding>): seq<Outcome> {
    if violations == [] then outcomes
    else if outcomes != [] then [outcomes[0].(findings := outcomes[0].findings + violations)] + outcomes[1..]
    else if links != [] then [Outcome(links[0].id, BlankValidation, violations)]
    else []
  }

  method SidelessRegistered(players: seq<Player>, lineup: set<AccountId>) returns (findings: seq<Finding>)
    ensures findings == Unassigned(players, lineup)
  {
    findings := [];
    if lineup == {} {
      NobodyUnassigned(players);
      return;
    }
    for i := 0 to |players|
      invariant findings == Unassigned(players[..i], lineup)
    {
      assert players[..i + 1][..i] == players[..i];
      var p := players[i];
      if p.account.Some? && p.account.value !in lineup {
        findings := findings + [Finding(SideUnassigned, p.steam, p.name, One)];
      }
    }
    assert players[..|players|] == players;
  }

  lemma {:induction false} NobodyUnassigned(players: seq<Player>)
    ensures Unassigned(players, {}) == []
  {
    if players != [] {
      NobodyUnassigned(players[..|players| - 1]);
    }
  }

  method UnrecognizedFromPlayers(players: seq<Player>, names: Option<Metadata>) returns (findings: seq<Finding>)
    ensures findings == Ringers(players, names)
  {
    findings := [];
    for i := 0 to |players|
      invariant findings == Ringers(players[..i], names)
    {
      assert players[..i + 1][..i] == players[..i];
      var p := players[i];
      if p.account.None? {
        findings := findings + [Finding(NoAccount, p.steam, p.name, SideOf(p, names))];
      }
    }
    assert players[..|players|] == players;
  }

  /** The validator: nothing when the claim names no demo or the match has none. */
  method ValidateMatchDemos(claim: Claim, links: seq<Link>, lineup: set<AccountId>, violations: seq<Finding>,
                            lower: string -> string)
    returns (outcomes: seq<Outcome>)
    ensures outcomes == if claim.links == [] || links == [] then []
              else Attached(Outcomes(claim, links, lineup, lower), links, violations)
    ensures var bare := Outcomes(claim, links, lineup, lower);
            claim.links != [] && links != [] ==>
              if bare == [] then
                && |outcomes| == (if violations == [] then 0 else 1)
                && (violations != [] ==>
                      && outcomes[0].link == links[0].id && outcomes[0].findings == violations
                      && outcomes[0].validation == Validation(false, false, false, false, false, Score(0, 0), None))
              else
                && |outcomes| == |bare| && outcomes[1..] == bare[1..]
                && outcomes[0].link == bare[0].link && outcomes[0].validation == bare[0].validation
                && outcomes[0].findings == bare[0].findings + violations
  {
    outcomes := [];
    if claim.links == [] || links == [] {
      return;
    }
    for i := 0 to |links|
      invariant outcomes == Outcomes(claim, links[..i], lineup, lower)
    {
      assert links[..i + 1][..i] == links[..i];
      var link := links[i];
      if link.id !in claim.links {
        continue;
      }
      var unrecognized := UnrecognizedFromPlayers(link.players, link.metadata);
      var sideless := SidelessRegistered(link.players, lineup);
      unrecognized := unrecognized + sideless;
      var validation := BlankValidation;
      if link.metadata.Some? {
        var metadata := link.metadata.value;
        var game := ResultOf(claim, link);
        var claimed := if game.Some? then game.value.score else claim.score;
        validation := validation.(claimed := claimed, extracted := Some(metadata.score));
        if metadata.score == claimed {
          validation := validation.(valid := true);
        } else {
          validation := validation.(scoreMismatch := true, valid := false);
        }
        if game.Some? {
          if lower(metadata.map_) == lower(game.value.map_) {
            validation := validation.(mapMatch := true);
          } else {
            validation := validation.(mapMatch := false, mapMismatch := true);
          }
        }
      } else {
        validation := validation.(noMetadata := true, claimed := claim.score);
      }
      if validation.scoreMismatch || validation.mapMismatch || validation.noMetadata || unrecognized != [] {
        outcomes := outcomes + [Outcome(link.id, validation, unrecognized)];
      }
    }
    assert links[..|links|] == links;
    if violations != [] {
      if outcomes != [] {
        outcomes := [outcomes[0].(findings := outcomes[0].findings + violations)] + outcomes[1..];
      } else {
        outcomes := [Outcome(links[0].id, BlankValidation, violations)];
      }
    }
  }

  // ---------------------------------------------------------------- conservation

  function Handed(outcomes: seq<Outcome>): seq<Finding> {
    if outcomes == [] then [] else Handed(outcomes[..|outcomes| - 1]) + outcomes[|outcomes| - 1].findings
  }

  /** Handed on in the order of the outcomes. */
  lemma {:induction false} HandedInOrder(before: seq<Outcome>, o: Outcome, after: seq<Outcome>)
    ensures Handed(before + [o] + after) == Handed(before) + o.findings + Handed(after)
  {
    var all := before + [o] + after;
    if after == [] {
      assert all[..|all| - 1] == before;
    } else {
      var n := |after| - 1;
      assert all[..|all| - 1] == before + [o] + after[..n];
      HandedInOrder(before, o, after[..n]);
    }
  }

  /** What every claimed link's players give rise to. */
  function Detected(claim: Claim, links: seq<Link>, lineup: set<AccountId>): multiset<Finding> {
    if links == [] then multiset{}
    else
      var link := links[|links| - 1];
      Detected(claim, links[..|links| - 1], lineup) +
      (if link.id in claim.links then OfPlayers(link.players, link.metadata, lineup) else multiset{})
  }

  lemma {:induction false} OutcomesHand(claim: Claim, links: seq<Link>, lineup: set<AccountId>, lower: string -> string)
    ensures multiset(Handed(Outcomes(claim, links, lineup, lower))) == Detected(claim, links, lineup)
  {
    if links != [] {
      var link := links[|links| - 1];
      var before := Outcomes(claim, links[..|links| - 1], lineup, lower);
      OutcomesHand(claim, links[..|links| - 1], lineup, lower);
      OnePerPlayer(link.players, link.metadata, lineup);
      var one := Outcome(link.id, Validated(claim, link, lower), OfLink(link, lineup));
      assert (before + [one])[..|before|] == before;
    }
  }

  lemma {:induction false} HandedFirst(outcomes: seq<Outcome>, more: seq<Finding>)
    requires outcomes != []
    ensures multiset(Handed([outcomes[0].(findings := outcomes[0].findings + more)] + outcomes[1..])) ==
            multiset(Handed(outcomes)) + multiset(more)
  {
    var n := |outcomes| - 1;
    var changed := [outcomes[0].(findings := outcomes[0].findings + more)] + outcomes[1..];
    if n == 0 {
      assert Handed(changed[..0]) == [] && Handed(outcomes[..0]) == [];
    } else {
      HandedFirst(outcomes[..n], more);
      assert outcomes[..n][1..] == outcomes[1..][..n - 1];
      assert changed[..n] == [outcomes[0].(findings := outcomes[0].findings + more)] + outcomes[..n][1..];
    }
  }

  /** Conservation: with a demo claimed and one linked, the findings handed on are, as a
      multiset, those of the claimed links' players and all lineup violations. */
  lemma FindingsConserved(claim: Claim, links: seq<Link>, lineup: set<AccountId>, violations: seq<Finding>,
                          lower: string -> string)
    requires links != []
    ensures multiset(Handed(Attached(Outcomes(claim, links, lineup, lower), links, violations))) ==
            Detected(claim, links, lineup) + multiset(violations)
  {
    var outcomes := Outcomes(claim, links, lineup, lower);
    OutcomesHand(claim, links, lineup, lower);
    if violations != [] {
      if outcomes != [] {
        HandedFirst(outcomes, violations);
      } else {
        var alone := Outcome(links[0].id, BlankValidation, violations);
        assert [alone][..0] == [];
        assert Handed([alone]) == violations;
      }
    }
  }

  // ---------------------------------------------------------------- the review

  datatype Review = Review(link: LinkId, validation: Validation, scoreMismatch: bool, findings: seq<Finding>)

  predicate AnyScoreMismatch(outcomes: seq<Outcome>) {
    exists o | o in outcomes :: o.validation.scoreMismatch
  }

  /** One review for all outcomes, anchored to the first; none when there is nothing to review. */
  method CreateFromOutcomes(outcomes: seq<Outcome>) returns (review: Option<Review>)
    ensures review.Some? <==> Handed(outcomes) != [] || AnyScoreMismatch(outcomes)
    ensures review.Some? ==>
              && outcomes != []
              && review.value == Review(outcomes[0].link, outcomes[0].validation, AnyScoreMismatch(outcomes),
                                        Handed(outcomes))
  {
    if outcomes == [] {
      return None;
    }
    var scoreMismatch, findings := false, [];
    for i := 0 to |outcomes|
      invariant findings == Handed(outcomes[..i])
      invariant scoreMismatch == exists o | o in outcomes[..i] :: o.validation.scoreMismatch
    {
      assert outcomes[..i + 1] == outcomes[..i] + [outcomes[i]];
      assert outcomes[..i + 1][..i] == outcomes[..i];
      if outcomes[i].validation.scoreMismatch {
        scoreMismatch := true;
      }
      findings := findings + outcomes[i].findings;
    }
    assert outcomes[..|outcomes|] == outcomes;
    if findings == [] && !scoreMismatch {
      return None;
    }
    review := Some(Review(outcomes[0].link, outcomes[0].validation, scoreMismatch, findings));
  }

  /** A score mismatch on a claimed link. */
  predicate Disputed(claim: Claim, links: seq<Link>, lower: string -> string) {
    exists l | l in links :: l.id in claim.links && Validated(claim, l, lower).scoreMismatch
  }

  lemma {:induction false} MismatchesKept(claim: Claim, links: seq<Link>, lineup: set<AccountId>,
                                          lower: string -> string)
    ensures AnyScoreMismatch(Outcomes(claim, links, lineup, lower)) <==> Disputed(claim, links, lower)
  {
    if links != [] {
      var n := |links| - 1;
      MismatchesKept(claim, links[..n], lineup, lower);
      assert links == links[..n] + [links[n]];
      var before := Outcomes(claim, links[..n], lineup, lower);
      var one := Outcome(links[n].id, Validated(claim, links[n], lower), OfLink(links[n], lineup));
      assert forall o :: o in before + [one] <==> o in before || o == one;
    }
  }

  lemma AttachKeepsMismatches(outcomes: seq<Outcome>, links: seq<Link>, violations: seq<Finding>)
    ensures AnyScoreMismatch(Attached(outcomes, links, violations)) <==> AnyScoreMismatch(outcomes)
  {
    if violations != [] && outcomes != [] {
      var first := outcomes[0].(findings := outcomes[0].findings + violations);
      assert outcomes == [outcomes[0]] + outcomes[1..];
      assert first in Attached(outcomes, links, violations);
      assert forall o | o in outcomes[1..] :: o in Attached(outcomes, links, violations);
    }
  }

  /** From detection to review: a review is raised exactly when some claimed link's player or
      some lineup rule gave a finding, or a claimed link's score disagrees; it carries them all.
      A claim that names no demo raises nothing, whatever the lineups look like. */
  lemma ReviewRaisedExactly(claim: Claim, links: seq<Link>, lineup: set<AccountId>, violations: seq<Finding>,
                            lower: string -> string)
    requires claim.links != [] && links != []
    ensures var outcomes := Attached(Outcomes(claim, links, lineup, lower), links, violations);
            && (Handed(outcomes) != [] || AnyScoreMismatch(outcomes) <==>
                  Detected(claim, links, lineup) != multiset{} || violations != [] || Disputed(claim, links, lower))
            && multiset(Handed(outcomes)) == Detected(claim, links, lineup) + multiset(violations)
  {
    var outcomes := Attached(Outcomes(claim, links, lineup, lower), links, violations);
    FindingsConserved(claim, links, lineup, violations, lower);
    AttachKeepsMismatches(Outcomes(claim, links, lineup, lower), links, violations);
    MismatchesKept(claim, links, lineup, lower);
    assert |multiset(Handed(outcomes))| == |Handed(outcomes)|;
    assert |multiset(violations)| == |violations|;
    hide *;
    assert Handed(outcomes) == [] <==> multiset(Handed(outcomes)) == multiset{};
    assert violations == [] <==> multiset(violations) == multiset{};
  }
}
