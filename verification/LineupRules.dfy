/** The lineup rules on who actually played, per side of a match. */
module LineupRules {
  import opened Options
  import opened Findings

  /** A row of a lineup; a player has one for each map, from each source. */
  datatype Row = Row(player: AccountId, substitute: bool, fromDemo: bool)

  /** The players of the demo rows, each at its first row. */
  function Played(rows: seq<Row>): seq<AccountId> {
    if rows == [] then []
    else
      var before, row := Played(rows[..|rows| - 1]), rows[|rows| - 1];
      if row.fromDemo && row.player !in before then before + [row.player] else before
  }

  /** Those whose first demo row says substitute. */
  function Substitutes(rows: seq<Row>): seq<AccountId> {
    if rows == [] then []
    else
      var before, row := Substitutes(rows[..|rows| - 1]), rows[|rows| - 1];
      if row.fromDemo && row.player !in Played(rows[..|rows| - 1]) && row.substitute then before + [row.player]
          else before
  }

  predicate Minority(substitutes: nat, played: nat) {
    substitutes * 2 < played || played == 0
  }

  function Caps(restrictions: seq<string>, side: Side): (r: seq<Finding>)
    ensures |r| == |restrictions|
  {
    seq(|restrictions|, i requires 0 <= i < |restrictions| => Finding(OverCap(restrictions[i]), "", "", side))
  }

  function OnOwn(players: seq<AccountId>, roster: set<AccountId>, side: Side): seq<Finding> {
    if players == [] then []
    else
      var p := players[|players| - 1];
      OnOwn(players[..|players| - 1], roster, side) +
          (if p in roster then [Finding(AgainstOwnTeam(p), "", "", side)] else [])
  }

  /** Everything the rules say about one side; a side nobody of which was seen playing passes. */
  function Violations(rows: seq<Row>, side: Side, overCaps: seq<AccountId> -> seq<string>,
                      opposing: Option<set<AccountId>>): seq<Finding> {
    var played, subs := Played(rows), |Substitutes(rows)|;
    if played == [] then []
    else
      (if Minority(subs, |played|) then [] else [Finding(NotAMinority(subs, |played|), "", "", side)])
      + Caps(overCaps(played), side)
      + (if opposing.Some? then OnOwn(played, opposing.value, side) else [])
  }

  method DemoPlayers(rows: seq<Row>) returns (players: seq<AccountId>, subCount: nat)
    ensures players == Played(rows) && subCount == |Substitutes(rows)|
  {
    var seen: set<AccountId> := {};
    players, subCount := [], 0;
    for i := 0 to |rows|
      invariant players == Played(rows[..i]) && subCount == |Substitutes(rows[..i])|
      invariant forall p :: p in seen <==> p in players
    {
      assert rows[..i + 1][..i] == rows[..i];
      var row := rows[i];
      if row.fromDemo && row.player !in seen {
        seen := seen + {row.player};
        players := players + [row.player];
        if row.substitute {
          subCount := subCount + 1;
        }
      }
    }
    assert rows[..|rows|] == rows;
  }

  method RosteredAgainst(players: seq<AccountId>, roster: set<AccountId>, side: Side, before: seq<Finding>)
    returns (out: seq<Finding>)
    ensures out == before + OnOwn(players, roster, side)
  {
    out := before;
    for i := 0 to |players|
      invariant out == before + OnOwn(players[..i], roster, side)
    {
      assert players[..i + 1][..i] == players[..i];
      if players[i] in roster {
        out := out + [Finding(AgainstOwnTeam(players[i]), "", "", side)];
      }
    }
    assert players[..|players|] == players;
  }

  /** The same findings, one rule after the other. */
  lemma ViolationsInOrder(rows: seq<Row>, side: Side, overCaps: seq<AccountId> -> seq<string>,
                          opposing: Option<set<AccountId>>, before: seq<Finding>)
    ensures var played, subs := Played(rows), |Substitutes(rows)|;
            before + Violations(rows, side, overCaps, opposing) ==
            if played == [] then before
            else
              var first := if Minority(subs, |played|) then before
                  else before + [Finding(NotAMinority(subs, |played|), "", "", side)];
              var second := first + Caps(overCaps(played), side);
              if opposing.Some? then second + OnOwn(played, opposing.value, side) else second
  {
    hide Played, Substitutes, OnOwn, Caps;
  }

  method OverTheCaps(restrictions: seq<string>, side: Side, before: seq<Finding>) returns (out: seq<Finding>)
    ensures out == before + Caps(restrictions, side)
  {
    out := before;
    for i := 0 to |restrictions|
      invariant out == before + Caps(restrictions, side)[..i]
    {
      out := out + [Finding(OverCap(restrictions[i]), "", "", side)];
    }
    assert Caps(restrictions, side)[..|restrictions|] == Caps(restrictions, side);
  }

  /** The three rules, in order, onto what was found before. */
  method CheckRegistrationLineup(rows: seq<Row>, side: Side, overCaps: seq<AccountId> -> seq<string>,
                                 opposing: Option<set<AccountId>>, before: seq<Finding>) returns (out: seq<Finding>)
    ensures out == before + Violations(rows, side, overCaps, opposing)
  {
    hide Played, Substitutes, OnOwn, Caps;
    ViolationsInOrder(rows, side, overCaps, opposing, before);
    hide Violations;
    var players, subCount := DemoPlayers(rows);
    out := before;
    if players == [] {
      return;
    }
    if subCount * 2 >= |players| {
      out := out + [Finding(NotAMinority(subCount, |players|), "", "", side)];
    }
    out := OverTheCaps(overCaps(players), side, out);
    if opposing.Some? {
      out := RosteredAgainst(players, opposing.value, side, out);
    }
  }

  /** A registration in a slot: the lineup it has, if any, and its team's roster, if it is a team. */
  datatype Slot = Slot(rows: Option<seq<Row>>, roster: Option<set<AccountId>>)

  function OfSlot(slot: Option<Slot>, side: Side, opponent: Option<Slot>,
                  overCaps: seq<AccountId> -> seq<string>): seq<Finding> {
    if slot.None? || slot.value.rows.None? then []
    else Violations(slot.value.rows.value, side, overCaps, if opponent.Some? then opponent.value.roster else None)
  }

  /** Both sides, each faced with the other's roster. */
  method LineupViolations(first: Option<Slot>, second: Option<Slot>, overCaps: seq<AccountId> -> seq<string>)
    returns (out: seq<Finding>)
    ensures out == OfSlot(first, One, second, overCaps) + OfSlot(second, Two, first, overCaps)
  {
    hide Violations;
    out := [];
    if first.Some? && first.value.rows.Some? {
      var opposing := if second.Some? then second.value.roster else None;
      out := CheckRegistrationLineup(first.value.rows.value, One, overCaps, opposing, out);
    }
    if second.Some? && second.value.rows.Some? {
      var opposing := if first.Some? then first.value.roster else None;
      out := CheckRegistrationLineup(second.value.rows.value, Two, overCaps, opposing, out);
    }
  }

  // ---------------------------------------------------------------- what the rules find

  predicate Seen(rows: seq<Row>, p: AccountId) {
    exists r | r in rows :: r.fromDemo && r.player == p
  }

  /** The players counted are exactly those with a demo row, each once, and the substitutes are
      some of them, so the counts of the majority rule count people. */
  lemma {:induction false} PlayedAreTheDemoPlayers(rows: seq<Row>)
    ensures forall p :: p in Played(rows) <==> Seen(rows, p)
    ensures forall i, j | 0 <= i < j < |Played(rows)| :: Played(rows)[i] != Played(rows)[j]
    ensures forall p | p in Substitutes(rows) :: p in Played(rows)
    ensures forall i, j | 0 <= i < j < |Substitutes(rows)| :: Substitutes(rows)[i] != Substitutes(rows)[j]
    ensures |Substitutes(rows)| <= |Played(rows)|
  {
    if rows != [] {
      var n := |rows| - 1;
      PlayedAreTheDemoPlayers(rows[..n]);
      assert rows == rows[..n] + [rows[n]];
      assert forall r :: r in rows <==> r in rows[..n] || r == rows[n];
      assert forall p :: Seen(rows, p) <==> Seen(rows[..n], p) || (rows[n].fromDemo && rows[n].player == p);
    }
  }

  predicate FirstRow(rows: seq<Row>, i: nat)
    requires i < |rows|
  {
    rows[i].fromDemo && forall j | 0 <= j < i && rows[j].fromDemo :: rows[j].player != rows[i].player
  }

  /** A player is a substitute for the rule exactly when its first demo row says so, whatever
      the later rows say. */
  lemma {:induction false} SubstituteByFirstRow(rows: seq<Row>, p: AccountId)
    ensures p in Substitutes(rows) <==> exists i: nat ::
              i < |rows| && FirstRow(rows, i) && rows[i].player == p && rows[i].substitute
  {
    if rows != [] {
      var n := |rows| - 1;
      SubstituteByFirstRow(rows[..n], p);
      PlayedAreTheDemoPlayers(rows[..n]);
      assert forall i: nat | i < n :: FirstRow(rows, i) == FirstRow(rows[..n], i);
      assert Seen(rows[..n], rows[n].player) <==> exists j | 0 <= j < n ::
               rows[j].fromDemo && rows[j].player == rows[n].player by {
        assert forall j | 0 <= j < n :: rows[..n][j] == rows[j];
      }
      assert rows[n].fromDemo ==> (FirstRow(rows, n) <==> rows[n].player !in Played(rows[..n]));
    }
  }

  lemma {:induction false} OnOwnExactly(players: seq<AccountId>, roster: set<AccountId>, side: Side, p: AccountId)
    ensures Finding(AgainstOwnTeam(p), "", "", side) in OnOwn(players, roster, side) <==> p in players && p in roster
    ensures forall f | f in OnOwn(players, roster, side) :: f.kind.AgainstOwnTeam? && f.side == side
  {
    if players != [] {
      var n := |players| - 1;
      OnOwnExactly(players[..n], roster, side, p);
      assert players == players[..n] + [players[n]];
    }
  }

  /** Each rule fires exactly when it is broken; the majority rule says by how many of how many, a
      cap for every restriction that is over it, and nothing else is found. */
  lemma RulesFireExactly(rows: seq<Row>, side: Side, overCaps: seq<AccountId> -> seq<string>,
                         opposing: Option<set<AccountId>>, p: AccountId)
    ensures var v := Violations(rows, side, overCaps, opposing);
            && ((exists f | f in v :: f.kind.NotAMinority?) <==>
                  Played(rows) != [] && 2 * |Substitutes(rows)| >= |Played(rows)|)
            && (forall f | f in v && f.kind.NotAMinority? ::
                  f.kind == NotAMinority(|Substitutes(rows)|, |Played(rows)|))
            && (forall x :: Finding(OverCap(x), "", "", side) in v <==>
                              Played(rows) != [] && x in overCaps(Played(rows)))
            && (forall f | f in v :: f.kind.NotAMinority? || f.kind.OverCap? || f.kind.AgainstOwnTeam?)
            && (Finding(AgainstOwnTeam(p), "", "", side) in v <==>
                  opposing.Some? && Seen(rows, p) && p in opposing.value)
            && (forall f | f in v :: f.side == side)
  {
    PlayedAreTheDemoPlayers(rows);
    hide Played, Substitutes, OnOwn, Seen;
    if opposing.Some? {
      OnOwnExactly(Played(rows), opposing.value, side, p);
    }
    CapsExactly(overCaps(Played(rows)), side);
    var v := Violations(rows, side, overCaps, opposing);
    if Played(rows) != [] && !Minority(|Substitutes(rows)|, |Played(rows)|) {
      assert v[0].kind.NotAMinority?;
    }
  }

  lemma CapsExactly(restrictions: seq<string>, side: Side)
    ensures forall x :: Finding(OverCap(x), "", "", side) in Caps(restrictions, side) <==> x in restrictions
    ensures forall f | f in Caps(restrictions, side) :: f.kind.OverCap? && f.side == side
  {
    forall x ensures Finding(OverCap(x), "", "", side) in Caps(restrictions, side) <==> x in restrictions {
      if x in restrictions {
        var i :| 0 <= i < |restrictions| && restrictions[i] == x;
        assert Caps(restrictions, side)[i] == Finding(OverCap(x), "", "", side);
      }
    }
  }

  predicate PlaysFor(slot: Option<Slot>, p: AccountId) {
    slot.Some? && slot.value.rows.Some? && Seen(slot.value.rows.value, p)
  }

  predicate RosteredFor(slot: Option<Slot>, p: AccountId) {
    slot.Some? && slot.value.roster.Some? && p in slot.value.roster.value
  }

  /** Whoever plays against a team and is on its roster is reported, on the side they play for,
      and nobody else is. */
  lemma FacedWithTheOther(first: Option<Slot>, second: Option<Slot>, overCaps: seq<AccountId> -> seq<string>,
                          p: AccountId)
    ensures var v := OfSlot(first, One, second, overCaps) + OfSlot(second, Two, first, overCaps);
            && (Finding(AgainstOwnTeam(p), "", "", One) in v <==> PlaysFor(first, p) && RosteredFor(second, p))
            && (Finding(AgainstOwnTeam(p), "", "", Two) in v <==> PlaysFor(second, p) && RosteredFor(first, p))
  {
    hide Violations, Seen;
    SlotFaced(first, One, second, overCaps, p);
    SlotFaced(second, Two, first, overCaps, p);
  }

  lemma SlotFaced(slot: Option<Slot>, side: Side, opponent: Option<Slot>, overCaps: seq<AccountId> -> seq<string>,
                  p: AccountId)
    ensures Finding(AgainstOwnTeam(p), "", "", side) in OfSlot(slot, side, opponent, overCaps) <==>
              PlaysFor(slot, p) && RosteredFor(opponent, p)
    ensures forall f | f in OfSlot(slot, side, opponent, overCaps) :: f.side == side
  {
    hide Violations, Seen;
    if slot.Some? && slot.value.rows.Some? {
      var opposing := if opponent.Some? then opponent.value.roster else None;
      RulesFireExactly(slot.value.rows.value, side, overCaps, opposing, p);
    }
  }
}
