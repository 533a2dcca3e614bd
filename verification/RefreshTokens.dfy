/**
 Refresh-token rotation.

 Every handler is cut at its repository calls: each call is one atomic action on
 the token table, and the local code between two calls travels with the earlier one.
 `Do` is the meaning of one action, `Run` of a schedule of actions, so a theorem about
 `Run` on every sequence of actions is a theorem about every interleaving and every
 crash point. `TokenService` holds the handlers in their own order of statements and
 shows that each of them only ever takes these actions.
*/
module RefreshTokens {
  import opened Options
  import Schedules

  type TokenId = nat
  type CallId = nat
  type UserId = nat

  /** A row of `refresh_tokens`. The last three fields are lineage, which the table does
      not store: the sign-in the row descends from, the row it replaced, the minting call. */
  datatype Row = Row(user: UserId, expiresAt: int, revoked: bool,
                     family: TokenId, parent: Option<TokenId>, mintedBy: CallId)

  datatype Stage = NeedUser | NeedPlayer | NeedMint

  /** Where a handler stands between two repository calls. */
  datatype Call =
    | Replaying(user: UserId)                        // read a revoked row
    | Expiring(token: TokenId)                       // read an expired row
    | Rotating(token: TokenId, row: Row)             // read a usable row
    | Won(token: TokenId, row: Row, stage: Stage)    // its try_revoke returned true
    | Banning(user: UserId)                          // won, but the account is not active
    | LoggingOut(token: TokenId)
    | Finished

  datatype Account = Missing | Inactive | Active

  datatype Action =
    | SignIn(c: CallId, user: UserId, expiresAt: int)
    | PresentRefresh(c: CallId, token: TokenId)
    | RevokeAllWrite(c: CallId, landed: bool)
    | ExpireWrite(c: CallId, landed: bool)
    | TryRevoke(c: CallId)
    | LookupUser(c: CallId, account: Account)
    | LookupPlayer(c: CallId, found: bool)
    | Mint(c: CallId, expiresAt: int)
    | PresentLogout(c: CallId, token: TokenId)
    | LogoutWrite(c: CallId)
    | LogoutAll(c: CallId, user: UserId)
    | Crash(c: CallId)
    | Tick(c: CallId, elapsed: nat)

  /** The table, the calls in flight, the next unused token id and the clock. */
  datatype State = State(rows: map<TokenId, Row>, calls: map<CallId, Call>, next: TokenId, now: int)

  const Init := State(map[], map[], 0, 0)

  // ---------------------------------------------------------------- repository calls

  function RevokeRow(rows: map<TokenId, Row>, token: TokenId): map<TokenId, Row> {
    map t | t in rows :: if t == token then rows[t].(revoked := true) else rows[t]
  }

  function RevokeUser(rows: map<TokenId, Row>, user: UserId): map<TokenId, Row> {
    map t | t in rows :: if rows[t].user == user then rows[t].(revoked := true) else rows[t]
  }

  // ---------------------------------------------------------------- the protocol

  predicate InFlight(s: State, c: CallId) {
    c in s.calls
  }

  function At(s: State, c: CallId, call: Call): State {
    s.(calls := s.calls[c := call])
  }

  predicate Live(s: State, t: TokenId) {
    t in s.rows && !s.rows[t].revoked
  }

  /** The call won a token and has not minted its successor yet. */
  predicate Holds(s: State, c: CallId) {
    c in s.calls && s.calls[c].Won?
  }

  /** What a refresh handler does with the row it has just read. */
  function Classify(row: Row, token: TokenId, now: int): Call {
    if row.revoked then Replaying(row.user)
    else if row.expiresAt <= now then Expiring(token)
    else Rotating(token, row)
  }

  function DoSignIn(s: State, c: CallId, user: UserId, expiresAt: int): State {
    if InFlight(s, c) then s
    else At(s, c, Finished).(rows := s.rows[s.next := Row(user, expiresAt, false, s.next, None, c)], next := s.next + 1)
  }

  function DoPresent(s: State, c: CallId, token: TokenId): State {
    if InFlight(s, c) then s
    else At(s, c, if token in s.rows then Classify(s.rows[token], token, s.now) else Finished)
  }

  function DoTryRevoke(s: State, c: CallId): State {
    if InFlight(s, c) && s.calls[c].Rotating? then
      var token := s.calls[c].token;
      if Live(s, token)
      then At(s, c, Won(token, s.calls[c].row, NeedUser)).(rows := RevokeRow(s.rows, token))
      else At(s, c, Finished)
    else s
  }

  function DoLookupUser(s: State, c: CallId, account: Account): State {
    if Holds(s, c) && s.calls[c].stage == NeedUser then
      At(s, c, match account
               case Missing => Finished
               case Inactive => Banning(s.calls[c].row.user)
               case Active => s.calls[c].(stage := NeedPlayer))
    else s
  }

  function DoLookupPlayer(s: State, c: CallId, found: bool): State {
    if Holds(s, c) && s.calls[c].stage == NeedPlayer
    then At(s, c, if found then s.calls[c].(stage := NeedMint) else Finished)
    else s
  }

  function DoMint(s: State, c: CallId, expiresAt: int): State {
    if Holds(s, c) && s.calls[c].stage == NeedMint then
      var won := s.calls[c];
      At(s, c, Finished).(rows := s.rows[s.next := Row(won.row.user, expiresAt, false, won.row.family,
                                                       Some(won.token), c)],
                          next := s.next + 1)
    else s
  }

  /** The revocations: by a call at the matching point, or by `logout_all` on arrival. */
  function DoRevoke(s: State, a: Action): State
    requires a.RevokeAllWrite? || a.ExpireWrite? || a.LogoutWrite? || a.LogoutAll?
  {
    match a
    case RevokeAllWrite(c, landed) =>
      if InFlight(s, c) && (s.calls[c].Replaying? || s.calls[c].Banning?)
      then At(s, c, Finished).(rows := if landed then RevokeUser(s.rows, s.calls[c].user) else s.rows)
      else s
    case ExpireWrite(c, landed) =>
      if InFlight(s, c) && s.calls[c].Expiring?
      then At(s, c, Finished).(rows := if landed then RevokeRow(s.rows, s.calls[c].token) else s.rows)
      else s
    case LogoutWrite(c) =>
      if InFlight(s, c) && s.calls[c].LoggingOut?
      then At(s, c, Finished).(rows := RevokeRow(s.rows, s.calls[c].token))
      else s
    case LogoutAll(c, user) =>
      if InFlight(s, c) then s
      else At(s, c, Finished).(rows := RevokeUser(s.rows, user))
  }

  function DoPresentLogout(s: State, c: CallId, token: TokenId): State {
    if InFlight(s, c) then s
    else At(s, c, if Live(s, token) then LoggingOut(token) else Finished)
  }

  /** One atomic action. An action whose handler is not at the matching point does nothing. */
  function Do(s: State, a: Action): State {
    match a
    case SignIn(c, user, expiresAt) => DoSignIn(s, c, user, expiresAt)
    case PresentRefresh(c, token) => DoPresent(s, c, token)
    case TryRevoke(c) => DoTryRevoke(s, c)
    case LookupUser(c, account) => DoLookupUser(s, c, account)
    case LookupPlayer(c, found) => DoLookupPlayer(s, c, found)
    case Mint(c, expiresAt) => DoMint(s, c, expiresAt)
    case PresentLogout(c, token) => DoPresentLogout(s, c, token)
    case Crash(c) => if InFlight(s, c) then At(s, c, Finished) else s
    case Tick(_, elapsed) => s.(now := s.now + elapsed)
    case _ => DoRevoke(s, a)
  }

  /** A schedule of actions, the last one taken last. */
  function Run(s: State, actions: seq<Action>): State {
    Schedules.Fold(Do, s, actions)
  }

  // ---------------------------------------------------------------- the invariant

  /** Row `t` was minted in exchange for token `p`. */
  predicate Succeeds(s: State, t: TokenId, p: TokenId) {
    t in s.rows && s.rows[t].parent == Some(p)
  }

  ghost predicate OneClaimPerFamily(s: State) {
    && (forall t, u | Live(s, t) && Live(s, u) && s.rows[t].family == s.rows[u].family :: t == u)
    && (forall c, d | Holds(s, c) && Holds(s, d) && s.calls[c].row.family == s.calls[d].row.family :: c == d)
    && (forall c, t | Holds(s, c) && Live(s, t) :: s.calls[c].row.family != s.rows[t].family)
  }

  ghost predicate OneSuccessorPerToken(s: State) {
    && (forall t, p | Succeeds(s, t, p) :: p in s.rows && s.rows[p].revoked)
    && (forall t, u, p | Succeeds(s, t, p) && Succeeds(s, u, p) :: t == u)
    && (forall c, t | Holds(s, c) :: !Succeeds(s, t, s.calls[c].token))
  }

  /** A row differs from a snapshot of it in `revoked` at most. */
  predicate SameToken(row: Row, snapshot: Row) {
    row == snapshot.(revoked := row.revoked)
  }

  ghost predicate SnapshotsTrue(s: State) {
    && (forall t | t in s.rows :: t < s.next && s.rows[t].family < s.next)
    && (forall c | c in s.calls && (s.calls[c].Won? || s.calls[c].Rotating?) ::
          s.calls[c].token in s.rows && SameToken(s.rows[s.calls[c].token], s.calls[c].row))
    && (forall c | Holds(s, c) :: s.rows[s.calls[c].token].revoked)
  }

  ghost predicate Inv(s: State) {
    SnapshotsTrue(s) && OneClaimPerFamily(s) && OneSuccessorPerToken(s)
  }

  /** `r` is `s` with some rows revoked and some calls moved on, and nothing gained. */
  ghost predicate OnlyLoses(s: State, r: State) {
    && r.next == s.next
    && r.rows.Keys == s.rows.Keys
    && (forall t | t in s.rows :: SameToken(r.rows[t], s.rows[t]) && (s.rows[t].revoked ==> r.rows[t].revoked))
    && (forall c | Holds(r, c) ::
          Holds(s, c) && r.calls[c].token == s.calls[c].token && r.calls[c].row == s.calls[c].row)
    && (forall c | c in r.calls && r.calls[c].Rotating? :: c in s.calls && r.calls[c] == s.calls[c])
  }

  lemma OnlyLosesKeepsInv(s: State, r: State)
    requires Inv(s) && OnlyLoses(s, r)
    ensures Inv(r)
  {
    assert forall t | Live(r, t) :: Live(s, t);
    assert forall t, p | Succeeds(r, t, p) :: Succeeds(s, t, p);
    assert SnapshotsTrue(r);
  }

  predicate Gains(a: Action) {
    a.SignIn? || a.PresentRefresh? || a.TryRevoke? || a.Mint?
  }

  lemma DoOnlyLoses(s: State, a: Action)
    requires !Gains(a)
    ensures OnlyLoses(s, Do(s, a))
  {
  }

  /** `r` is `s` with one more row, numbered `s.next`. */
  ghost predicate OnlyAdds(s: State, r: State, row: Row) {
    && r.next == s.next + 1
    && s.next !in s.rows
    && r.rows == s.rows[s.next := row]
    && !row.revoked
  }

  /** Adding a live row keeps the invariant when no other claim on its family is left
      and its parent, if any, is revoked and had no successor. */
  lemma AddKeepsInv(s: State, r: State, row: Row)
    requires Inv(s) && OnlyAdds(s, r, row) && row.family <= s.next
    requires forall t | Live(s, t) :: s.rows[t].family != row.family
    requires forall c | Holds(r, c) :: Holds(s, c) && r.calls[c] == s.calls[c] && s.calls[c].row.family != row.family
    requires forall c | c in r.calls && r.calls[c].Rotating? :: c in s.calls && r.calls[c] == s.calls[c]
    requires row.parent.Some? ==>
               && row.parent.value in s.rows && s.rows[row.parent.value].revoked
               && (forall t :: !Succeeds(s, t, row.parent.value))
               && (forall c | Holds(r, c) :: r.calls[c].token != row.parent.value)
    ensures Inv(r)
  {
    assert forall t | t in s.rows :: t != s.next && r.rows[t] == s.rows[t];
    assert SnapshotsTrue(r);
    AddKeepsClaims(s, r, row);
    AddKeepsSuccessors(s, r, row);
  }

  lemma AddKeepsClaims(s: State, r: State, row: Row)
    requires OneClaimPerFamily(s) && OnlyAdds(s, r, row)
    requires forall t | Live(s, t) :: s.rows[t].family != row.family
    requires forall c | Holds(r, c) :: Holds(s, c) && r.calls[c] == s.calls[c] && s.calls[c].row.family != row.family
    ensures OneClaimPerFamily(r)
  {
    assert forall t | Live(r, t) :: t == s.next || (Live(s, t) && r.rows[t] == s.rows[t]);
  }

  lemma AddKeepsSuccessors(s: State, r: State, row: Row)
    requires OneSuccessorPerToken(s) && OnlyAdds(s, r, row)
    requires forall c | Holds(r, c) :: Holds(s, c) && r.calls[c] == s.calls[c]
    requires row.parent.Some? ==>
               && row.parent.value in s.rows && s.rows[row.parent.value].revoked
               && (forall t :: !Succeeds(s, t, row.parent.value))
               && (forall c | Holds(r, c) :: r.calls[c].token != row.parent.value)
    ensures OneSuccessorPerToken(r)
  {
    forall t: TokenId, p: TokenId | Succeeds(r, t, p)
      ensures Succeeds(s, t, p) || (t == s.next && row.parent == Some(p))
    {
    }
  }

  lemma SignInKeepsInv(s: State, c: CallId, user: UserId, expiresAt: int)
    requires Inv(s)
    ensures Inv(DoSignIn(s, c, user, expiresAt))
  {
    if !InFlight(s, c) {
      assert forall d | Holds(s, d) :: s.calls[d].token in s.rows;
      AddKeepsInv(s, DoSignIn(s, c, user, expiresAt), Row(user, expiresAt, false, s.next, None, c));
    }
  }

  lemma PresentKeepsInv(s: State, c: CallId, token: TokenId)
    requires Inv(s)
    ensures Inv(DoPresent(s, c, token))
  {
    var r := DoPresent(s, c, token);
    assert forall t :: Live(r, t) <==> Live(s, t);
    assert forall t, p :: Succeeds(r, t, p) <==> Succeeds(s, t, p);
    assert forall d | Holds(r, d) :: Holds(s, d) && r.calls[d] == s.calls[d];
  }

  lemma TryRevokeKeepsInv(s: State, c: CallId)
    requires Inv(s)
    ensures Inv(DoTryRevoke(s, c))
  {
    var r := DoTryRevoke(s, c);
    if Holds(r, c) && !Holds(s, c) {
      var token := s.calls[c].token;
      assert forall d | Holds(r, d) && d != c :: Holds(s, d) && r.calls[d] == s.calls[d];
      assert forall t | t in s.rows :: r.rows[t] == if t == token then s.rows[t].(revoked := true) else s.rows[t];
      assert SnapshotsTrue(r);
      WinKeepsClaims(s, r, c, token);
      WinKeepsSuccessors(s, r, c, token);
    } else {
      OnlyLosesKeepsInv(s, r);
    }
  }

  /** Winning a token trades the family's live row for the winner's claim. */
  lemma WinKeepsClaims(s: State, r: State, c: CallId, token: TokenId)
    requires OneClaimPerFamily(s) && Live(s, token) && Holds(r, c)
    requires r.rows == RevokeRow(s.rows, token) && r.calls[c].row.family == s.rows[token].family
    requires forall d | Holds(r, d) && d != c :: Holds(s, d) && r.calls[d] == s.calls[d]
    ensures OneClaimPerFamily(r)
  {
    assert forall t | Live(r, t) :: Live(s, t) && t != token && r.rows[t] == s.rows[t];
  }

  lemma WinKeepsSuccessors(s: State, r: State, c: CallId, token: TokenId)
    requires OneSuccessorPerToken(s) && Live(s, token) && Holds(r, c)
    requires r.rows == RevokeRow(s.rows, token) && r.calls[c].token == token
    requires forall d | Holds(r, d) && d != c :: Holds(s, d) && r.calls[d] == s.calls[d]
    ensures OneSuccessorPerToken(r)
  {
    assert forall t, p | Succeeds(r, t, p) :: Succeeds(s, t, p);
    assert forall t :: !Succeeds(s, t, token);
  }

  lemma MintKeepsInv(s: State, c: CallId, expiresAt: int)
    requires Inv(s)
    ensures Inv(DoMint(s, c, expiresAt))
  {
    var r := DoMint(s, c, expiresAt);
    if r != s {
      var won := s.calls[c];
      assert Holds(s, c) && won.token in s.rows;
      assert forall d | Holds(r, d) :: d != c && Holds(s, d) && r.calls[d] == s.calls[d];
      AddKeepsInv(s, r, Row(won.row.user, expiresAt, false, won.row.family, Some(won.token), c));
    }
  }

  lemma DoKeepsInv(s: State, a: Action)
    requires Inv(s)
    ensures Inv(Do(s, a))
  {
    match a
    case SignIn(c, user, expiresAt) => SignInKeepsInv(s, c, user, expiresAt);
    case PresentRefresh(c, token) => PresentKeepsInv(s, c, token);
    case TryRevoke(c) => TryRevokeKeepsInv(s, c);
    case Mint(c, expiresAt) => MintKeepsInv(s, c, expiresAt);
    case _ =>
      DoOnlyLoses(s, a);
      OnlyLosesKeepsInv(s, Do(s, a));
  }

  /** Under every interleaving of sign-ins, refreshes, logouts, logout-alls and crashes. */
  lemma {:induction false} RunKeepsInv(s: State, actions: seq<Action>)
    requires Inv(s)
    ensures Inv(Run(s, actions))
    decreases |actions|
  {
    if actions != [] {
      RunKeepsInv(s, actions[..|actions| - 1]);
      DoKeepsInv(Run(s, actions[..|actions| - 1]), actions[|actions| - 1]);
    }
  }

  // ---------------------------------------------------------------- one use per token

  ghost function LiveRows(s: State, family: TokenId): set<TokenId> {
    set t | t in s.rows && Live(s, t) && s.rows[t].family == family
  }

  ghost function Holders(s: State, family: TokenId): set<CallId> {
    set c | c in s.calls && Holds(s, c) && s.calls[c].row.family == family
  }

  lemma AtMostOneElement(xs: set<nat>)
    requires forall x, y | x in xs && y in xs :: x == y
    ensures |xs| <= 1
  {
    if xs != {} {
      var x :| x in xs;
      assert xs == {x};
    }
  }

  /** For every run and every sign-in: unrevoked tokens of its family, plus handlers that
      consumed one and have not yet minted its successor, never number more than one. */
  lemma OneUseGuarantee(actions: seq<Action>, family: TokenId)
    ensures |LiveRows(Run(Init, actions), family)| + |Holders(Run(Init, actions), family)| <= 1
  {
    var s := Run(Init, actions);
    RunKeepsInv(Init, actions);
    AtMostOneElement(LiveRows(s, family));
    AtMostOneElement(Holders(s, family));
    assert forall t, c | t in LiveRows(s, family) && c in Holders(s, family) :: !(Holds(s, c) && Live(s, t));
    assert LiveRows(s, family) == {} || Holders(s, family) == {};
  }

  lemma AtMostOneSuccessor(actions: seq<Action>, p: TokenId, t: TokenId, u: TokenId)
    requires Succeeds(Run(Init, actions), t, p) && Succeeds(Run(Init, actions), u, p)
    ensures t == u && p in Run(Init, actions).rows && Run(Init, actions).rows[p].revoked
  {
    RunKeepsInv(Init, actions);
  }

  predicate CannotMint(s: State, c: CallId) {
    c in s.calls && !s.calls[c].Rotating? && !s.calls[c].Won?
  }

  lemma {:induction false} CannotMintForever(s: State, c: CallId, actions: seq<Action>)
    requires CannotMint(s, c)
    requires forall t | t in s.rows :: t < s.next
    ensures CannotMint(Run(s, actions), c)
    ensures var r := Run(s, actions);
            forall t | t in r.rows :: t < r.next && (r.rows[t].mintedBy == c ==> t in s.rows)
    decreases |actions|
  {
    if actions != [] {
      CannotMintForever(s, c, actions[..|actions| - 1]);
      CannotMintStep(Run(s, actions[..|actions| - 1]), c, actions[|actions| - 1]);
      hide Do;
    }
  }

  lemma CannotMintStep(s: State, c: CallId, a: Action)
    requires CannotMint(s, c) && forall t | t in s.rows :: t < s.next
    ensures CannotMint(Do(s, a), c)
    ensures var r := Do(s, a);
            forall t | t in r.rows :: t < r.next && (r.rows[t].mintedBy == c ==> t in s.rows && s.rows[t].mintedBy == c)
  {
  }

  /** A refresh that reads a revoked or expired row never mints a token, whatever follows. */
  lemma DeadTokenNeverMints(s: State, c: CallId, token: TokenId, actions: seq<Action>)
    requires Inv(s) && c !in s.calls && token in s.rows
    requires s.rows[token].revoked || s.rows[token].expiresAt <= s.now
    ensures var r := Run(Do(s, PresentRefresh(c, token)), actions);
            forall t | t in r.rows && r.rows[t].mintedBy == c :: t in s.rows
  {
    CannotMintForever(Do(s, PresentRefresh(c, token)), c, actions);
  }

  // ---------------------------------------------------------------- what becomes of a row

  /** None of these actions belongs to call `c`. */
  predicate Foreign(actions: seq<Action>, c: CallId) {
    forall i | 0 <= i < |actions| :: actions[i].c != c
  }

  lemma {:induction false} ForeignKeepsCall(s: State, actions: seq<Action>, c: CallId)
    requires Foreign(actions, c)
    ensures var r := Run(s, actions);
            && (c in r.calls <==> c in s.calls)
            && (c in s.calls ==> r.calls[c] == s.calls[c])
    decreases |actions|
  {
    if actions != [] {
      ForeignKeepsCall(s, actions[..|actions| - 1], c);
    }
  }

  /** Rows never disappear and never become usable again. */
  ghost predicate RowsPersist(s: State, r: State) {
    forall t | t in s.rows ::
        t in r.rows && SameToken(r.rows[t], s.rows[t]) && (s.rows[t].revoked ==> r.rows[t].revoked)
  }

  lemma DoPersists(s: State, a: Action)
    requires Inv(s)
    ensures RowsPersist(s, Do(s, a))
  {
    if !Gains(a) {
      DoOnlyLoses(s, a);
    }
  }

  lemma {:induction false} RunPersists(s: State, actions: seq<Action>)
    requires Inv(s)
    ensures RowsPersist(s, Run(s, actions))
    decreases |actions|
  {
    if actions != [] {
      var n := |actions| - 1;
      RunPersists(s, actions[..n]);
      RunKeepsInv(s, actions[..n]);
      DoPersists(Run(s, actions[..n]), actions[n]);
    }
  }

  /** The actions that revoke a live row: winning it, the expiry and logout writes on it,
      and the sweeps over its user. */
  predicate Revokes(s: State, a: Action, t: TokenId)
    requires t in s.rows
  {
    match a
    case TryRevoke(c) => InFlight(s, c) && s.calls[c].Rotating? && s.calls[c].token == t
    case ExpireWrite(c, landed) => landed && InFlight(s, c) && s.calls[c] == Expiring(t)
    case LogoutWrite(c) => InFlight(s, c) && s.calls[c] == LoggingOut(t)
    case RevokeAllWrite(c, landed) =>
      && landed && InFlight(s, c)
      && (s.calls[c] == Replaying(s.rows[t].user) || s.calls[c] == Banning(s.rows[t].user))
    case LogoutAll(c, user) => !InFlight(s, c) && user == s.rows[t].user
    case _ => false
  }

  lemma RevokedExactly(s: State, a: Action, t: TokenId)
    requires Inv(s) && Live(s, t)
    ensures t in Do(s, a).rows && SameToken(Do(s, a).rows[t], s.rows[t])
    ensures Do(s, a).rows[t].revoked <==> Revokes(s, a, t)
  {
    DoPersists(s, a);
  }

  /** No action of the schedule revokes row `t`. */
  ghost predicate Spared(s: State, actions: seq<Action>, t: TokenId) {
    forall i | 0 <= i < |actions| ::
      t in Run(s, actions[..i]).rows && !Revokes(Run(s, actions[..i]), actions[i], t)
  }

  /** A live row stays live over exactly the schedules without one of those actions. */
  lemma {:induction false} StaysLiveExactly(s: State, t: TokenId, actions: seq<Action>)
    requires Inv(s) && Live(s, t)
    ensures Live(Run(s, actions), t) <==> Spared(s, actions, t)
    decreases |actions|
  {
    if actions != [] {
      var n := |actions| - 1;
      StaysLiveExactly(s, t, actions[..n]);
      RunKeepsInv(s, actions[..n]);
      RunPersists(s, actions[..n]);
      LiveOneMore(Run(s, actions[..n]), actions[n], t);
      SparedSplit(s, actions, t);
      hide Spared, Do, Inv, Revokes;
    }
  }

  lemma SparedSplit(s: State, actions: seq<Action>, t: TokenId)
    requires actions != []
    ensures var n := |actions| - 1;
            var before := Run(s, actions[..n]);
            Spared(s, actions, t) <==>
            Spared(s, actions[..n], t) && t in before.rows && !Revokes(before, actions[n], t)
  {
    hide Do, Revokes, Run;
    var n := |actions| - 1;
    assert forall i | 0 <= i < n :: actions[..n][..i] == actions[..i];
    if Spared(s, actions[..n], t) {
      assert forall i | 0 <= i < n :: actions[..n][i] == actions[i];
    }
  }

  lemma LiveOneMore(s: State, a: Action, t: TokenId)
    requires Inv(s) && t in s.rows
    ensures Live(Do(s, a), t) <==> Live(s, t) && !Revokes(s, a, t)
  {
    DoPersists(s, a);
    if Live(s, t) {
      RevokedExactly(s, a, t);
    }
  }

  // ---------------------------------------------------------------- what an issued token is good for

  /** `row` goes on with the session of `presented` until `expiresAt`. */
  predicate Renews(row: Row, presented: Row, expiresAt: int) {
    row.user == presented.user && row.family == presented.family && row.expiresAt == expiresAt
  }

  /** The action creates a row: a sign-in, or the successor of a consumed token. */
  predicate Issues(s: State, a: Action) {
    match a
    case SignIn(c, _, _) => !InFlight(s, c)
    case Mint(c, _) => Holds(s, c) && s.calls[c].stage == NeedMint
    case _ => false
  }

  /** An issued token is unrevoked, lasts until the expiry it was given, and belongs to the
      user who signed in, or to the user and the family of the token it replaces. */
  lemma IssuedRow(s: State, issue: Action)
    requires Inv(s) && Issues(s, issue)
    ensures s.next !in s.rows && Live(Do(s, issue), s.next)
    ensures var row := Do(s, issue).rows[s.next];
            if issue.SignIn?
            then row.user == issue.user && row.family == s.next && row.expiresAt == issue.expiresAt
            else Renews(row, s.rows[s.calls[issue.c].token], issue.expiresAt)
  {
  }

  lemma PresentedInTime(s: State, d: CallId, t: TokenId)
    requires Live(s, t) && s.now < s.rows[t].expiresAt && d !in s.calls
    ensures var r := Do(s, PresentRefresh(d, t));
            && d in r.calls && r.calls[d].Rotating? && r.calls[d].token == t
            && r.calls[d].row.user == s.rows[t].user && Live(r, t)
  {
  }

  lemma WinsTheRace(s: State, d: CallId, t: TokenId)
    requires d in s.calls && s.calls[d].Rotating? && s.calls[d].token == t && Live(s, t)
    ensures var r := Do(s, TryRevoke(d));
            Holds(r, d) && r.calls[d].token == t && r.calls[d].row == s.calls[d].row
  {
  }

  /** A token that was issued, by a sign-in or by a refresh, can be refreshed: over every
      schedule after its issue, a call that presents it before its expiry reaches the race and
      wins it for the same user, if nothing revokes the token before. */
  lemma IssuedTokenRefreshes(s: State, issue: Action, between: seq<Action>, d: CallId, wait: seq<Action>)
    requires Inv(s) && Issues(s, issue)
    requires Spared(Do(s, issue), between, s.next)
    requires var r := Run(Do(s, issue), between);
             && r.now < issue.expiresAt && d !in r.calls
             && Foreign(wait, d) && Spared(Do(r, PresentRefresh(d, s.next)), wait, s.next)
    ensures var r := Run(Do(s, issue), between + [PresentRefresh(d, s.next)] + wait + [TryRevoke(d)]);
            && Holds(r, d) && r.calls[d].token == s.next
            && r.calls[d].row.user == if issue.SignIn? then issue.user else s.calls[issue.c].row.user
  {
    var t := s.next;
    var issued := Do(s, issue);
    var r := Run(issued, between);
    var presented := Do(r, PresentRefresh(d, t));
    IssuedRow(s, issue);
    DoKeepsInv(s, issue);
    RunKeepsInv(issued, between);
    RunPersists(issued, between);
    StaysLiveExactly(issued, t, between);
    PresentedInTime(r, d, t);
    DoKeepsInv(r, PresentRefresh(d, t));
    StaysLiveExactly(presented, t, wait);
    ForeignKeepsCall(presented, wait, d);
    WinsTheRace(Run(presented, wait), d, t);
    Schedules.FoldSnoc(Do, issued, between, PresentRefresh(d, t));
    Schedules.FoldConcat(Do, issued, between + [PresentRefresh(d, t)], wait);
    Schedules.FoldSnoc(Do, issued, between + [PresentRefresh(d, t)] + wait, TryRevoke(d));
    hide *;
  }

  /** And after its expiry no call that presents it ever mints a token again. */
  lemma ExpiredTokenNeverMints(s: State, t: TokenId, between: seq<Action>, c: CallId, actions: seq<Action>)
    requires Inv(s) && t in s.rows && s.rows[t].expiresAt <= s.now
    requires c !in Run(s, between).calls
    ensures var before := Run(s, between);
            var r := Run(Do(before, PresentRefresh(c, t)), actions);
            forall u | u in r.rows && r.rows[u].mintedBy == c :: u in before.rows
  {
    RunKeepsInv(s, between);
    RunPersists(s, between);
    ClockExactly(s, between);
    DeadTokenNeverMints(Run(s, between), c, t, actions);
  }

  function Elapsed(actions: seq<Action>): nat {
    if actions == [] then 0
    else
      var last := actions[|actions| - 1];
      Elapsed(actions[..|actions| - 1]) + if last.Tick? then last.elapsed else 0
  }

  lemma {:induction false} ClockExactly(s: State, actions: seq<Action>)
    ensures Run(s, actions).now == s.now + Elapsed(actions)
    decreases |actions|
  {
    if actions != [] {
      ClockExactly(s, actions[..|actions| - 1]);
    }
  }

  /** Nor does a handler that died, at whatever point. */
  lemma DeadHandlerNeverMints(s: State, c: CallId, actions: seq<Action>)
    requires Inv(s) && c in s.calls
    ensures var r := Run(Do(s, Crash(c)), actions);
            forall t | t in r.rows && r.rows[t].mintedBy == c :: t in s.rows
  {
    CannotMintForever(Do(s, Crash(c)), c, actions);
  }

  // ---------------------------------------------------------------- for active accounts only

  /** What a call can have minted and where it can stand, by the lookups it has made. */
  ghost predicate Earned(s: State, r: State, c: CallId, actions: seq<Action>) {
    && (Holds(r, c) && r.calls[c].stage != NeedUser ==> LookupUser(c, Active) in actions)
    && (Holds(r, c) && r.calls[c].stage == NeedMint ==> LookupPlayer(c, true) in actions)
    && (forall t | t in r.rows && t !in s.rows && r.rows[t].mintedBy == c && r.rows[t].parent.Some? ::
          LookupUser(c, Active) in actions && LookupPlayer(c, true) in actions)
    && (forall t | t in r.rows :: t < r.next)
  }

  lemma EarnedStep(s: State, r: State, c: CallId, actions: seq<Action>, a: Action)
    requires Earned(s, r, c, actions)
    ensures Earned(s, Do(r, a), c, actions + [a])
  {
    assert a in actions + [a];
    assert forall b | b in actions :: b in actions + [a];
  }

  lemma {:induction false} EarnedRun(s: State, c: CallId, actions: seq<Action>)
    requires Inv(s) && !Holds(s, c)
    ensures Earned(s, Run(s, actions), c, actions)
    decreases |actions|
  {
    if actions != [] {
      var n := |actions| - 1;
      EarnedRun(s, c, actions[..n]);
      EarnedStep(s, Run(s, actions[..n]), c, actions[..n], actions[n]);
      assert actions[..n] + [actions[n]] == actions;
    }
  }

  /** Over every schedule, a call that rotates a token has found its account active and its player
      there: a banned account never gets another token. */
  lemma RotatesForActiveOnly(s: State, c: CallId, actions: seq<Action>, t: TokenId)
    requires Inv(s) && c !in s.calls
    requires t in Run(s, actions).rows && t !in s.rows
    requires Run(s, actions).rows[t].mintedBy == c && Run(s, actions).rows[t].parent.Some?
    ensures LookupUser(c, Active) in actions && LookupPlayer(c, true) in actions
  {
    EarnedRun(s, c, actions);
  }

  // ---------------------------------------------------------------- what logout-all ends

  ghost predicate NoLiveRow(s: State, user: UserId) {
    forall t | t in s.rows && s.rows[t].user == user :: s.rows[t].revoked
  }

  ghost predicate NoHolder(s: State, user: UserId) {
    forall c | Holds(s, c) :: s.calls[c].row.user != user
  }

  predicate NoSignIn(actions: seq<Action>, user: UserId) {
    forall i | 0 <= i < |actions| :: !(actions[i].SignIn? && actions[i].user == user)
  }

  /** After this state the user has no session again until the next sign-in. */
  ghost predicate SessionsOver(s: State, user: UserId) {
    forall actions | NoSignIn(actions, user) :: NoLiveRow(Run(s, actions), user)
  }

  lemma StepStaysOver(s: State, a: Action, user: UserId)
    requires Inv(s) && NoLiveRow(s, user) && NoHolder(s, user) && !(a.SignIn? && a.user == user)
    ensures NoLiveRow(Do(s, a), user) && NoHolder(Do(s, a), user)
  {
    match a
    case SignIn(_, _, _) =>
    case PresentRefresh(_, _) =>
    case TryRevoke(c) =>
      if InFlight(s, c) && s.calls[c].Rotating? {
        assert SameToken(s.rows[s.calls[c].token], s.calls[c].row);
      }
    case Mint(_, _) =>
    case _ =>
      DoOnlyLoses(s, a);
  }

  lemma {:induction false} StaysOver(s: State, user: UserId, actions: seq<Action>)
    requires Inv(s) && NoLiveRow(s, user) && NoHolder(s, user) && NoSignIn(actions, user)
    ensures NoLiveRow(Run(s, actions), user) && NoHolder(Run(s, actions), user)
    decreases |actions|
  {
    if actions != [] {
      var n := |actions| - 1;
      StaysOver(s, user, actions[..n]);
      RunKeepsInv(s, actions[..n]);
      StepStaysOver(Run(s, actions[..n]), actions[n], user);
    }
  }

  /** The remaining steps of a call that holds a consumed token, undisturbed. */
  function Finish(c: CallId, stage: Stage): seq<Action>
    decreases match stage case NeedUser => 2 case NeedPlayer => 1 case NeedMint => 0
  {
    match stage
    case NeedUser => [LookupUser(c, Active)] + Finish(c, NeedPlayer)
    case NeedPlayer => [LookupPlayer(c, true)] + Finish(c, NeedMint)
    case NeedMint => [Mint(c, 0)]
  }

  lemma {:induction false} FinishMints(s: State, c: CallId)
    requires Inv(s) && Holds(s, c)
    ensures var r := Run(s, Finish(c, s.calls[c].stage));
            Live(r, s.next) && r.rows[s.next].user == s.calls[c].row.user
    decreases match s.calls[c].stage case NeedUser => 2 case NeedPlayer => 1 case NeedMint => 0
  {
    var stage := s.calls[c].stage;
    if stage == NeedMint {
      Schedules.FoldOne(Do, s, Mint(c, 0));
    } else {
      var first := if stage == NeedUser then LookupUser(c, Active) else LookupPlayer(c, true);
      var rest := Finish(c, if stage == NeedUser then NeedPlayer else NeedMint);
      Schedules.FoldOne(Do, s, first);
      Schedules.FoldConcat(Do, s, [first], rest);
      DoKeepsInv(s, first);
      FinishMints(Do(s, first), c);
    }
  }

  lemma FinishIsNoSignIn(c: CallId, stage: Stage, user: UserId)
    ensures NoSignIn(Finish(c, stage), user)
  {
    match stage
    case NeedUser =>
      assert Finish(c, NeedUser) == [LookupUser(c, Active), LookupPlayer(c, true), Mint(c, 0)];
    case NeedPlayer =>
      assert Finish(c, NeedPlayer) == [LookupPlayer(c, true), Mint(c, 0)];
    case NeedMint =>
  }

  /** `logout_all` promises to revoke every session of the user. It ends them for good
      exactly when no rotation of that user is between its try_revoke and its create:
      such a rotation mints a live token after the sweep. */
  lemma LogoutAllIsFinalExactly(s: State, c: CallId, user: UserId)
    requires Inv(s) && c !in s.calls
    ensures SessionsOver(Do(s, LogoutAll(c, user)), user) <==> NoHolder(s, user)
  {
    var r := Do(s, LogoutAll(c, user));
    DoKeepsInv(s, LogoutAll(c, user));
    LogoutAllKeepsHolders(s, c, user);
    if NoHolder(s, user) {
      forall actions | NoSignIn(actions, user) ensures NoLiveRow(Run(r, actions), user) {
        StaysOver(r, user, actions);
      }
    } else {
      var d :| Holds(s, d) && s.calls[d].row.user == user;
      var rest := Finish(d, r.calls[d].stage);
      FinishMints(r, d);
      FinishIsNoSignIn(d, r.calls[d].stage, user);
      assert !NoLiveRow(Run(r, rest), user);
    }
  }

  lemma LogoutAllKeepsHolders(s: State, c: CallId, user: UserId)
    requires c !in s.calls
    ensures var r := Do(s, LogoutAll(c, user));
            && NoLiveRow(r, user)
            && (forall d :: Holds(r, d) <==> Holds(s, d))
            && (forall d | Holds(s, d) :: r.calls[d] == s.calls[d])
  {
  }
}
