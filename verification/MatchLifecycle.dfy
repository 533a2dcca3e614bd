/** The statuses of a match and the transitions the lifecycle service allows between them. */
module MatchLifecycle {

  datatype Status =
    | Pending | Ready | Scheduled | CheckingIn | PickBan | InProgress
    | AwaitingResult | Disputed | Completed | Forfeit | Cancelled

  function Allowed(from: Status): set<Status> {
    match from
    case Pending => {Ready, Cancelled}
    case Ready => {Scheduled, Cancelled}
    case Scheduled => {CheckingIn, PickBan, InProgress, Forfeit, Cancelled}
    case CheckingIn => {PickBan, InProgress, Forfeit, Cancelled}
    case PickBan => {InProgress, Forfeit, Cancelled}
    case InProgress => {AwaitingResult, Forfeit}
    case AwaitingResult => {Completed, Disputed, Forfeit}
    case Disputed => {Completed}
    case _ => {}
  }

  predicate Terminal(status: Status) {
    status.Completed? || status.Forfeit? || status.Cancelled?
  }

  predicate CanForfeit(status: Status) {
    status.Scheduled? || status.CheckingIn? || status.PickBan? || status.InProgress? || status.AwaitingResult?
  }

  predicate BeforePickBan(status: Status) {
    status.Pending? || status.Ready? || status.Scheduled? || status.CheckingIn?
  }

  /** The table read the other way, against the service's own guards: a match can be cancelled
      before it is played, forfeited exactly when it can be forfeited, and disputed or completed
      only once it has a result; it can be left exactly while it is not over. */
  lemma EnteredFromExactly(from: Status)
    ensures Cancelled in Allowed(from) <==> BeforePickBan(from) || from.PickBan?
    ensures Forfeit in Allowed(from) <==> CanForfeit(from)
    ensures Completed in Allowed(from) <==> from.AwaitingResult? || from.Disputed?
    ensures Disputed in Allowed(from) <==> from.AwaitingResult?
    ensures AwaitingResult in Allowed(from) <==> from.InProgress?
    ensures InProgress in Allowed(from) <==> from.Scheduled? || from.CheckingIn? || from.PickBan?
    ensures PickBan in Allowed(from) <==> from.Scheduled? || from.CheckingIn?
    ensures CheckingIn in Allowed(from) <==> from.Scheduled?
    ensures Scheduled in Allowed(from) <==> from.Ready?
    ensures Ready in Allowed(from) <==> from.Pending?
    ensures Pending !in Allowed(from)
    ensures Allowed(from) == {} <==> Terminal(from)
  {
    assert !Terminal(from) ==> Cancelled in Allowed(from) || Forfeit in Allowed(from) || Completed in Allowed(from);
  }
}
