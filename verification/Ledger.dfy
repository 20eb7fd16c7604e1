/** Coins of the users and the ledger of coin transactions. */
module Ledger {
  import opened Basics

  const INITIAL_COINS := 10
  const CHAT_COST := 2
  const ROOM_SEARCH_COST := 3
  const ROOM_CREATE_COST := 20
  const REFERRAL_BONUS := 5

  datatype Reason =
    | GenderSearch | SearchTimeoutRefund | SearchCancelRefund | FailedChatRefund
    | RequestCost | RequestTimeoutRefund | RequestRejectRefund
    | RoomSearch | RoomConflictRefund | RoomCancelRefund | RoomTimeoutRefund
    | RoomCreate | DirectMessage | ReportReward | ReferralBonus(invitee: UserId)

  datatype Txn = Txn(user: UserId, amount: int, reason: Reason)

  /** The three paid services that can give money back, told apart by what an entry is for. */
  datatype Kind = SearchFee | SearchRefund | RequestFee | RequestRefund | RoomFee | RoomRefund | Bonus(invitee: UserId) | Other

  function KindOf(r: Reason): Kind {
    match r
    case GenderSearch => SearchFee
    case SearchTimeoutRefund | SearchCancelRefund | FailedChatRefund => SearchRefund
    case RequestCost => RequestFee
    case RequestTimeoutRefund | RequestRejectRefund => RequestRefund
    case RoomSearch => RoomFee
    case RoomConflictRefund | RoomCancelRefund | RoomTimeoutRefund => RoomRefund
    case ReferralBonus(i) => Bonus(i)
    case RoomCreate | DirectMessage | ReportReward => Other
  }

  function Sum(l: seq<Txn>, u: UserId): int {
    if l == [] then 0
    else Sum(l[..|l| - 1], u) + (if l[|l| - 1].user == u then l[|l| - 1].amount else 0)
  }

  function Count(l: seq<Txn>, u: UserId, k: Kind): nat {
    if l == [] then 0
    else Count(l[..|l| - 1], u, k) + (if l[|l| - 1].user == u && KindOf(l[|l| - 1].reason) == k then 1 else 0)
  }

  lemma Append(l: seq<Txn>, t: Txn)
    ensures forall u :: Sum(l + [t], u) == Sum(l, u) + (if t.user == u then t.amount else 0)
    ensures forall u, k :: Count(l + [t], u, k) == Count(l, u, k) + (if t.user == u && KindOf(t.reason) == k then 1 else 0)
  {
    assert (l + [t])[..|l|] == l;
  }
}
