/**
 * The four balances the engine moves, as maps from user to value; an absent key reads as zero, which
 * is what INCRBYFLOAT does. `BalanceManagers` shows that the stored scripts implement these updates.
 */
module Ledgers {
  import opened Types

  const DEFAULT_CASH_BALANCE: int := 10_000

  /** `granted` remembers who received the default cash balance from a balance getter. */
  datatype Ledger = Ledger(
    cash: map<UserId, int>, cashEscrow: map<UserId, int>,
    asset: map<UserId, int>, assetEscrow: map<UserId, int>,
    granted: set<UserId>)

  function Get(m: map<UserId, int>, u: UserId): int { if u in m then m[u] else 0 }

  function Bump(m: map<UserId, int>, u: UserId, delta: int): map<UserId, int> { m[u := Get(m, u) + delta] }

  /** Getters store the value they return for a missing key. */
  function Seed(m: map<UserId, int>, u: UserId, v: int): map<UserId, int> { if u in m then m else m[u := v] }

  function ApplyOp(l: Ledger, op: BalanceOp): Ledger {
    match op
    case HoldCash(u, a) => l.(cashEscrow := Bump(l.cashEscrow, u, a))
    case HoldAsset(u, a) => l.(assetEscrow := Bump(l.assetEscrow, u, a))
    case ReleaseCash(u, a) => l.(cashEscrow := Bump(l.cashEscrow, u, -a))
    case ReleaseAsset(u, a) => l.(assetEscrow := Bump(l.assetEscrow, u, -a))
    case SettleBid(u, q, p) =>
      l.(cashEscrow := Bump(l.cashEscrow, u, -(q * p)),
         cash := Bump(l.cash, u, -(q * p)),
         asset := Bump(l.asset, u, q))
    case SettleAsk(u, q, p) =>
      l.(assetEscrow := Bump(l.assetEscrow, u, -q),
         asset := Bump(l.asset, u, -q),
         cash := Bump(l.cash, u, q * p))
  }

  /** The state after `get_available_cash_balance` or `get_available_asset_balance`. */
  function Consult(l: Ledger, u: UserId, side: Side): Ledger {
    if side.Bid? then
      l.(cash := Seed(l.cash, u, DEFAULT_CASH_BALANCE),
         cashEscrow := Seed(l.cashEscrow, u, 0),
         granted := if u in l.cash then l.granted else l.granted + {u})
    else
      l.(asset := Seed(l.asset, u, 0), assetEscrow := Seed(l.assetEscrow, u, 0))
  }

  function Available(l: Ledger, u: UserId, side: Side): int {
    if side.Bid? then Get(l.cash, u) - Get(l.cashEscrow, u) else Get(l.asset, u) - Get(l.assetEscrow, u)
  }

  /** `_check_sufficient_balance` for a priced order of an ordinary user. */
  predicate Affords(l: Ledger, o: Order, quantity: int, price: Price) {
    (if o.side.Bid? then quantity * price else quantity) <= Available(Consult(l, o.user, o.side), o.user, o.side)
  }
}
