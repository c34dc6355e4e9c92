/** The balance manager: it runs the scripts under fresh event ids and so implements the ledger updates. */
module BalanceManagers {
  import opened Types
  import opened Ledgers
  import opened Scripts

  ghost predicate ShowsHalf(values: map<Key, int>, cash: map<UserId, int>, escrow: map<UserId, int>) {
    && (forall u :: CashBalance(u) in values <==> u in cash)
    && (forall u :: u in cash ==> values[CashBalance(u)] == cash[u])
    && (forall u :: CashEscrow(u) in values <==> u in escrow)
    && (forall u :: u in escrow ==> values[CashEscrow(u)] == escrow[u])
  }

  ghost predicate ShowsAssets(values: map<Key, int>, asset: map<UserId, int>, escrow: map<UserId, int>) {
    && (forall u :: AssetBalance(u) in values <==> u in asset)
    && (forall u :: u in asset ==> values[AssetBalance(u)] == asset[u])
    && (forall u :: AssetEscrow(u) in values <==> u in escrow)
    && (forall u :: u in escrow ==> values[AssetEscrow(u)] == escrow[u])
  }

  /** The stored values are the ledger. */
  ghost predicate Shows(values: map<Key, int>, l: Ledger) {
    ShowsHalf(values, l.cash, l.cashEscrow) && ShowsAssets(values, l.asset, l.assetEscrow)
  }

  /** No id from `next` on has been logged. */
  ghost predicate Unused(logs: map<Key, set<EventId>>, next: EventId) {
    forall k, e :: k in logs && e in logs[k] ==> e < next
  }

  class BalanceManager {
    var values: map<Key, int>
    var logs: map<Key, set<EventId>>
    /** Source of fresh event ids: larger than every id logged so far. */
    var nextEvent: EventId
    ghost var ledger: Ledger

    ghost function Contents(): Store
      reads this
    {
      Store(values, logs)
    }

    ghost predicate Valid()
      reads this
    {
      && Shows(values, ledger)
      && Unused(logs, nextEvent)
    }

    constructor ()
      ensures Valid() && ledger == Ledger(map[], map[], map[], map[], {})
    {
      values, logs, nextEvent := map[], map[], 0;
      ledger := Ledger(map[], map[], map[], map[], {});
    }

    /** LUA_UPDATE_BALANCE, and each guarded block of the settlement scripts. */
    method RunUpdate(k: Key, event: EventId, delta: int) returns (value: int)
      modifies this
      ensures Contents() == Deliver(old(Contents()), Delivery(k, event, delta))
      ensures value == Contents().Value(k)
      ensures nextEvent == old(nextEvent) && ledger == old(ledger)
    {
      var log := if k in logs then logs[k] else {};
      if event in log {
        return if k in values then values[k] else 0;
      }
      value := (if k in values then values[k] else 0) + delta;
      values := values[k := value];
      logs := logs[k := log + {event}];
    }

    /** Run one guarded update under the next fresh id: it always takes effect. */
    method Apply(k: Key, delta: int)
      requires Unused(logs, nextEvent)
      modifies this
      ensures values == old(values)[k := old(Contents()).Value(k) + delta] && ledger == old(ledger)
      ensures Unused(logs, nextEvent)
    {
      var event := nextEvent;
      nextEvent := nextEvent + 1;
      var value := RunUpdate(k, event, delta);
    }

    method BumpCashEscrow(u: UserId, delta: int)
      requires Valid()
      modifies this
      ensures Valid() && ledger == old(ledger).(cashEscrow := Bump(old(ledger).cashEscrow, u, delta))
    {
      Apply(CashEscrow(u), delta);
      ledger := ledger.(cashEscrow := Bump(ledger.cashEscrow, u, delta));
    }

    method BumpCash(u: UserId, delta: int)
      requires Valid()
      modifies this
      ensures Valid() && ledger == old(ledger).(cash := Bump(old(ledger).cash, u, delta))
    {
      Apply(CashBalance(u), delta);
      ledger := ledger.(cash := Bump(ledger.cash, u, delta));
    }

    method BumpAssetEscrow(u: UserId, delta: int)
      requires Valid()
      modifies this
      ensures Valid() && ledger == old(ledger).(assetEscrow := Bump(old(ledger).assetEscrow, u, delta))
    {
      Apply(AssetEscrow(u), delta);
      ledger := ledger.(assetEscrow := Bump(ledger.assetEscrow, u, delta));
    }

    method BumpAsset(u: UserId, delta: int)
      requires Valid()
      modifies this
      ensures Valid() && ledger == old(ledger).(asset := Bump(old(ledger).asset, u, delta))
    {
      Apply(AssetBalance(u), delta);
      ledger := ledger.(asset := Bump(ledger.asset, u, delta));
    }

    method IncreaseCashEscrow(u: UserId, amount: int)
      requires Valid()
      modifies this
      ensures Valid() && ledger ==
        if u == SYSTEM_USER_ID then old(ledger) else ApplyOp(old(ledger), HoldCash(u, amount))
    {
      if u != SYSTEM_USER_ID { BumpCashEscrow(u, amount); }
    }

    method DecreaseCashEscrow(u: UserId, amount: int)
      requires Valid()
      modifies this
      ensures Valid() && ledger ==
        if u == SYSTEM_USER_ID then old(ledger) else ApplyOp(old(ledger), ReleaseCash(u, amount))
    {
      if u != SYSTEM_USER_ID { BumpCashEscrow(u, -amount); }
    }

    method IncreaseAssetEscrow(u: UserId, amount: int)
      requires Valid()
      modifies this
      ensures Valid() && ledger ==
        if u == SYSTEM_USER_ID then old(ledger) else ApplyOp(old(ledger), HoldAsset(u, amount))
    {
      if u != SYSTEM_USER_ID { BumpAssetEscrow(u, amount); }
    }

    method DecreaseAssetEscrow(u: UserId, amount: int)
      requires Valid()
      modifies this
      ensures Valid() && ledger ==
        if u == SYSTEM_USER_ID then old(ledger) else ApplyOp(old(ledger), ReleaseAsset(u, amount))
    {
      if u != SYSTEM_USER_ID { BumpAssetEscrow(u, -amount); }
    }

    /** `settle_bid`: escrow, cash and asset move together; what the buyer has available stays the same. */
    method SettleBid(u: UserId, quantity: int, price: Price)
      requires Valid()
      modifies this
      ensures Valid()
      ensures ledger ==
        if u == SYSTEM_USER_ID then old(ledger) else ApplyOp(old(ledger), BalanceOp.SettleBid(u, quantity, price))
      ensures Available(ledger, u, Bid) == old(Available(ledger, u, Bid))
    {
      if u == SYSTEM_USER_ID { return; }
      var total := quantity * price;
      BumpCashEscrow(u, -total);
      BumpCash(u, -total);
      BumpAsset(u, quantity);
    }

    /** `settle_ask`: likewise for the seller and the seller's available asset. */
    method SettleAsk(u: UserId, quantity: int, price: Price)
      requires Valid()
      modifies this
      ensures Valid()
      ensures ledger ==
        if u == SYSTEM_USER_ID then old(ledger) else ApplyOp(old(ledger), BalanceOp.SettleAsk(u, quantity, price))
      ensures Available(ledger, u, Ask) == old(Available(ledger, u, Ask))
    {
      if u == SYSTEM_USER_ID { return; }
      var total := quantity * price;
      BumpAssetEscrow(u, -quantity);
      BumpAsset(u, -quantity);
      BumpCash(u, total);
    }

    /** `get_available_cash_balance`: a user seen for the first time is granted the default balance. */
    method GetAvailableCashBalance(u: UserId) returns (available: int)
      requires Valid()
      modifies this
      ensures Valid() && ledger == Consult(old(ledger), u, Bid) && available == Available(ledger, u, Bid)
    {
      if CashBalance(u) !in values {
        values := values[CashBalance(u) := DEFAULT_CASH_BALANCE];
      }
      if CashEscrow(u) !in values {
        values := values[CashEscrow(u) := 0];
      }
      available := values[CashBalance(u)] - values[CashEscrow(u)];
      ledger := Consult(ledger, u, Bid);
    }

    method GetAvailableAssetBalance(u: UserId) returns (available: int)
      requires Valid()
      modifies this
      ensures Valid() && ledger == Consult(old(ledger), u, Ask) && available == Available(ledger, u, Ask)
    {
      if AssetBalance(u) !in values {
        values := values[AssetBalance(u) := 0];
      }
      if AssetEscrow(u) !in values {
        values := values[AssetEscrow(u) := 0];
      }
      available := values[AssetBalance(u)] - values[AssetEscrow(u)];
      ledger := Consult(ledger, u, Ask);
    }
  }
}
