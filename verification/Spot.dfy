// Spot balances and their locks: what a transfer conserves, and the reservation
// that resting orders rely on.
module SpotLedger {
  import opened Types
  import opened Store
  import opened Messages
  import opened Invariants
  import opened Preservation
  import opened Delivery

  /** A failing or empty transfer changes nothing; a self-transfer of anything else mints the amount. */
  lemma SelfTransferMints(st: State, i: nat, x: nat, amount: int, drain: bool)
    requires RowsOk(st.rows) && 0 < amount && st.TransferAccountAssetBalance(i, i, x, amount, drain).Ok?
    ensures SpotTotal(st.TransferAccountAssetBalance(i, i, x, amount, drain).value.rows, x)
         == SpotTotal(st.rows, x) + amount
  {
    hide SpotTotal;
    var src := st.GetRow(i, x);
    var released := if !drain then 0 else if amount > src.locked then src.locked else amount;
    var src' := src.(balance := src.balance - amount, locked := src.locked - released);
    var dst' := src.(balance := src.balance + amount);
    WriteBalance(st.rows, src', x);
    WriteBalance(st.SetRow(src').rows, dst', x);
  }

  /** Moving 4 of the 10 units of account 7 to itself leaves it with 14. */
  lemma SelfTransferInstance(st: State)
    requires st.rows == map[(7, USDC) := AssetRow(7, USDC, 10, 0, 0)]
    ensures var r := st.TransferAccountAssetBalance(7, 7, USDC, 4, false);
            r.Ok? && r.value.GetRow(7, USDC).balance == 14
  {
  }

  /** Between distinct accounts a transfer conserves every asset, in both drain modes. */
  lemma TransferConserves(st: State, from: nat, to: nat, x: nat, amount: int, drain: bool, y: nat)
    requires RowsOk(st.rows) && from != to && st.TransferAccountAssetBalance(from, to, x, amount, drain).Ok?
    ensures SpotTotal(st.TransferAccountAssetBalance(from, to, x, amount, drain).value.rows, y) == SpotTotal(st.rows, y)
  {
    hide SpotTotal;
    if amount != 0 {
      var src, dst := st.GetRow(from, x), st.GetRow(to, x);
      var released := if !drain then 0 else if amount > src.locked then src.locked else amount;
      var src' := src.(balance := src.balance - amount, locked := src.locked - released);
      WriteBalance(st.rows, src', y);
      WriteBalance(st.SetRow(src').rows, dst.(balance := dst.balance + amount), y);
    }
  }

  /** Exactly when an accepted transfer conserves the asset it moves. */
  lemma TransferConservesIff(st: State, from: nat, to: nat, x: nat, amount: int, drain: bool)
    requires RowsOk(st.rows) && st.TransferAccountAssetBalance(from, to, x, amount, drain).Ok?
    ensures SpotTotal(st.TransferAccountAssetBalance(from, to, x, amount, drain).value.rows, x) == SpotTotal(st.rows, x)
       <==> from != to || amount == 0
  {
    hide SpotTotal;
    if from != to {
      TransferConserves(st, from, to, x, amount, drain, x);
    } else if amount != 0 {
      SelfTransferMints(st, from, x, amount, drain);
    }
  }

  /**
   * What a transfer does to the two rows: the source pays out of its lock first
   * when draining and leaves its lock alone otherwise, the destination's lock
   * is untouched, and the source's reservation stays covered.
   */
  lemma TransferMovesAmount(st: State, from: nat, to: nat, x: nat, amount: int, drain: bool)
    requires RowsOk(st.rows) && from != to && 0 < amount
    requires st.TransferAccountAssetBalance(from, to, x, amount, drain).Ok?
    ensures var st' := st.TransferAccountAssetBalance(from, to, x, amount, drain).value;
            var (src, dst, src', dst') := (st.GetRow(from, x), st.GetRow(to, x), st'.GetRow(from, x), st'.GetRow(to, x));
            && src'.balance == src.balance - amount && dst'.balance == dst.balance + amount
            && dst'.locked == dst.locked
            && src'.locked <= src'.balance
            && (!drain ==> src'.locked == src.locked)
            && (drain ==> src.locked - src'.locked == (if amount <= src.locked then amount else src.locked))
            && st'.AvailableBalance(from, x)
               == st.AvailableBalance(from, x) - (if drain then amount - (src.locked - src'.locked) else amount)
  {
    GetRowOk(st, from, x);
    GetRowOk(st, to, x);
  }

  /** After any run the clamp of the available balance is the identity: no lock exceeds its balance. */
  lemma AvailableNeverUnderflows(st: State, txs: seq<Tx>, i: nat, x: nat)
    requires Core(st)
    ensures var st' := Run(st, txs);
            var r := st'.GetRow(i, x);
            0 <= r.locked && 0 <= st'.AvailableBalance(i, x) == r.balance - r.locked
  {
    hide Run, Core;
    RunKeeps(st, txs);
    CoreTables(Run(st, txs));
    GetRowOk(Run(st, txs), i, x);
  }

  /** Locking and then unlocking the same amount gives the row back. */
  lemma LockThenUnlock(st: State, i: nat, x: nat, amount: int)
    requires RowsOk(st.rows) && st.IncreaseLockedBalance(i, x, amount).Ok?
    ensures var locked := st.IncreaseLockedBalance(i, x, amount).value;
            var back := locked.DecreaseLockedBalance(i, x, amount);
            && back.Ok? && back.value.GetRow(i, x) == st.GetRow(i, x)
            && locked.AvailableBalance(i, x) == st.AvailableBalance(i, x) - amount
  {
    GetRowOk(st, i, x);
  }
}
