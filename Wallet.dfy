/**
 * The wallet page: the asset and transaction fixtures, the allocation chart data,
 * the transaction search, the amount sign and status badge of each row, and the
 * withdraw dialog with its Confirm button.
 */
module Wallet {
  import opened Wrappers
  import opened JsText
  import opened Seqs

  datatype TxType = Deposit | Withdrawal | TradeBuy | TradeSell | StakingReward

  datatype TxStatus = Completed | Pending | Failed

  /** The type as the page's string literal. */
  function TypeName(t: TxType): string
  {
    match t
    case Deposit => "Deposit"
    case Withdrawal => "Withdrawal"
    case TradeBuy => "TradeBuy"
    case TradeSell => "TradeSell"
    case StakingReward => "StakingReward"
  }

  function StatusName(s: TxStatus): string
  {
    match s
    case Completed => "Completed"
    case Pending => "Pending"
    case Failed => "Failed"
  }

  datatype Asset = Asset(
    id: string,
    name: string,
    symbol: string,
    balance: real,
    valueUSD: real,
    color: string,
    iconUrl: Option<string>,
    address: Option<string>)

  datatype Transaction = Transaction(
    id: string,
    date: string,
    txType: TxType,
    assetSymbol: string,
    amount: real,
    status: TxStatus,
    fromAddress: Option<string>,
    toAddress: Option<string>,
    txHash: Option<string>)

  const TotalBalanceUSD: real := 67500.75

  const Assets: seq<Asset> := [
    Asset("btc", "Bitcoin", "BTC", 1.25, 50000.50, "#F7931A",
      Some("https://cryptologos.cc/logos/bitcoin-btc-logo.png?v=029"), Some("1A1zP1eP5QGefi2DMPTfTL5SLmv7DivfNa")),
    Asset("eth", "Ethereum", "ETH", 10.5, 15000.25, "#627EEA",
      Some("https://cryptologos.cc/logos/ethereum-eth-logo.png?v=029"), Some("0x0123456789abcdef0123456789abcdef01234567")),
    Asset("usdt", "Tether", "USDT", 2500.00, 2500.00, "#26A17B",
      Some("https://cryptologos.cc/logos/tether-usdt-logo.png?v=029"), Some("0xTetherAddress0123456789abcdef0123456789"))
  ]

  const Transactions: seq<Transaction> := [
    Transaction("tx1", "2024-08-15 10:30", Deposit, "BTC", 0.05, Completed,
      None, Some("1A1zP1eP5QGefi2DMPTfTL5SLmv7DivfNa"), Some("0xabc...")),
    Transaction("tx2", "2024-08-14 14:20", Withdrawal, "ETH", 1.5, Completed,
      None, Some("0xExternalWithdrawalAddr"), Some("0xdef...")),
    Transaction("tx3", "2024-08-13 09:00", TradeBuy, "BTC", 0.02, Completed, None, None, None),
    Transaction("tx4", "2024-08-16 11:00", Deposit, "USDT", 500.0, Pending,
      None, Some("0xTetherAddress0123456789abcdef0123456789"), Some("0xghi..."))
  ]

  // ---------------------------------------------------------------------------
  // Allocation chart
  // ---------------------------------------------------------------------------

  datatype AllocationEntry = AllocationEntry(name: string, value: real, fill: string)

  /** `assetAllocationData`: one chart slice per asset, in order. */
  function AssetAllocation(assets: seq<Asset>): (r: seq<AllocationEntry>)
    ensures |r| == |assets|
    ensures forall i :: 0 <= i < |r| ==>
      r[i].name == assets[i].symbol && r[i].value == assets[i].valueUSD && r[i].fill == assets[i].color
  {
    if assets == [] then []
    else [AllocationEntry(assets[0].symbol, assets[0].valueUSD, assets[0].color)] + AssetAllocation(assets[1..])
  }

  function SliceTotal(entries: seq<AllocationEntry>): real
  {
    if entries == [] then 0.0 else entries[0].value + SliceTotal(entries[1..])
  }

  /** The slices of the fixture assets add up to the total balance the page shows. */
  lemma AllocationAddsUp()
    ensures SliceTotal(AssetAllocation(Assets)) == TotalBalanceUSD
  {
    var r := AssetAllocation(Assets);
    assert r[2..][1..] == [];
    assert SliceTotal(r[2..]) == 2500.00;
    assert SliceTotal(r[1..]) == 15000.25 + 2500.00;
  }

  // ---------------------------------------------------------------------------
  // Transaction list
  // ---------------------------------------------------------------------------

  /** The transaction search: symbol, type or status contains the term, ignoring case. */
  predicate TxMatches(tx: Transaction, term: string)
  {
    var t := Lower(term);
    Includes(Lower(tx.assetSymbol), t) || Includes(Lower(TypeName(tx.txType)), t)
    || Includes(Lower(StatusName(tx.status)), t)
  }

  /** `filteredTransactions`: all transactions for an empty term, else the matching ones. */
  function FilteredTransactions(txs: seq<Transaction>, term: string): seq<Transaction>
  {
    if term == "" then txs else Filter(txs, (tx: Transaction) => TxMatches(tx, term))
  }

  /** An empty search shows every transaction. */
  lemma EmptyTxSearch(txs: seq<Transaction>)
    ensures FilteredTransactions(txs, "") == txs
  {
  }

  /**
   * The search keeps the transactions in their order; with a term it keeps a transaction
   * iff it matches, as often as it occurs.
   */
  lemma TxSearchKeeps(txs: seq<Transaction>, term: string, tx: Transaction)
    ensures IsSubsequence(FilteredTransactions(txs, term), txs)
    ensures term != "" ==>
      (tx in FilteredTransactions(txs, term) <==> tx in txs && TxMatches(tx, term))
  {
    if term == "" {
      SubsequenceOfSelf(txs);
    } else {
      FilterMember(txs, (tx: Transaction) => TxMatches(tx, term), tx);
    }
  }

  /** A row's amount sign: '+' when the type names a deposit or a buy. */
  function AmountSign(t: TxType): char
  {
    if Includes(TypeName(t), "Deposit") || Includes(TypeName(t), "Buy") then '+' else '-'
  }

  /** Deposits and buys are credited; withdrawals, sells and staking rewards are shown as debits. */
  lemma AmountSignRule(t: TxType)
    ensures AmountSign(t) == '+' <==> t == Deposit || t == TradeBuy
  {
    if t == Deposit {
      IncludesEmptyAndSelf("Deposit");
    } else if t == TradeBuy {
      BuyInTradeBuy();
    } else {
      DebitName(TypeName(t));
    }
  }

  /** A name with neither a `D` nor a `B` names neither a deposit nor a buy. */
  lemma DebitName(name: string)
    requires 'D' !in name && 'B' !in name
    ensures !Includes(name, "Deposit") && !Includes(name, "Buy")
  {
    NotIncluded(name, "Deposit", 'D');
    NotIncluded(name, "Buy", 'B');
  }

  lemma BuyInTradeBuy()
    ensures Includes("TradeBuy", "Buy")
  {
    var s := "TradeBuy";
    assert s[5..8] == "Buy";
    assert OccursAt(s, "Buy", 5);
    IncludesIff(s, "Buy");
  }

  /** A word that lacks a character of `t` does not include `t`. */
  lemma {:induction false} NotIncluded(s: string, t: string, c: char)
    requires c in t && c !in s
    ensures !Includes(s, t)
    decreases |s|
  {
    if |s| > 0 {
      assert c !in s[1..] by {
        assert forall i :: 0 <= i < |s[1..]| ==> s[1..][i] == s[i + 1];
      }
      NotIncluded(s[1..], t, c);
    }
  }

  datatype BadgeVariant = Default | Secondary | Destructive

  datatype BadgeTone = Green | Yellow | Red

  /** The status badge's variant. */
  function StatusBadge(s: TxStatus): BadgeVariant
  {
    if s == Completed then Default else if s == Pending then Secondary else Destructive
  }

  /** The status badge's colour class, chosen by its own chain of tests. */
  function StatusTone(s: TxStatus): BadgeTone
  {
    if s == Completed then Green else if s == Pending then Yellow else Red
  }

  /**
   * Completed is `default` and green, Pending is `secondary` and yellow, and only a status
   * that is neither is `destructive` and red.
   */
  lemma BadgeAgrees(s: TxStatus)
    ensures StatusBadge(s) == Default <==> s == Completed
    ensures StatusBadge(s) == Secondary <==> s == Pending
    ensures StatusBadge(s) == Destructive <==> s == Failed
    ensures StatusBadge(s) == Default <==> StatusTone(s) == Green
    ensures StatusBadge(s) == Secondary <==> StatusTone(s) == Yellow
  {
  }

  // ---------------------------------------------------------------------------
  // Dialogs
  // ---------------------------------------------------------------------------

  datatype WalletState = WalletState(
    depositOpen: bool,
    withdrawOpen: bool,
    addressBookOpen: bool,
    selected: Option<Asset>,
    searchTerm: string,
    withdrawAmount: string,
    withdrawAddress: string)

  const InitialState: WalletState := WalletState(false, false, false, None, "", "", "")

  /** `handleDeposit`: select the asset and open the deposit dialog. */
  function HandleDeposit(s: WalletState, a: Asset): (r: WalletState)
    ensures r.selected == Some(a) && r.depositOpen
    ensures r.(selected := s.selected, depositOpen := s.depositOpen) == s
  {
    s.(selected := Some(a), depositOpen := true)
  }

  /** `handleWithdraw`: select the asset, clear amount and address, open the withdraw dialog. */
  function HandleWithdraw(s: WalletState, a: Asset): (r: WalletState)
    ensures r.selected == Some(a) && r.withdrawOpen && r.withdrawAmount == "" && r.withdrawAddress == ""
    ensures r.(selected := s.selected, withdrawOpen := s.withdrawOpen,
               withdrawAmount := s.withdrawAmount, withdrawAddress := s.withdrawAddress) == s
  {
    s.(selected := Some(a), withdrawAmount := "", withdrawAddress := "", withdrawOpen := true)
  }

  /** The balance the amount is checked against: the selected asset's, or 0. */
  function AvailableBalance(selected: Option<Asset>): real
  {
    match selected
    case Some(a) => a.balance
    case None => 0.0
  }

  /** The Confirm Withdraw button's `disabled` expression. */
  predicate ConfirmDisabled(s: WalletState)
  {
    var amount := ParseFloat(s.withdrawAmount);
    s.withdrawAddress == "" || s.withdrawAmount == ""
    || NumLe(amount, 0.0) || NumGt(amount, AvailableBalance(s.selected))
  }

  /** Confirm closes the withdraw dialog and changes nothing else. */
  function ConfirmWithdraw(s: WalletState): (r: WalletState)
    ensures !r.withdrawOpen && r.(withdrawOpen := s.withdrawOpen) == s
  {
    s.(withdrawOpen := false)
  }

  /**
   * Confirm is enabled iff address and amount are filled in and the amount is either not a
   * number or lies in (0, balance].
   */
  lemma ConfirmEnabledIff(s: WalletState)
    ensures !ConfirmDisabled(s) <==>
      s.withdrawAddress != "" && s.withdrawAmount != ""
      && (ParseFloat(s.withdrawAmount).None?
          || 0.0 < ParseFloat(s.withdrawAmount).value <= AvailableBalance(s.selected))
  {
  }

  /** With no asset selected the balance is 0, so any positive amount disables Confirm. */
  lemma NoAssetDisables(s: WalletState)
    requires s.selected.None? && NumGt(ParseFloat(s.withdrawAmount), 0.0)
    ensures ConfirmDisabled(s)
  {
  }

  /** An amount that is not a number fails both comparisons and leaves Confirm enabled. */
  lemma NotANumberEnables(s: WalletState)
    requires s.withdrawAddress != "" && s.withdrawAmount != "" && ParseFloat(s.withdrawAmount).None?
    ensures !ConfirmDisabled(s)
  {
  }

  /** Such an amount exists: "e5" has no digits before its exponent. */
  lemma NotANumberExample(s: WalletState)
    requires s.withdrawAddress != "" && s.withdrawAmount == "e5"
    ensures !ConfirmDisabled(s)
  {
    var e := s.withdrawAmount;
    assert TrimStart(e) == e && Unsigned(e) == e;
    assert !StartsNumeric(e);
  }

  /** Right after the withdraw dialog opens, Confirm is disabled. */
  lemma WithdrawStartsDisabled(s: WalletState, a: Asset)
    ensures ConfirmDisabled(HandleWithdraw(s, a))
  {
  }
}
