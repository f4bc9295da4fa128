/** The application store: one record of dashboard state (wallet, oracle
    assets, portfolio, proposals, histories, metrics) and the actions that
    move it from one state to the next. Every action is one atomic
    transition; the loading flag, which each action sets and clears again,
    is not kept. */
module Store {
  import opened Common
  import Chain
  import Ledger

  // ---------------------------------------------------------------------
  // State records
  // ---------------------------------------------------------------------

  datatype Category = RealEstate | Commodity | Forex

  /** One oracle-tracked asset as the dashboard shows it. */
  datatype OracleAsset = OracleAsset(
    id: string,
    name: string,
    symbol: string,
    price: real,
    change24h: real,
    yieldPct: real,
    category: Category,
    allocation: real,
    lastUpdate: int,
    confidence: Option<real>,
    source: Option<string>)

  /** One harvest as the portfolio records it. */
  datatype Harvest = Harvest(timestamp: int, amount: real, apy: real)

  datatype Portfolio = Portfolio(
    qxBalance: real,
    sharesOwned: real,
    shareValue: real,
    totalValue: real,
    deposits: seq<real>,
    compoundHistory: seq<Harvest>,
    transactions: seq<Chain.Transaction>,
    totalEarned: real,
    lastHarvest: Option<int>)

  datatype ProposalStatus = Active | Passed | Rejected

  /** A governance proposal; its long description is display text and is
      not part of the model. */
  datatype Proposal = Proposal(
    id: string,
    title: string,
    votesFor: real,
    votesAgainst: real,
    status: ProposalStatus,
    endDate: int,
    quorum: real,
    userVoted: Option<bool>)

  datatype Metrics = Metrics(
    tvl: real,
    totalUsers: int,
    dailyVolume: real,
    protocolRevenue: real,
    averageApy: real,
    rebalanceCount: nat,
    lastRebalance: Option<int>,
    nextRebalance: Option<int>)

  /** The notification texts, by the event they report (amounts are kept as
      numbers; their two-decimal rendering is not modelled). */
  datatype Message =
    | WalletConnected | WalletDisconnected | DemoModeOn | AutoModeOn | AutoModeOff
    | ConnectWalletFirst | Deposited(amount: real) | InvalidWithdrawal | Withdrew(qx: real)
    | NeedShares | AlreadyVoted | VoteCast(shares: real) | Rebalanced | Compounded(amount: real)
    | FaucetReceived(amount: real) | FaucetFailed | Failed(error: Error)

  datatype Kind = SuccessKind | ErrorKind | InfoKind

  datatype Notification = Notification(message: Message, kind: Kind)

  const HourMs: int := 3600000
  const DayMs: int := 86400000

  // ---------------------------------------------------------------------
  // Initial state
  // ---------------------------------------------------------------------

  function InitialOracleData(now: int): seq<OracleAsset> {
    [ OracleAsset("rei", "Global Real Estate Index", "REI", 2847.50, 0.85, 12.0, RealEstate, 45.0, now,
                  Some(0.98), Some("QUBIC_ORACLE_NODE_1")),
      OracleAsset("xau", "Gold Spot", "XAU", 2024.30, -0.32, 10.0, Commodity, 30.0, now,
                  Some(0.97), Some("QUBIC_ORACLE_NODE_2")),
      OracleAsset("usdtry", "USD/TRY Carry", "USD/TRY", 32.45, 1.24, 8.0, Forex, 25.0, now,
                  Some(0.96), Some("QUBIC_ORACLE_NODE_3")) ]
  }

  const InitialPortfolio: Portfolio := Portfolio(0.0, 0.0, 1.0, 0.0, [], [], [], 0.0, None)

  function InitialMetrics(now: int): Metrics {
    Metrics(2847500.0, 1247, 458000.0, 14237.0, 15.2, 0, None, Some(now + HourMs))
  }

  function InitialProposals(now: int): seq<Proposal> {
    [ Proposal("1", "Add Bitcoin Treasury Basket", 12500.0, 3200.0, Active, now + 7 * DayMs, 20000.0, Some(false)),
      Proposal("2", "Increase Real Estate Allocation", 8900.0, 7100.0, Active, now + 5 * DayMs, 15000.0, Some(false)) ]
  }

  // ---------------------------------------------------------------------
  // APY: the allocation-weighted yield
  // ---------------------------------------------------------------------

  function Contribution(a: OracleAsset): real {
    a.yieldPct * a.allocation / 100.0
  }

  /** `oracleData.reduce((acc, d) => acc + d.yield * d.allocation / 100, 0)`. */
  function Apy(data: seq<OracleAsset>): real {
    if data == [] then 0.0 else Apy(data[..|data| - 1]) + Contribution(data[|data| - 1])
  }

  function TotalAllocation(data: seq<OracleAsset>): real {
    if data == [] then 0.0 else TotalAllocation(data[..|data| - 1]) + data[|data| - 1].allocation
  }

  /** The initial assets (45/30/25 at 12/10/8 percent) give an APY of 10.4. */
  lemma InitialApy(now: int)
    ensures Apy(InitialOracleData(now)) == 10.4
  {
    var d := InitialOracleData(now);
    assert d[..1][..0] == [];
    assert Apy(d[..1]) == 5.4;
    assert d[..2][..1] == d[..1];
    assert Apy(d[..2]) == 8.4;
    assert d[..3] == d;
  }

  /** Two asset lists with the same yields and allocations have the same APY. */
  lemma {:induction false} ApySameWeights(a: seq<OracleAsset>, b: seq<OracleAsset>)
    requires |a| == |b|
    requires forall i :: 0 <= i < |a| ==> a[i].yieldPct == b[i].yieldPct && a[i].allocation == b[i].allocation
    ensures Apy(a) == Apy(b)
  {
    if a != [] {
      ApySameWeights(a[..|a| - 1], b[..|b| - 1]);
    }
  }

  /** The APY is a weighted average: with non-negative allocations and yields
      in [0, top], it lies between 0 and top times the total allocation / 100. */
  lemma {:induction false} ApyBounds(data: seq<OracleAsset>, top: real)
    requires forall i :: 0 <= i < |data| ==> data[i].allocation >= 0.0 && 0.0 <= data[i].yieldPct <= top
    ensures 0.0 <= Apy(data) <= top * TotalAllocation(data) / 100.0
  {
    if data != [] {
      var n := |data| - 1;
      ApyBounds(data[..n], top);
      var a := data[n];
      assert 0.0 <= a.yieldPct * a.allocation <= top * a.allocation by {
        MulMonotone(a.yieldPct, top, a.allocation);
      }
    }
  }

  lemma MulMonotone(x: real, y: real, k: real)
    requires 0.0 <= x <= y && k >= 0.0
    ensures 0.0 <= x * k <= y * k
  {
  }

  // ---------------------------------------------------------------------
  // Voting
  // ---------------------------------------------------------------------

  /** `proposals.find(p => p.id === id)`: the first proposal with that id. */
  function FindProposal(ps: seq<Proposal>, id: string): (o: Option<Proposal>)
    ensures o.None? <==> forall i :: 0 <= i < |ps| ==> ps[i].id != id
    ensures o.Some? ==> exists i :: 0 <= i < |ps| && ps[i] == o.value && ps[i].id == id
                                    && forall j :: 0 <= j < i ==> ps[j].id != id
  {
    if ps == [] then None
    else if ps[0].id == id then Some(ps[0])
    else
      var o := FindProposal(ps[1..], id);
      assert forall i :: 1 <= i < |ps| ==> ps[i] == ps[1..][i - 1];
      if o.Some? then
        ghost var k :| 0 <= k < |ps[1..]| && ps[1..][k] == o.value && ps[1..][k].id == id
                       && forall j :: 0 <= j < k ==> ps[1..][j].id != id;
        assert ps[k + 1] == o.value && forall j :: 0 <= j < k + 1 ==> ps[j].id != id;
        o
      else o
  }

  /** `proposal?.userVoted` is truthy. */
  predicate HasVoted(ps: seq<Proposal>, id: string) {
    var o := FindProposal(ps, id);
    o.Some? && o.value.userVoted == Some(true)
  }

  function CastVote(p: Proposal, support: bool, shares: real): Proposal {
    p.(votesFor := if support then p.votesFor + shares else p.votesFor,
       votesAgainst := if !support then p.votesAgainst + shares else p.votesAgainst,
       userVoted := Some(true))
  }

  /** The proposals after a vote: every proposal with the id gets the vote. */
  function ApplyVote(ps: seq<Proposal>, id: string, support: bool, shares: real): seq<Proposal> {
    seq(|ps|, i requires 0 <= i < |ps| => if ps[i].id == id then CastVote(ps[i], support, shares) else ps[i])
  }

  /** A vote adds the shares to exactly one tally of the targeted proposal,
      flags it as voted, and changes nothing else. */
  lemma VoteSpec(ps: seq<Proposal>, id: string, support: bool, shares: real)
    ensures var r := ApplyVote(ps, id, support, shares);
      && |r| == |ps|
      && (forall i :: 0 <= i < |ps| && ps[i].id != id ==> r[i] == ps[i])
      && (forall i :: 0 <= i < |ps| && ps[i].id == id ==>
            && r[i].votesFor == ps[i].votesFor + (if support then shares else 0.0)
            && r[i].votesAgainst == ps[i].votesAgainst + (if support then 0.0 else shares)
            && r[i].votesFor + r[i].votesAgainst == ps[i].votesFor + ps[i].votesAgainst + shares
            && r[i].userVoted == Some(true)
            && r[i] == ps[i].(votesFor := r[i].votesFor, votesAgainst := r[i].votesAgainst, userVoted := Some(true)))
  {
  }

  /** Once a vote on an existing proposal went through, the double-vote guard
      refuses the next one. */
  lemma VoteClosesProposal(ps: seq<Proposal>, id: string, support: bool, shares: real)
    requires exists i :: 0 <= i < |ps| && ps[i].id == id
    ensures HasVoted(ApplyVote(ps, id, support, shares), id)
  {
    var r := ApplyVote(ps, id, support, shares);
    var i :| 0 <= i < |ps| && ps[i].id == id;
    assert r[i].id == id;
    var o := FindProposal(r, id);
    var k :| 0 <= k < |r| && r[k] == o.value && r[k].id == id;
    assert r[k] == CastVote(ps[k], support, shares);
  }

  // ---------------------------------------------------------------------
  // Rebalance inputs and results
  // ---------------------------------------------------------------------

  datatype Column = AllocationColumn | PriceColumn | YieldColumn

  function ColumnOf(a: OracleAsset, c: Column): real {
    match c
    case AllocationColumn => a.allocation
    case PriceColumn => a.price
    case YieldColumn => a.yieldPct
  }

  /** `data.forEach(a => record[a.symbol] = column(a))` on an empty object. */
  function BuildRecord(data: seq<OracleAsset>, c: Column): Record<real> {
    if data == [] then []
    else
      var n := |data| - 1;
      Put(BuildRecord(data[..n], c), data[n].symbol, ColumnOf(data[n], c))
  }

  /** The record never holds a key twice, and has at most one entry per asset. */
  lemma {:induction false} BuildRecordShape(data: seq<OracleAsset>, c: Column)
    ensures DistinctKeys(BuildRecord(data, c)) && |BuildRecord(data, c)| <= |data|
  {
    if data != [] {
      var n := |data| - 1;
      BuildRecordShape(data[..n], c);
      PutSpec(BuildRecord(data[..n], c), data[n].symbol, ColumnOf(data[n], c));
    }
  }

  predicate DistinctSymbols(data: seq<OracleAsset>) {
    forall i, j :: 0 <= i < j < |data| ==> data[i].symbol != data[j].symbol
  }

  /** With distinct symbols the record lists every asset's value under its
      symbol, in the order of the assets. */
  lemma {:induction false} BuildRecordDistinct(data: seq<OracleAsset>, c: Column)
    requires DistinctSymbols(data)
    ensures |BuildRecord(data, c)| == |data|
    ensures forall i :: 0 <= i < |data| ==> BuildRecord(data, c)[i] == Entry(data[i].symbol, ColumnOf(data[i], c))
  {
    if data != [] {
      var n := |data| - 1;
      var p := data[..n];
      assert forall i :: 0 <= i < n ==> p[i] == data[i];
      assert DistinctSymbols(p);
      BuildRecordDistinct(p, c);
      var r := BuildRecord(p, c);
      var e := Entry(data[n].symbol, ColumnOf(data[n], c));
      assert forall i :: 0 <= i < |r| ==> r[i].key != e.key;
      PutAppends(r, e.key, e.value);
      BuildRecordLast(data, c);
      assert BuildRecord(data, c) == r + [e];
    }
  }

  lemma BuildRecordLast(data: seq<OracleAsset>, c: Column)
    requires data != []
    ensures BuildRecord(data, c) ==
      Put(BuildRecord(data[..|data| - 1], c), data[|data| - 1].symbol, ColumnOf(data[|data| - 1], c))
  {
  }

  /** Setting a key the record does not hold appends it. */
  lemma {:induction false} PutAppends(r: Record<real>, k: string, v: real)
    requires forall i :: 0 <= i < |r| ==> r[i].key != k
    ensures Put(r, k, v) == r + [Entry(k, v)]
  {
    if r != [] {
      var tail := r[1..];
      assert forall i :: 0 <= i < |tail| ==> tail[i].key != k by {
        forall i | 0 <= i < |tail|
          ensures tail[i].key != k
        {
          assert tail[i] == r[i + 1];
        }
      }
      PutAppends(tail, k, v);
      PutPastKey(r, k, v);
      ConsAppend(r[0], tail, Entry(k, v));
      assert r == [r[0]] + tail;
    }
  }

  /** Setting a key other than the first one's keeps the first entry. */
  lemma PutPastKey(r: Record<real>, k: string, v: real)
    requires r != [] && r[0].key != k
    ensures Put(r, k, v) == [r[0]] + Put(r[1..], k, v)
  {
  }

  lemma ConsAppend<T>(x: T, tail: seq<T>, e: T)
    ensures [x] + (tail + [e]) == ([x] + tail) + [e]
  {
  }

  /** `rebalanceEvent.newAllocations[asset.symbol] || asset.allocation`: a
      missing, NaN or zero value keeps the old allocation. */
  function NewAllocationOr(o: Option<Number>, current: real): real {
    match o
    case None => current
    case Some(n) => OrElse(n, current)
  }

  function ApplyAllocations(data: seq<OracleAsset>, allocations: Record<Number>): seq<OracleAsset> {
    seq(|data|, i requires 0 <= i < |data| =>
      data[i].(allocation := NewAllocationOr(Lookup(allocations, data[i].symbol), data[i].allocation)))
  }

  /** Applying a rebalance changes only allocations: an asset takes the new
      value stored under its symbol when that value is a non-zero number and
      keeps its old allocation otherwise. */
  lemma ApplyAllocationsSpec(data: seq<OracleAsset>, allocations: Record<Number>)
    ensures var r := ApplyAllocations(data, allocations);
      && |r| == |data|
      && (forall i :: 0 <= i < |data| ==> r[i] == data[i].(allocation := r[i].allocation))
      && (forall i :: 0 <= i < |data| ==>
            var o := Lookup(allocations, data[i].symbol);
            (o.Some? && o.value.Finite? && o.value.value != 0.0 ==> r[i].allocation == o.value.value)
            && (o.None? || o.value.NaN? || o.value == Finite(0.0) ==> r[i].allocation == data[i].allocation))
  {
  }

  /** The store's rebalance on assets with distinct symbols: asset `i` takes
      the `i`-th proposed allocation unless it is zero or NaN, in which case
      it keeps its old one. */
  lemma {:induction false} RebalanceAdoptsAllocations(data: seq<OracleAsset>, draws: seq<real>)
    requires DistinctSymbols(data) && |draws| >= |data|
    ensures |BuildRecord(data, YieldColumn)| == |data|
    ensures var alloc := Ledger.NewAllocations(BuildRecord(data, YieldColumn), draws);
      var r := ApplyAllocations(data, alloc);
      && |alloc| == |data|
      && (forall i :: 0 <= i < |data| ==> r[i].allocation == OrElse(alloc[i].value, data[i].allocation))
  {
    var ty := BuildRecord(data, YieldColumn);
    BuildRecordDistinct(data, YieldColumn);
    var alloc := Ledger.NewAllocations(ty, draws);
    Ledger.NewAllocationKeys(ty, draws);
    assert Keys(alloc) == Keys(ty);
    assert DistinctKeys(alloc) by {
      forall i, j | 0 <= i < j < |alloc|
        ensures alloc[i].key != alloc[j].key
      {
        assert Keys(alloc)[i] == ty[i].key && Keys(alloc)[j] == ty[j].key;
      }
    }
    forall i | 0 <= i < |data|
      ensures ApplyAllocations(data, alloc)[i].allocation == OrElse(alloc[i].value, data[i].allocation)
    {
      assert Keys(alloc)[i] == ty[i].key == data[i].symbol;
      LookupAt(alloc, i);
    }
  }

  lemma ApplyAllocationsKeepsPrices(data: seq<OracleAsset>, allocations: Record<Number>)
    requires PricesPositive(data)
    ensures PricesPositive(ApplyAllocations(data, allocations))
  {
    var r := ApplyAllocations(data, allocations);
    forall i | 0 <= i < |r|
      ensures r[i].price > 0.0
    {
      assert r[i].price == data[i].price;
    }
  }

  // ---------------------------------------------------------------------
  // Oracle ticks
  // ---------------------------------------------------------------------

  /** The subscriber's update of the asset whose symbol is the quote's asset
      id: new price, the percentage move added to `change24h`, and the
      quote's time, confidence and source. */
  function ApplyQuote(a: OracleAsset, q: Chain.OraclePrice): OracleAsset
    requires a.price != 0.0
  {
    a.(price := q.price,
       change24h := a.change24h + (q.price - a.price) / a.price * 100.0,
       lastUpdate := q.timestamp,
       confidence := Some(q.confidence),
       source := Some(q.source))
  }

  predicate PricesPositive(data: seq<OracleAsset>) {
    forall i :: 0 <= i < |data| ==> data[i].price > 0.0
  }

  function TickUpdate(data: seq<OracleAsset>, q: Chain.OraclePrice): seq<OracleAsset>
    requires PricesPositive(data)
  {
    seq(|data|, i requires 0 <= i < |data| => if data[i].symbol == q.assetId then ApplyQuote(data[i], q) else data[i])
  }

  /** A tick changes only the assets whose symbol is the quote's asset id,
      adds their percentage move to `change24h`, keeps every yield and
      allocation (hence the APY), and keeps prices positive. */
  lemma TickSpec(data: seq<OracleAsset>, q: Chain.OraclePrice)
    requires PricesPositive(data) && q.price > 0.0
    ensures var r := TickUpdate(data, q);
      && |r| == |data|
      && (forall i :: 0 <= i < |data| && data[i].symbol != q.assetId ==> r[i] == data[i])
      && (forall i :: 0 <= i < |data| && data[i].symbol == q.assetId ==>
            && r[i].price == q.price
            && r[i].change24h - data[i].change24h == (q.price - data[i].price) / data[i].price * 100.0
            && r[i] == data[i].(price := r[i].price, change24h := r[i].change24h, lastUpdate := q.timestamp,
                                confidence := Some(q.confidence), source := Some(q.source)))
      && Apy(r) == Apy(data)
      && PricesPositive(r)
  {
    ApySameWeights(TickUpdate(data, q), data);
  }

  /** `Math.max(...data.map(a => Math.abs(a.change24h)))`; the maximum of no
      values is -Infinity, written None. */
  function MaxAbsChange(data: seq<OracleAsset>): (m: Option<real>)
    ensures m.None? <==> data == []
    ensures m.Some? ==> (forall i :: 0 <= i < |data| ==> Abs(data[i].change24h) <= m.value)
                        && exists i :: 0 <= i < |data| && Abs(data[i].change24h) == m.value
  {
    if data == [] then None
    else
      var n := |data| - 1;
      var m := MaxAbsChange(data[..n]);
      assert forall i :: 0 <= i < n ==> data[..n][i] == data[i];
      if m.None? then Some(Abs(data[n].change24h))
      else Some(Max(m.value, Abs(data[n].change24h)))
  }

  predicate ExceedsThreshold(data: seq<OracleAsset>) {
    var m := MaxAbsChange(data);
    m.Some? && m.value > 5.0
  }

  /** The auto-rebalance threshold is met exactly when some asset moved by
      more than 5 percent either way. */
  lemma ThresholdSpec(data: seq<OracleAsset>)
    ensures ExceedsThreshold(data) <==> exists i :: 0 <= i < |data| && Abs(data[i].change24h) > 5.0
  {
    if exists i :: 0 <= i < |data| && Abs(data[i].change24h) > 5.0 {
      var i :| 0 <= i < |data| && Abs(data[i].change24h) > 5.0;
      assert MaxAbsChange(data).value >= Abs(data[i].change24h);
    }
  }

  // ---------------------------------------------------------------------
  // The store
  // ---------------------------------------------------------------------

  /** `!state.walletAddress`: null and the empty string are both falsy. */
  predicate Connected(address: Option<string>) {
    address.Some? && address.value != ""
  }

  function AddressOf(w: Option<Chain.Wallet>): Option<string> {
    if w.Some? then Some(w.value.address) else None
  }

  /** The subscriber the store registers with the oracle feed. */
  const OraclePriceHandler: Chain.Callback := Chain.Callback("store.onOraclePrice")

  const AutoRebalanceThreshold: real := 5.0

  class AppStore {
    const ledger: Ledger.SmartContractService
    const chain: Chain.QubicService
    var isConnected: bool
    var walletAddress: Option<string>
    var isDemoMode: bool
    var isAutoMode: bool
    var oracleData: seq<OracleAsset>
    var portfolio: Portfolio
    var proposals: seq<Proposal>
    var currentApy: real
    var totalTvl: real
    var rebalanceHistory: seq<Ledger.RebalanceEvent>
    var compoundHistory: seq<Ledger.CompoundEvent>
    var protocolMetrics: Metrics
    var notification: Option<Notification>

    /** The store mirrors the chain service's wallet, the ledger keeps its own
        invariants, and every price is positive (the tick divides by it). */
    ghost predicate Valid()
      reads this`isConnected, this`walletAddress, this`oracleData,
            ledger`currentShareValue, ledger`shares, ledger`totalSupply, chain`wallet
    {
      && ledger.Valid() && ledger.SupplyMatchesLots()
      && isConnected == walletAddress.Some?
      && walletAddress == AddressOf(chain.wallet)
      && (chain.wallet.Some? ==> Chain.IsQubicAddress(chain.wallet.value.address))
      && PricesPositive(oracleData)
    }

    constructor (now: int)
      ensures Valid() && fresh(ledger) && fresh(chain)
      ensures !isConnected && walletAddress == None && !isDemoMode && !isAutoMode
      ensures oracleData == InitialOracleData(now) && portfolio == InitialPortfolio
      ensures proposals == InitialProposals(now) && currentApy == 0.0 && totalTvl == 2847500.0
      ensures rebalanceHistory == [] && compoundHistory == []
      ensures protocolMetrics == InitialMetrics(now) && notification == None
      ensures chain.wallet == None && chain.transactions == [] && chain.oracleCallbacks == []
      ensures ledger.shares == map[] && ledger.totalSupply == 0.0
    {
      ledger := new Ledger.SmartContractService(now);
      chain := new Chain.QubicService();
      isConnected := false;
      walletAddress := None;
      isDemoMode := false;
      isAutoMode := false;
      oracleData := InitialOracleData(now);
      portfolio := InitialPortfolio;
      proposals := InitialProposals(now);
      currentApy := 0.0;
      totalTvl := 2847500.0;
      rebalanceHistory := [];
      compoundHistory := [];
      protocolMetrics := InitialMetrics(now);
      notification := None;
    }

    /** With the store valid, the wallet guard passes exactly when the chain
        service holds a wallet. */
    lemma ConnectedIffWallet()
      requires Valid()
      ensures Connected(walletAddress) <==> chain.wallet.Some?
    {
      if chain.wallet.Some? {
        assert |chain.wallet.value.address| == Chain.AddressLength;
      }
    }

    /** Connects a wallet, takes its balance into the portfolio, recomputes the
        APY and subscribes to the oracle feed. */
    method ConnectWallet(addressDraws: seq<real>)
      requires Valid() && |addressDraws| == Chain.AddressLength && AllDraws(addressDraws)
      modifies this`isConnected, this`walletAddress, this`portfolio, this`currentApy, this`notification,
               chain`wallet, chain`oracleCallbacks
      ensures Valid()
      ensures isConnected && walletAddress == Some(Chain.AddressFrom(addressDraws))
      ensures portfolio == old(portfolio).(qxBalance := Chain.StartingBalance)
      ensures currentApy == Apy(oracleData)
      ensures chain.oracleCallbacks == old(chain.oracleCallbacks) + [OraclePriceHandler]
      ensures notification == Some(Notification(WalletConnected, SuccessKind))
    {
      var wallet, feed := chain.ConnectWallet(addressDraws);
      isConnected := true;
      walletAddress := Some(wallet.address);
      portfolio := portfolio.(qxBalance := wallet.balance);
      currentApy := Apy(oracleData);
      notification := Some(Notification(WalletConnected, SuccessKind));
      StartOracleSubscription();
    }

    method StartOracleSubscription()
      modifies this`currentApy, chain`oracleCallbacks
      ensures currentApy == Apy(oracleData)
      ensures chain.oracleCallbacks == old(chain.oracleCallbacks) + [OraclePriceHandler]
    {
      currentApy := Apy(oracleData);
      chain.SubscribeToOracles(OraclePriceHandler);
    }

    method DisconnectWallet()
      requires Valid()
      modifies this`isConnected, this`walletAddress, this`portfolio, this`notification, chain`wallet
      ensures Valid()
      ensures !isConnected && walletAddress == None && chain.wallet == None
      ensures portfolio == InitialPortfolio
      ensures notification == Some(Notification(WalletDisconnected, InfoKind))
    {
      chain.DisconnectWallet();
      isConnected := false;
      walletAddress := None;
      portfolio := InitialPortfolio;
      notification := Some(Notification(WalletDisconnected, InfoKind));
    }

    /** Flips demo mode; the auto-compound timer it starts is not modelled. */
    method ToggleDemoMode()
      modifies this`isDemoMode, this`notification
      ensures isDemoMode == !old(isDemoMode)
      ensures notification == if isDemoMode then Some(Notification(DemoModeOn, InfoKind)) else old(notification)
    {
      isDemoMode := !isDemoMode;
      if isDemoMode {
        notification := Some(Notification(DemoModeOn, InfoKind));
      }
    }

    method ToggleAutoMode()
      modifies this`isAutoMode, this`notification
      ensures isAutoMode == !old(isAutoMode)
      ensures notification == Some(Notification(if isAutoMode then AutoModeOn else AutoModeOff, InfoKind))
    {
      isAutoMode := !isAutoMode;
      notification := Some(Notification(if isAutoMode then AutoModeOn else AutoModeOff, InfoKind));
    }

    method UpdateOracleData(data: seq<OracleAsset>)
      requires Valid() && PricesPositive(data)
      modifies this`oracleData
      ensures Valid() && oracleData == data
    {
      oracleData := data;
    }

    method ClearNotification()
      modifies this`notification
      ensures notification == None
    {
      notification := None;
    }

    /** Refreshes the protocol metrics from the ledger; `env` supplies the
        two random draws and the clock. */
    method UpdateMetrics(env: Env)
      modifies this`protocolMetrics, this`totalTvl
      ensures var tvl := ledger.GetTVL();
        var m := old(protocolMetrics);
        var h := ledger.rebalanceHistory;
        && protocolMetrics == Metrics(
             tvl,
             m.totalUsers + (if env.usersDraw > 0.7 then 1 else 0),
             m.dailyVolume + env.volumeDraw * 10000.0,
             m.protocolRevenue + tvl * 0.005 / 365.0,
             currentApy,
             |h|,
             if |h| > 0 then Some(h[|h| - 1].timestamp) else None,
             Some(env.now + HourMs))
        && totalTvl == tvl
    {
      var tvl := ledger.GetTVL();
      var h := ledger.rebalanceHistory;
      var m := protocolMetrics;
      protocolMetrics := Metrics(
        tvl,
        m.totalUsers + (if env.usersDraw > 0.7 then 1 else 0),
        m.dailyVolume + env.volumeDraw * 10000.0,
        m.protocolRevenue + tvl * 0.005 / 365.0,
        currentApy,
        |h|,
        if |h| > 0 then Some(h[|h| - 1].timestamp) else None,
        Some(env.now + HourMs));
      totalTvl := tvl;
    }

    /** Deposits QX through the ledger and books the minted shares in the
        portfolio. */
    method Deposit(amount: real, env: Env)
      requires Valid()
      modifies this`portfolio, this`totalTvl, this`notification, this`protocolMetrics,
               ledger`shares, ledger`totalSupply, chain`transactions
      ensures Valid()
      ensures !Connected(old(walletAddress)) ==>
        && notification == Some(Notification(ConnectWalletFirst, ErrorKind))
        && portfolio == old(portfolio) && totalTvl == old(totalTvl)
        && ledger.shares == old(ledger.shares) && chain.transactions == old(chain.transactions)
      ensures Connected(old(walletAddress)) && amount < Ledger.MinDeposit ==>
        && notification == Some(Notification(Failed(InvalidAmount), ErrorKind))
        && portfolio == old(portfolio) && totalTvl == old(totalTvl)
        && ledger.shares == old(ledger.shares) && chain.transactions == old(chain.transactions)
      ensures Connected(old(walletAddress)) && amount >= Ledger.MinDeposit ==>
        var value := ledger.currentShareValue;
        var minted := amount / value;
        var p := old(portfolio);
        && portfolio == p.(qxBalance := p.qxBalance - amount,
                           sharesOwned := p.sharesOwned + minted,
                           totalValue := (p.sharesOwned + minted) * value,
                           deposits := p.deposits + [amount],
                           shareValue := value)
        && ledger.Balance(walletAddress.value) == old(ledger.Balance(walletAddress.value)) + minted
        && totalTvl == ledger.GetTVL()
        && notification == Some(Notification(Deposited(amount), SuccessKind))
    {
      if !Connected(walletAddress) {
        notification := Some(Notification(ConnectWalletFirst, ErrorKind));
        return;
      }
      ConnectedIffWallet();
      var r := ledger.Deposit(amount, walletAddress.value, chain, env);
      if r.Failure? {
        notification := Some(Notification(Failed(r.error), ErrorKind));
        return;
      }
      BookDeposit(amount, r.value.amount, env);
    }

    /** The store's side of a successful deposit: the portfolio takes the
        minted shares at the ledger's share value, and the TVL is refreshed
        (`updateMetrics` overwrites the `+ amount` the store adds first). */
    method BookDeposit(amount: real, sharesToMint: real, env: Env)
      modifies this`portfolio, this`totalTvl, this`notification, this`protocolMetrics
      ensures var value := ledger.currentShareValue; var p := old(portfolio);
        portfolio == p.(qxBalance := p.qxBalance - amount,
                        sharesOwned := p.sharesOwned + sharesToMint,
                        totalValue := (p.sharesOwned + sharesToMint) * value,
                        deposits := p.deposits + [amount],
                        shareValue := value)
      ensures totalTvl == ledger.GetTVL()
      ensures notification == Some(Notification(Deposited(amount), SuccessKind))
    {
      var value := ledger.currentShareValue;
      portfolio := portfolio.(qxBalance := portfolio.qxBalance - amount,
                              sharesOwned := portfolio.sharesOwned + sharesToMint,
                              totalValue := (portfolio.sharesOwned + sharesToMint) * value,
                              deposits := portfolio.deposits + [amount],
                              shareValue := value);
      totalTvl := totalTvl + amount;
      notification := Some(Notification(Deposited(amount), SuccessKind));
      UpdateMetrics(env);
    }

    /** Redeems shares through the ledger after the store's own guards. */
    method Withdraw(shares: real, env: Env)
      requires Valid()
      modifies this`portfolio, this`totalTvl, this`notification, this`protocolMetrics,
               ledger`shares, ledger`totalSupply, chain`transactions
      ensures Valid()
      ensures !Connected(old(walletAddress)) ==>
        && notification == Some(Notification(ConnectWalletFirst, ErrorKind))
        && portfolio == old(portfolio) && ledger.shares == old(ledger.shares)
        && chain.transactions == old(chain.transactions)
      ensures Connected(old(walletAddress)) && (shares <= 0.0 || shares > old(portfolio.sharesOwned)) ==>
        && notification == Some(Notification(InvalidWithdrawal, ErrorKind))
        && portfolio == old(portfolio) && ledger.shares == old(ledger.shares)
        && chain.transactions == old(chain.transactions)
      ensures Connected(old(walletAddress)) && 0.0 < shares <= old(portfolio.sharesOwned)
              && old(ledger.Balance(walletAddress.value)) < shares ==>
        && notification == Some(Notification(Failed(InsufficientShares), ErrorKind))
        && portfolio == old(portfolio) && ledger.shares == old(ledger.shares)
      ensures Connected(old(walletAddress)) && 0.0 < shares <= old(portfolio.sharesOwned)
              && old(ledger.Balance(walletAddress.value)) >= shares ==>
        var value := ledger.currentShareValue;
        var qx := shares * value;
        var p := old(portfolio);
        && portfolio == p.(qxBalance := p.qxBalance + qx,
                           sharesOwned := p.sharesOwned - shares,
                           totalValue := (p.sharesOwned - shares) * value,
                           shareValue := value)
        && ledger.Balance(walletAddress.value) == old(ledger.Balance(walletAddress.value)) - shares
        && totalTvl == ledger.GetTVL()
        && notification == Some(Notification(Withdrew(qx), SuccessKind))
    {
      if !Connected(walletAddress) {
        notification := Some(Notification(ConnectWalletFirst, ErrorKind));
        return;
      }
      if shares <= 0.0 || shares > portfolio.sharesOwned {
        notification := Some(Notification(InvalidWithdrawal, ErrorKind));
        return;
      }
      ConnectedIffWallet();
      var r := ledger.Withdraw(shares, walletAddress.value, chain, env);
      if r.Failure? {
        notification := Some(Notification(Failed(r.error), ErrorKind));
        return;
      }
      BookWithdrawal(shares, r.value, env);
    }

    /** The store's side of a successful withdrawal: the portfolio gives up
        the shares and takes the QX paid out, and the TVL is refreshed
        (`updateMetrics` overwrites the clamped subtraction). */
    method BookWithdrawal(shares: real, qxAmount: real, env: Env)
      modifies this`portfolio, this`totalTvl, this`notification, this`protocolMetrics
      ensures var value := ledger.currentShareValue; var p := old(portfolio);
        portfolio == p.(qxBalance := p.qxBalance + qxAmount,
                        sharesOwned := p.sharesOwned - shares,
                        totalValue := (p.sharesOwned - shares) * value,
                        shareValue := value)
      ensures totalTvl == ledger.GetTVL()
      ensures notification == Some(Notification(Withdrew(qxAmount), SuccessKind))
    {
      var newSharesOwned := portfolio.sharesOwned - shares;
      var value := ledger.currentShareValue;
      portfolio := portfolio.(qxBalance := portfolio.qxBalance + qxAmount,
                              sharesOwned := newSharesOwned,
                              totalValue := newSharesOwned * value,
                              shareValue := value);
      totalTvl := Max(0.0, totalTvl - qxAmount);
      notification := Some(Notification(Withdrew(qxAmount), SuccessKind));
      UpdateMetrics(env);
    }

    /** Casts the portfolio's shares for or against one proposal. */
    method Vote(proposalId: string, support: bool)
      modifies this`proposals, this`notification
      ensures portfolio.sharesOwned <= 0.0 ==>
        proposals == old(proposals) && notification == Some(Notification(NeedShares, ErrorKind))
      ensures portfolio.sharesOwned > 0.0 && HasVoted(old(proposals), proposalId) ==>
        proposals == old(proposals) && notification == Some(Notification(AlreadyVoted, ErrorKind))
      ensures portfolio.sharesOwned > 0.0 && !HasVoted(old(proposals), proposalId) ==>
        && proposals == ApplyVote(old(proposals), proposalId, support, portfolio.sharesOwned)
        && notification == Some(Notification(VoteCast(portfolio.sharesOwned), SuccessKind))
    {
      var shares := portfolio.sharesOwned;
      if shares <= 0.0 {
        notification := Some(Notification(NeedShares, ErrorKind));
        return;
      }
      var proposal := FindProposal(proposals, proposalId);
      if proposal.Some? && proposal.value.userVoted == Some(true) {
        notification := Some(Notification(AlreadyVoted, ErrorKind));
        return;
      }
      proposals := ApplyVote(proposals, proposalId, support, shares);
      notification := Some(Notification(VoteCast(shares), SuccessKind));
    }

    /** Runs the ledger's rebalance on the current assets and adopts the
        proposed allocations. The ledger records its event even when the
        contract call then fails for want of a wallet. */
    method Rebalance(env: Env)
      requires Valid() && |env.draws| >= |oracleData|
      modifies this`oracleData, this`rebalanceHistory, this`currentApy, this`notification,
               this`protocolMetrics, this`totalTvl, ledger`rebalanceHistory, ledger`lastRebalance,
               chain`transactions
      ensures Valid()
      ensures |BuildRecord(old(oracleData), YieldColumn)| <= |env.draws|
      ensures ledger.rebalanceHistory == old(ledger.rebalanceHistory) +
        [Ledger.RebalanceEventOf(env, BuildRecord(old(oracleData), AllocationColumn), BuildRecord(old(oracleData), YieldColumn))]
      ensures old(chain.wallet).None? ==>
        && oracleData == old(oracleData) && rebalanceHistory == old(rebalanceHistory)
        && currentApy == old(currentApy)
        && notification == Some(Notification(Failed(WalletNotConnected), ErrorKind))
      ensures old(chain.wallet).Some? ==>
        var ev := ledger.rebalanceHistory[|ledger.rebalanceHistory| - 1];
        && oracleData == ApplyAllocations(old(oracleData), ev.newAllocations)
        && rebalanceHistory == old(rebalanceHistory) + [ev]
        && currentApy == Apy(oracleData)
        && totalTvl == ledger.GetTVL()
        && notification == Some(Notification(Rebalanced, SuccessKind))
    {
      var r := LedgerRebalance(env);
      if r.Failure? {
        notification := Some(Notification(Failed(r.error), ErrorKind));
        return;
      }
      AdoptRebalance(r.value, env);
    }

    /** The ledger's half of a rebalance: the allocation, price and yield
        records built from the assets are handed to the ledger. */
    method LedgerRebalance(env: Env) returns (r: Result<Ledger.RebalanceEvent>)
      requires Valid() && |env.draws| >= |oracleData|
      modifies ledger`rebalanceHistory, ledger`lastRebalance, chain`transactions
      ensures Valid()
      ensures |BuildRecord(oracleData, YieldColumn)| <= |env.draws|
      ensures var ev := Ledger.RebalanceEventOf(env, BuildRecord(oracleData, AllocationColumn), BuildRecord(oracleData, YieldColumn));
        && ledger.rebalanceHistory == old(ledger.rebalanceHistory) + [ev]
        && (old(chain.wallet).Some? ==> r == Success(ev))
        && (old(chain.wallet).None? ==> r == Failure(WalletNotConnected))
    {
      var currentAllocations := BuildRecord(oracleData, AllocationColumn);
      var oraclePrices := BuildRecord(oracleData, PriceColumn);
      var targetYields := BuildRecord(oracleData, YieldColumn);
      BuildRecordShape(oracleData, YieldColumn);
      r := ledger.Rebalance(currentAllocations, oraclePrices, targetYields, chain, env);
    }

    /** The store's half of a successful rebalance: every asset takes its
        proposed allocation (`||` keeps the old one for zero or NaN), the
        event joins the history and the APY is recomputed. */
    method AdoptRebalance(event: Ledger.RebalanceEvent, env: Env)
      requires Valid()
      modifies this`oracleData, this`rebalanceHistory, this`currentApy, this`notification,
               this`protocolMetrics, this`totalTvl
      ensures Valid()
      ensures oracleData == ApplyAllocations(old(oracleData), event.newAllocations)
      ensures rebalanceHistory == old(rebalanceHistory) + [event]
      ensures currentApy == Apy(oracleData)
      ensures totalTvl == ledger.GetTVL()
      ensures notification == Some(Notification(Rebalanced, SuccessKind))
    {
      ApplyAllocationsKeepsPrices(oracleData, event.newAllocations);
      oracleData := ApplyAllocations(oracleData, event.newAllocations);
      rebalanceHistory := rebalanceHistory + [event];
      currentApy := Apy(oracleData);
      notification := Some(Notification(Rebalanced, SuccessKind));
      UpdateMetrics(env);
    }

    /** Compounds one day of yield at the current APY and books it in the
        portfolio. */
    method Compound(env: Env)
      requires Valid() && currentApy > -36500.0
      modifies this`portfolio, this`compoundHistory, this`notification, this`protocolMetrics, this`totalTvl,
               ledger`currentShareValue, ledger`compoundHistory, ledger`lastCompound, chain`transactions
      ensures Valid()
      ensures ((env.now - old(ledger.lastCompound)) as real) / 1000.0 < Ledger.CompoundInterval ==>
        && portfolio == old(portfolio) && compoundHistory == old(compoundHistory)
        && ledger.currentShareValue == old(ledger.currentShareValue)
        && notification == Some(Notification(Failed(IntervalNotElapsed), ErrorKind))
      ensures ((env.now - old(ledger.lastCompound)) as real) / 1000.0 >= Ledger.CompoundInterval ==>
        && ledger.currentShareValue == old(ledger.currentShareValue) * Ledger.CompoundFactor(old(currentApy))
        && |ledger.compoundHistory| == |old(ledger.compoundHistory)| + 1
      ensures ((env.now - old(ledger.lastCompound)) as real) / 1000.0 >= Ledger.CompoundInterval
              && old(chain.wallet).None? ==>
        && portfolio == old(portfolio) && compoundHistory == old(compoundHistory)
        && notification == Some(Notification(Failed(WalletNotConnected), ErrorKind))
      ensures ((env.now - old(ledger.lastCompound)) as real) / 1000.0 >= Ledger.CompoundInterval
              && old(chain.wallet).Some? ==>
        var ev := ledger.compoundHistory[|ledger.compoundHistory| - 1];
        var p := old(portfolio);
        && ev.newShareValue == ledger.currentShareValue
        && portfolio == p.(shareValue := ev.newShareValue,
                           totalValue := p.sharesOwned * ev.newShareValue,
                           compoundHistory := p.compoundHistory + [Harvest(ev.timestamp, ev.amount, ev.apy)],
                           totalEarned := p.totalEarned + ev.amount,
                           lastHarvest := Some(env.now))
        && compoundHistory == old(compoundHistory) + [ev]
        && notification == Some(Notification(Compounded(ev.amount), SuccessKind))
    {
      var r := ledger.Compound(currentApy, chain, env);
      if r.Failure? {
        notification := Some(Notification(Failed(r.error), ErrorKind));
        return;
      }
      var event := r.value;
      portfolio := portfolio.(shareValue := event.newShareValue,
                              totalValue := portfolio.sharesOwned * event.newShareValue,
                              compoundHistory := portfolio.compoundHistory + [Harvest(event.timestamp, event.amount, event.apy)],
                              totalEarned := portfolio.totalEarned + event.amount,
                              lastHarvest := Some(env.now));
      compoundHistory := compoundHistory + [event];
      notification := Some(Notification(Compounded(event.amount), SuccessKind));
      UpdateMetrics(env);
    }

    /** Credits the testnet faucet's QX to the portfolio. */
    method RequestFaucet(env: Env)
      requires Valid()
      modifies this`portfolio, this`notification, chain`wallet, chain`transactions
      ensures Valid()
      ensures old(chain.wallet).None? ==>
        && portfolio == old(portfolio) && notification == Some(Notification(FaucetFailed, ErrorKind))
        && chain.wallet == old(chain.wallet) && chain.transactions == old(chain.transactions)
      ensures old(chain.wallet).Some? ==>
        var w := old(chain.wallet).value;
        && portfolio == old(portfolio).(qxBalance := old(portfolio.qxBalance) + Chain.FaucetAmount)
        && chain.wallet == Some(w.(balance := w.balance + Chain.FaucetAmount))
        && chain.transactions == old(chain.transactions) + [Chain.FaucetTx(w.address, env)]
        && notification == Some(Notification(FaucetReceived(Chain.FaucetAmount), SuccessKind))
    {
      var r := chain.RequestFaucet(env);
      if r.Failure? {
        notification := Some(Notification(FaucetFailed, ErrorKind));
        return;
      }
      portfolio := portfolio.(qxBalance := portfolio.qxBalance + r.value);
      notification := Some(Notification(FaucetReceived(r.value), SuccessKind));
    }

    /** The oracle subscriber: applies one quote, recomputes the APY and, in
        auto mode, rebalances once some asset has moved by more than 5%. */
    method OnOraclePrice(quote: Chain.OraclePrice, env: Env)
      requires Valid() && quote.price > 0.0 && |env.draws| >= |oracleData|
      modifies this`oracleData, this`currentApy, this`rebalanceHistory, this`notification,
               this`protocolMetrics, this`totalTvl, ledger`rebalanceHistory, ledger`lastRebalance,
               chain`transactions
      ensures Valid()
      ensures currentApy == Apy(oracleData)
      ensures !(old(isAutoMode) && ExceedsThreshold(TickUpdate(old(oracleData), quote))) ==>
        && oracleData == TickUpdate(old(oracleData), quote)
        && currentApy == Apy(old(oracleData))
        && rebalanceHistory == old(rebalanceHistory)
        && ledger.rebalanceHistory == old(ledger.rebalanceHistory)
      ensures |BuildRecord(TickUpdate(old(oracleData), quote), YieldColumn)| <= |env.draws|
      ensures old(isAutoMode) && ExceedsThreshold(TickUpdate(old(oracleData), quote)) ==>
        var ticked := TickUpdate(old(oracleData), quote);
        && ledger.rebalanceHistory == old(ledger.rebalanceHistory) +
             [Ledger.RebalanceEventOf(env, BuildRecord(ticked, AllocationColumn), BuildRecord(ticked, YieldColumn))]
        && (old(chain.wallet).None? ==>
              && oracleData == ticked && rebalanceHistory == old(rebalanceHistory)
              && notification == Some(Notification(Failed(WalletNotConnected), ErrorKind)))
        && (old(chain.wallet).Some? ==>
              var ev := ledger.rebalanceHistory[|ledger.rebalanceHistory| - 1];
              && oracleData == ApplyAllocations(ticked, ev.newAllocations)
              && rebalanceHistory == old(rebalanceHistory) + [ev]
              && notification == Some(Notification(Rebalanced, SuccessKind)))
    {
      var updated := TickUpdate(oracleData, quote);
      TickSpec(oracleData, quote);
      BuildRecordShape(updated, YieldColumn);
      var autoMode := isAutoMode;
      oracleData := updated;
      currentApy := Apy(updated);
      if autoMode && ExceedsThreshold(updated) {
        Rebalance(env);
      }
    }
  }
}
