/** The mock Qubic testnet service: a wallet that connects and disconnects,
    a testnet faucet, an append-only transaction log, a table of gas fees,
    and the random-walk oracle price feed that pushes quotes to subscribers.
    Delays (`await` on a timer) are treated as atomic; every Math.random()
    draw and clock reading is a parameter. */
module Chain {
  import opened Common

  datatype Network = Testnet | Mainnet

  datatype Wallet = Wallet(address: string, balance: real, network: Network, isConnected: bool)

  datatype TxType = DepositTx | WithdrawTx | RebalanceTx | CompoundTx

  datatype TxStatus = Pending | Confirmed | FailedTx

  datatype Transaction = Transaction(
    id: string,
    from: string,
    to: string,
    amount: real,
    txType: TxType,
    timestamp: int,
    status: TxStatus,
    gasUsed: Option<int>,
    blockNumber: Option<int>)

  datatype OraclePrice = OraclePrice(assetId: string, price: real, timestamp: int, source: string, confidence: real)

  /** One entry of the feed's asset table; `basePrice` is overwritten on every tick. */
  datatype FeedAsset = FeedAsset(id: string, basePrice: real, volatility: real)

  /** A registered subscriber, identified by name. */
  datatype Callback = Callback(name: string)

  /** One call of a subscriber with one quote. */
  datatype Delivery = Delivery(callback: Callback, quote: OraclePrice)

  const StartingBalance: real := 10000.0
  const FaucetAmount: real := 1000.0
  const AddressLength: nat := 60
  const Alphabet: string := "ABCDEFGHIJKLMNOPQRSTUVWXYZ"
  const FaucetAddress: string := "QUBIC_TESTNET_FAUCET"
  const ContractAddress: string := "YIELDFORGE_CONTRACT_ADDRESS"
  const MinOraclePrice: real := 0.01

  /** The asset table a freshly started feed walks from. */
  function InitialFeed(): seq<FeedAsset> {
    [FeedAsset("REI", 2847.50, 0.02), FeedAsset("XAU", 2024.30, 0.015), FeedAsset("USD/TRY", 32.45, 0.025)]
  }

  /** `chars.charAt(Math.floor(d * chars.length))`. */
  function Letter(d: real): (c: char)
    requires IsDraw(d)
    ensures 'A' <= c <= 'Z'
  {
    var k := (d * 26.0).Floor;
    assert 0 <= k < 26;
    Alphabet[k]
  }

  /** The address the 60 draws of the generator spell out. */
  function AddressFrom(draws: seq<real>): seq<char>
    requires AllDraws(draws)
  {
    seq(|draws|, i requires 0 <= i < |draws| => Letter(draws[i]))
  }

  predicate IsQubicAddress(a: string) {
    |a| == AddressLength && forall i :: 0 <= i < |a| ==> 'A' <= a[i] <= 'Z'
  }

  /** `Math.floor(d * 1000) + 100` */
  function GasUsed(d: real): int { (d * 1000.0).Floor + 100 }

  /** `Math.floor(d * 1000000) + 1000000` */
  function BlockNumber(d: real): int { (d * 1000000.0).Floor + 1000000 }

  /** Base fees in QX per transaction type. */
  function CalculateGasFee(t: TxType): (fee: real)
    ensures fee > 0.0
    ensures t == DepositTx ==> fee == 0.1
    ensures t == WithdrawTx ==> fee == 0.15
    ensures t == RebalanceTx ==> fee == 0.05
    ensures t == CompoundTx ==> fee == 0.03
  {
    match t
    case DepositTx => 0.1
    case WithdrawTx => 0.15
    case RebalanceTx => 0.05
    case CompoundTx => 0.03
  }

  /** `contractAddress || 'YIELDFORGE_CONTRACT_ADDRESS'`: a missing or empty
      address falls back to the contract. */
  function Destination(contractAddress: Option<string>): string {
    if contractAddress.Some? && contractAddress.value != "" then contractAddress.value else ContractAddress
  }

  /** Whatever address a caller passes, a logged contract call always has a
      non-empty destination, and a non-empty address is used as given. */
  lemma DestinationNonEmpty(contractAddress: Option<string>)
    ensures Destination(contractAddress) != ""
    ensures contractAddress.Some? ==>
      (contractAddress.value != "" <==> Destination(contractAddress) == contractAddress.value)
  {
    if contractAddress.Some? && contractAddress.value == "" {
      assert |ContractAddress| > 0;
    }
  }

  /** The pending contract call `executeTransaction` logs: from the wallet,
      to the resolved destination, stamped with the simulated gas and no
      block yet. */
  function PendingTx(from: string, to: string, txType: TxType, amount: real, env: Env): Transaction {
    Transaction(env.txId, from, to, amount, txType, env.now, Pending, Some(GasUsed(env.gasDraw)), None)
  }

  /** The confirmed faucet transfer of 1000 QX to `address`. */
  function FaucetTx(address: string, env: Env): Transaction {
    Transaction(env.txId, FaucetAddress, address, FaucetAmount, DepositTx, env.now,
                Confirmed, None, Some(BlockNumber(env.blockDraw)))
  }

  // ---------------------------------------------------------------------
  // The oracle feed tick
  // ---------------------------------------------------------------------

  /** The random step `(d - 0.5) * volatility * basePrice`. */
  function PriceStep(a: FeedAsset, stepDraw: real): real {
    (stepDraw - 0.5) * a.volatility * a.basePrice
  }

  /** The quote one tick publishes for one asset. */
  function Quote(a: FeedAsset, stepDraw: real, nodeDraw: real, confidenceDraw: real, now: int): OraclePrice
    requires IsDraw(nodeDraw)
  {
    OraclePrice(
      a.id,
      Max(MinOraclePrice, a.basePrice + PriceStep(a, stepDraw)),
      now,
      "QUBIC_ORACLE_NODE_" + DecimalString((nodeDraw * 47.0 + 1.0).Floor),
      0.95 + confidenceDraw * 0.05)
  }

  lemma QuoteBounds(a: FeedAsset, stepDraw: real, nodeDraw: real, confidenceDraw: real, now: int)
    requires IsDraw(stepDraw) && IsDraw(nodeDraw) && IsDraw(confidenceDraw)
    requires a.volatility >= 0.0 && a.basePrice >= 0.0
    ensures var q := Quote(a, stepDraw, nodeDraw, confidenceDraw, now);
      && q.assetId == a.id
      && q.price >= MinOraclePrice
      && Abs(PriceStep(a, stepDraw)) <= a.volatility * a.basePrice / 2.0
      && (a.basePrice + PriceStep(a, stepDraw) >= MinOraclePrice ==> q.price == a.basePrice + PriceStep(a, stepDraw))
      && 0.95 <= q.confidence < 1.0
  {
    var vb := a.volatility * a.basePrice;
    assert vb >= 0.0;
    assert PriceStep(a, stepDraw) == (stepDraw - 0.5) * vb;
    assert -0.5 <= stepDraw - 0.5 < 0.5;
    if stepDraw >= 0.5 {
      assert (0.5 - (stepDraw - 0.5)) * vb >= 0.0;
      assert (stepDraw - 0.5) * vb <= 0.5 * vb;
    } else {
      assert stepDraw * vb >= 0.0;
      assert (0.5 - stepDraw) * vb <= 0.5 * vb;
    }
  }

  /** One quote delivered to each subscriber, in subscription order. */
  function Broadcast(callbacks: seq<Callback>, q: OraclePrice): seq<Delivery> {
    seq(|callbacks|, j requires 0 <= j < |callbacks| => Delivery(callbacks[j], q))
  }

  /** The asset table after one tick. */
  function TickedFeed(assets: seq<FeedAsset>, stepDraws: seq<real>): seq<FeedAsset>
    requires |stepDraws| >= |assets|
  {
    seq(|assets|, k requires 0 <= k < |assets| =>
      assets[k].(basePrice := Max(MinOraclePrice, assets[k].basePrice + PriceStep(assets[k], stepDraws[k]))))
  }

  /** All subscriber calls of one tick, asset by asset. */
  function TickDeliveries(assets: seq<FeedAsset>, stepDraws: seq<real>, nodeDraws: seq<real>,
                          confidenceDraws: seq<real>, callbacks: seq<Callback>, now: int): seq<Delivery>
    requires |stepDraws| >= |assets| && |nodeDraws| >= |assets| && |confidenceDraws| >= |assets|
    requires AllDraws(nodeDraws)
  {
    if assets == [] then []
    else
      var n := |assets| - 1;
      TickDeliveries(assets[..n], stepDraws, nodeDraws, confidenceDraws, callbacks, now)
        + Broadcast(callbacks, Quote(assets[n], stepDraws[n], nodeDraws[n], confidenceDraws[n], now))
  }

  /** Each of the |assets| * |callbacks| calls of a tick delivers asset k's
      quote to subscriber j at position k * |callbacks| + j. */
  lemma {:induction false} TickDeliveriesAt(assets: seq<FeedAsset>, stepDraws: seq<real>, nodeDraws: seq<real>,
                                            confidenceDraws: seq<real>, callbacks: seq<Callback>, now: int, k: nat, j: nat)
    requires |stepDraws| >= |assets| && |nodeDraws| >= |assets| && |confidenceDraws| >= |assets|
    requires AllDraws(nodeDraws)
    requires k < |assets| && j < |callbacks|
    ensures |TickDeliveries(assets, stepDraws, nodeDraws, confidenceDraws, callbacks, now)| == |assets| * |callbacks|
    ensures k * |callbacks| + j < |assets| * |callbacks|
    ensures TickDeliveries(assets, stepDraws, nodeDraws, confidenceDraws, callbacks, now)[k * |callbacks| + j]
         == Delivery(callbacks[j], Quote(assets[k], stepDraws[k], nodeDraws[k], confidenceDraws[k], now))
  {
    var n := |assets| - 1;
    var c := |callbacks|;
    var prefix := assets[..n];
    TickDeliveriesLength(prefix, stepDraws, nodeDraws, confidenceDraws, callbacks, now);
    assert (n + 1) * c == n * c + c;
    if k < n {
      TickDeliveriesAt(prefix, stepDraws, nodeDraws, confidenceDraws, callbacks, now, k, j);
      assert prefix[k] == assets[k];
      assert k * c + j < n * c;
    } else {
      assert k * c + j == n * c + j;
    }
  }

  lemma {:induction false} TickDeliveriesLength(assets: seq<FeedAsset>, stepDraws: seq<real>, nodeDraws: seq<real>,
                                                confidenceDraws: seq<real>, callbacks: seq<Callback>, now: int)
    requires |stepDraws| >= |assets| && |nodeDraws| >= |assets| && |confidenceDraws| >= |assets|
    requires AllDraws(nodeDraws)
    ensures |TickDeliveries(assets, stepDraws, nodeDraws, confidenceDraws, callbacks, now)| == |assets| * |callbacks|
  {
    if assets != [] {
      var n := |assets| - 1;
      TickDeliveriesLength(assets[..n], stepDraws, nodeDraws, confidenceDraws, callbacks, now);
      assert (n + 1) * |callbacks| == n * |callbacks| + |callbacks|;
    }
  }

  /** The service object: the connected wallet, the transaction log and the
      registered oracle subscribers. */
  class QubicService {
    var wallet: Option<Wallet>
    var transactions: seq<Transaction>
    var oracleCallbacks: seq<Callback>

    constructor ()
      ensures wallet == None && transactions == [] && oracleCallbacks == []
    {
      wallet := None;
      transactions := [];
      oracleCallbacks := [];
    }

    /** The 60-letter address built one random letter at a time. */
    method GenerateQubicAddress(draws: seq<real>) returns (address: string)
      requires |draws| == AddressLength && AllDraws(draws)
      ensures IsQubicAddress(address)
      ensures address == AddressFrom(draws)
    {
      address := "";
      var i := 0;
      while i < AddressLength
        invariant 0 <= i <= AddressLength
        invariant address == AddressFrom(draws[..i])
      {
        address := address + [Letter(draws[i])];
        i := i + 1;
      }
      assert draws[..AddressLength] == draws;
    }

    /** Connects a fresh testnet wallet and starts a new oracle feed, whose
        asset table is returned (the feed's interval ticks over it). */
    method ConnectWallet(addressDraws: seq<real>) returns (w: Wallet, feed: array<FeedAsset>)
      requires |addressDraws| == AddressLength && AllDraws(addressDraws)
      modifies this`wallet
      ensures wallet == Some(w)
      ensures w.balance == StartingBalance && w.network == Testnet && w.isConnected
      ensures IsQubicAddress(w.address) && w.address == AddressFrom(addressDraws)
      ensures fresh(feed) && feed[..] == InitialFeed()
    {
      var address := GenerateQubicAddress(addressDraws);
      w := Wallet(address, StartingBalance, Testnet, true);
      wallet := Some(w);
      feed := new FeedAsset[3];
      feed[0], feed[1], feed[2] := InitialFeed()[0], InitialFeed()[1], InitialFeed()[2];
    }

    method DisconnectWallet()
      modifies this`wallet
      ensures wallet == None
    {
      wallet := None;
    }

    /** Credits 1000 QX to the connected wallet and logs one confirmed
        transfer from the faucet. */
    method RequestFaucet(env: Env) returns (r: Result<real>)
      modifies this`wallet, this`transactions
      ensures old(wallet).None? ==> r == Failure(WalletNotConnected) && wallet == old(wallet) && transactions == old(transactions)
      ensures old(wallet).Some? ==>
        && r == Success(FaucetAmount)
        && wallet == Some(old(wallet).value.(balance := old(wallet).value.balance + FaucetAmount))
        && transactions == old(transactions) + [FaucetTx(old(wallet).value.address, env)]
    {
      if wallet.None? {
        return Failure(WalletNotConnected);
      }
      var w := wallet.value;
      wallet := Some(w.(balance := w.balance + FaucetAmount));
      var tx := FaucetTx(w.address, env);
      transactions := transactions + [tx];
      r := Success(FaucetAmount);
    }

    /** Logs one pending contract call from the connected wallet. The delayed
        confirmation is not part of this model. */
    method ExecuteTransaction(txType: TxType, amount: real, contractAddress: Option<string>, env: Env)
      returns (r: Result<Transaction>)
      modifies this`transactions
      ensures old(wallet).None? ==> r == Failure(WalletNotConnected) && transactions == old(transactions)
      ensures old(wallet).Some? ==>
        && r.Success?
        && r.value == PendingTx(old(wallet).value.address, Destination(contractAddress), txType, amount, env)
        && transactions == old(transactions) + [r.value]
    {
      if wallet.None? {
        return Failure(WalletNotConnected);
      }
      var tx := PendingTx(wallet.value.address, Destination(contractAddress), txType, amount, env);
      transactions := transactions + [tx];
      r := Success(tx);
    }

    method SubscribeToOracles(callback: Callback)
      modifies this`oracleCallbacks
      ensures oracleCallbacks == old(oracleCallbacks) + [callback]
    {
      oracleCallbacks := oracleCallbacks + [callback];
    }

    /** One tick of the feed: each asset in turn gets a new quote, its base
        price becomes the quoted price, and every subscriber is called with
        the quote. */
    method OracleTick(feed: array<FeedAsset>, stepDraws: seq<real>, nodeDraws: seq<real>,
                      confidenceDraws: seq<real>, now: int) returns (deliveries: seq<Delivery>)
      requires |stepDraws| == feed.Length && |nodeDraws| == feed.Length && |confidenceDraws| == feed.Length
      requires AllDraws(nodeDraws)
      modifies feed
      ensures feed[..] == TickedFeed(old(feed[..]), stepDraws)
      ensures deliveries == TickDeliveries(old(feed[..]), stepDraws, nodeDraws, confidenceDraws, oracleCallbacks, now)
    {
      ghost var orig := feed[..];
      deliveries := [];
      var i := 0;
      while i < feed.Length
        invariant 0 <= i <= feed.Length
        invariant forall k :: 0 <= k < i ==> feed[k] == TickedFeed(orig, stepDraws)[k]
        invariant forall k :: i <= k < feed.Length ==> feed[k] == orig[k]
        invariant deliveries == TickDeliveries(orig[..i], stepDraws, nodeDraws, confidenceDraws, oracleCallbacks, now)
      {
        var asset := feed[i];
        var quote := Quote(asset, stepDraws[i], nodeDraws[i], confidenceDraws[i], now);
        feed[i] := asset.(basePrice := quote.price);
        deliveries := deliveries + Broadcast(oracleCallbacks, quote);
        assert orig[..i + 1][..i] == orig[..i];
        i := i + 1;
      }
      assert orig[..feed.Length] == orig;
    }
  }
}
