/**
 * The monitoring engine (Services/CryptoPriceMonitorService.cs): the
 * registry of ten records built at construction, the start/stop
 * bookkeeping of per-coin cancellation handles, and one iteration of a
 * coin's polling loop as a sequential step.
 *
 * Not modelled: the tasks themselves, `Task.WhenAll`, the five-slot
 * semaphore and the sleeps (kept only as the named constants below). The
 * `PriceUpdated` and `StatusChanged` events and the notifications shown are
 * returned by the step that raises them.
 */
module Monitor {
  import opened Wrappers
  import opened Text
  import opened Models
  import opened CoinGecko
  import opened Notifications

  /** The coins tracked, in registry order. */
  const CryptoIds: seq<string> := ["bitcoin", "ethereum", "binancecoin", "cardano", "solana",
                                    "polkadot", "dogecoin", "matic-network", "chainlink", "litecoin"]

  const Preparing := "準備中"
  const ErrorStatus := "錯誤"
  const StoppedStatus := "已停止"

  /** Capacity of the request semaphore and the two sleeps, in milliseconds (not modelled further). */
  const MaxConcurrentRequests := 5
  const PollIntervalMs := 10000
  const RetryIntervalMs := 5000

  /** The `StatusChanged` messages: "開始監控...", "正在監控 {n} 種加密貨幣", "停止監控中...", "監控已停止". */
  datatype StatusMessage = MonitoringStarting | MonitoringCount(count: nat) | MonitoringStopping | MonitoringStopped

  /** `PriceUpdateEventArgs`. */
  datatype PriceUpdate = PriceUpdate(symbol: string, previousPrice: real, currentPrice: real, change24h: real)

  /** What one iteration of the polling loop got from the client, or the exception it caught. */
  datatype PollStep = Fetched(response: Response, now: int) | Failed

  /** A `CancellationTokenSource`, reduced to whether cancellation was requested. */
  class CancellationTokenSource {
    var cancelled: bool

    constructor ()
      ensures !cancelled
    {
      cancelled := false;
    }

    method Cancel()
      modifies this
      ensures cancelled
    {
      cancelled := true;
    }
  }

  /** The record `InitializeCryptocurrencies` builds for an id. */
  function Initial(cryptoId: string): CryptoFields
  {
    Defaults.(symbol := UpperAll(cryptoId), name := GetCryptoName(cryptoId), status := Preparing)
  }

  /** The five assignments applied to the matching record on a successful poll. */
  function Overwrite(before: CryptoFields, update: CryptoFields): CryptoFields
  {
    before.(price := update.price, change24h := update.change24h, marketCap := update.marketCap,
            lastUpdate := update.lastUpdate, status := update.status)
  }

  /** The `PropertyChanged` notifications those five setters raise, in order. */
  function OverwriteNotes(before: CryptoFields, update: CryptoFields): seq<string>
  {
    MarketNotes(before, update)
    + SetProperty(before.lastUpdate, update.lastUpdate, "LastUpdate").raised
    + SetProperty(before.status, update.status, "Status").raised
  }

  /** The notifications of the first three assignments: price, 24-hour change and market cap. */
  function MarketNotes(before: CryptoFields, update: CryptoFields): seq<string>
  {
    SetProperty(before.price, update.price, "Price").raised
    + Change24hNotes(before.change24h, update.change24h)
    + SetProperty(before.marketCap, update.marketCap, "MarketCap").raised
  }

  /** `FirstOrDefault(c => c.Symbol.Equals(symbol, StringComparison.OrdinalIgnoreCase))`, as an index. */
  function FindBySymbol(entries: seq<CryptoFields>, symbol: string): (found: Option<nat>)
    ensures found.Some? ==> found.value < |entries| && EqualsIgnoreCase(entries[found.value].symbol, symbol)
  {
    if entries == [] then None
    else if EqualsIgnoreCase(entries[0].symbol, symbol) then Some(0)
    else match FindBySymbol(entries[1..], symbol)
      case None => None
      case Some(i) => Some(i + 1)
  }

  /** The record a poll's result goes to: the first whose symbol matches the first price's, ignoring case. */
  function PollTarget(entries: seq<CryptoFields>, prices: seq<CryptoFields>): (target: Option<nat>)
    ensures target.Some? ==> target.value < |entries|
  {
    if |prices| == 0 then None else FindBySymbol(entries, prices[0].symbol)
  }

  /** The index found is the first record whose symbol matches ignoring case; none is found only if none matches. */
  lemma {:induction false} FindBySymbolFirst(entries: seq<CryptoFields>, symbol: string)
    ensures var found := FindBySymbol(entries, symbol);
      && (found.Some? ==> EqualsIgnoreCase(entries[found.value].symbol, symbol))
      && (found.Some? ==> forall j :: 0 <= j < found.value ==> !EqualsIgnoreCase(entries[j].symbol, symbol))
      && (found.None? ==> forall j :: 0 <= j < |entries| ==> !EqualsIgnoreCase(entries[j].symbol, symbol))
  {
    if entries != [] && !EqualsIgnoreCase(entries[0].symbol, symbol) {
      FindBySymbolFirst(entries[1..], symbol);
      var found := FindBySymbol(entries, symbol);
      if found.None? {
        forall j | 0 <= j < |entries|
          ensures !EqualsIgnoreCase(entries[j].symbol, symbol)
        {
          if j > 0 { assert entries[j] == entries[1..][j - 1]; }
        }
      } else {
        forall j | 0 <= j < found.value
          ensures !EqualsIgnoreCase(entries[j].symbol, symbol)
        {
          if j > 0 { assert entries[j] == entries[1..][j - 1]; }
        }
      }
    }
  }

  /** The registry after one successful poll returned `prices`. */
  function AfterPoll(entries: seq<CryptoFields>, prices: seq<CryptoFields>): seq<CryptoFields>
  {
    match PollTarget(entries, prices)
    case None => entries
    case Some(i) => entries[i := Overwrite(entries[i], prices[0])]
  }

  /** The `PropertyChanged` logs after that poll: only the target's grows. */
  function PollLogs(entries: seq<CryptoFields>, logs: seq<seq<string>>, prices: seq<CryptoFields>): seq<seq<string>>
    requires |logs| == |entries|
  {
    match PollTarget(entries, prices)
    case None => logs
    case Some(i) => logs[i := logs[i] + OverwriteNotes(entries[i], prices[0])]
  }

  /** The `PriceUpdated` event that poll raises, if any. */
  function PollEvents(entries: seq<CryptoFields>, prices: seq<CryptoFields>): seq<PriceUpdate>
  {
    match PollTarget(entries, prices)
    case None => []
    case Some(i) => [PriceUpdate(entries[i].symbol, entries[i].price, prices[0].price, prices[0].change24h)]
  }

  /** The notifications that poll shows: the alerts for the target's old and new price. */
  function PollAlerts(thresholds: map<string, real>, entries: seq<CryptoFields>, prices: seq<CryptoFields>): seq<Alert>
  {
    match PollTarget(entries, prices)
    case None => []
    case Some(i) => Alerts(thresholds, entries[i].symbol, prices[0].price, entries[i].price, prices[0].change24h)
  }

  /** The registry after the loop for `cryptoId` caught an exception. */
  function AfterError(entries: seq<CryptoFields>, cryptoId: string): seq<CryptoFields>
  {
    match FindBySymbol(entries, cryptoId)
    case None => entries
    case Some(i) => entries[i := entries[i].(status := ErrorStatus)]
  }

  /** The `PropertyChanged` logs after that: only the matching record's can grow. */
  function ErrorLogs(entries: seq<CryptoFields>, logs: seq<seq<string>>, cryptoId: string): seq<seq<string>>
    requires |logs| == |entries|
  {
    match FindBySymbol(entries, cryptoId)
    case None => logs
    case Some(i) => logs[i := logs[i] + SetProperty(entries[i].status, ErrorStatus, "Status").raised]
  }

  /**
   * A poll result goes to the first record whose symbol matches the first
   * price's ignoring case and sets exactly its price, 24-hour change, market
   * cap, update time and status from it; symbols, names and every other
   * record stay as they were. An empty result, or one matching no record,
   * changes nothing.
   */
  lemma AfterPollShape(entries: seq<CryptoFields>, prices: seq<CryptoFields>)
    ensures var after := AfterPoll(entries, prices);
      && |after| == |entries|
      && (forall j :: 0 <= j < |entries| ==> after[j].symbol == entries[j].symbol && after[j].name == entries[j].name)
      && (|prices| == 0 ==> after == entries)
      && (PollTarget(entries, prices).None? ==>
            after == entries
            && (|prices| > 0 ==> forall j :: 0 <= j < |entries| ==> !EqualsIgnoreCase(entries[j].symbol, prices[0].symbol)))
      && (PollTarget(entries, prices).Some? ==>
            var i := PollTarget(entries, prices).value;
            && EqualsIgnoreCase(entries[i].symbol, prices[0].symbol)
            && (forall j :: 0 <= j < i ==> !EqualsIgnoreCase(entries[j].symbol, prices[0].symbol))
            && after[i].price == prices[0].price && after[i].change24h == prices[0].change24h
            && after[i].marketCap == prices[0].marketCap && after[i].lastUpdate == prices[0].lastUpdate
            && after[i].status == prices[0].status
            && (forall j :: 0 <= j < |entries| && j != i ==> after[j] == entries[j]))
  {
    if |prices| > 0 {
      FindBySymbolFirst(entries, prices[0].symbol);
    }
  }

  /**
   * The `PriceUpdated` event and the alert check of a poll both take the
   * target's price before the overwrite as the previous price and its price
   * after it as the current one; a poll that updates nothing raises and
   * shows nothing.
   */
  lemma PollUsesPreviousPrice(thresholds: map<string, real>, entries: seq<CryptoFields>, prices: seq<CryptoFields>)
    ensures PollTarget(entries, prices).None? ==>
      PollEvents(entries, prices) == [] && PollAlerts(thresholds, entries, prices) == []
    ensures PollTarget(entries, prices).Some? ==>
      var i := PollTarget(entries, prices).value;
      var after := AfterPoll(entries, prices);
      && PollEvents(entries, prices) == [PriceUpdate(entries[i].symbol, entries[i].price, after[i].price, after[i].change24h)]
      && PollAlerts(thresholds, entries, prices)
         == Alerts(thresholds, entries[i].symbol, after[i].price, entries[i].price, after[i].change24h)
  {
  }

  /** The error step sets the status of the first record matching the id, ignoring case, and nothing else. */
  lemma AfterErrorShape(entries: seq<CryptoFields>, cryptoId: string)
    ensures var after := AfterError(entries, cryptoId);
      && |after| == |entries|
      && (FindBySymbol(entries, cryptoId).None? ==>
            after == entries && forall j :: 0 <= j < |entries| ==> !EqualsIgnoreCase(entries[j].symbol, cryptoId))
      && (FindBySymbol(entries, cryptoId).Some? ==>
            var i := FindBySymbol(entries, cryptoId).value;
            && EqualsIgnoreCase(entries[i].symbol, cryptoId)
            && after[i] == entries[i].(status := ErrorStatus)
            && (forall j :: 0 <= j < |entries| && j != i ==> after[j] == entries[j]))
  {
    FindBySymbolFirst(entries, cryptoId);
  }

  /** Records whose symbols are well-formed ids upper-cased, as the registry's are. */
  ghost predicate SymbolsOf(entries: seq<CryptoFields>, ids: seq<string>)
  {
    |entries| == |ids| && forall i :: 0 <= i < |ids| ==> entries[i].symbol == UpperAll(ids[i])
  }

  /** Distinct lower-case ids stay distinct, even ignoring case, once upper-cased. */
  lemma SymbolsDistinct(entries: seq<CryptoFields>, ids: seq<string>, j: nat, k: nat)
    requires IdsWellFormed(ids) && SymbolsOf(entries, ids)
    requires j < k < |ids|
    ensures !EqualsIgnoreCase(entries[j].symbol, entries[k].symbol)
  {
    UpperAllIdempotent(ids[j]);
    UpperAllIdempotent(ids[k]);
    if UpperAll(ids[j]) == UpperAll(ids[k]) {
      LowerUpperRoundTrip(ids[j]);
      LowerUpperRoundTrip(ids[k]);
      assert false;
    }
  }

  /** The loop for the `k`th id writes whatever the client returns for it into the `k`th record. */
  lemma RegistryPollTarget(entries: seq<CryptoFields>, ids: seq<string>, k: nat, response: Response, now: int)
    requires IdsWellFormed(ids) && SymbolsOf(entries, ids) && k < |ids|
    ensures var prices := PricesFor([ids[k]], response, now);
      |prices| > 0 ==> PollTarget(entries, prices) == Some(k)
  {
    var prices := PricesFor([ids[k]], response, now);
    SingleIdResult(ids[k], response, now);
    if |prices| > 0 {
      FindBySymbolFirst(entries, prices[0].symbol);
      assert EqualsIgnoreCase(entries[k].symbol, prices[0].symbol);
      forall j | 0 <= j < k
        ensures !EqualsIgnoreCase(entries[j].symbol, prices[0].symbol)
      {
        SymbolsDistinct(entries, ids, j, k);
      }
    }
  }

  /**
   * A transport error is not an error to the monitor: the client's
   * zero-price fallback record is written into the coin's record, which goes
   * to price 0 with the connection-error status, and from a positive price
   * that shows a plunge alert.
   */
  lemma TransportErrorPoll(thresholds: map<string, real>, entries: seq<CryptoFields>, ids: seq<string>, k: nat, now: int)
    requires IdsWellFormed(ids) && SymbolsOf(entries, ids) && k < |ids|
    ensures var prices := PricesFor([ids[k]], TransportError, now);
      var after := AfterPoll(entries, prices);
      && after == entries[k := entries[k].(price := 0.0, change24h := 0.0, marketCap := 0.0, lastUpdate := 0,
                                           status := ConnectionError)]
      && (entries[k].price > 0.0 ==>
            Alert(InstantChange, entries[k].symbol, Plunge) in PollAlerts(thresholds, entries, prices))
  {
    var prices := PricesFor([ids[k]], TransportError, now);
    TransportErrorFallback([ids[k]], now);
    RegistryPollTarget(entries, ids, k, TransportError, now);
    var p := entries[k].price;
    InstantChangePercentScaled(0.0, p);
    if p > 0.0 {
      var alerts := Alerts(thresholds, entries[k].symbol, 0.0, p, 0.0);
      assert (0.0 - p) / p == -1.0;
      assert InstantChangePercent(0.0, p) == -100.0;
      AlertsFire(thresholds, entries[k].symbol, 0.0, p, 0.0);
      AlertsOrder(thresholds, entries[k].symbol, 0.0, p, 0.0);
      var i :| 0 <= i < |alerts| && alerts[i].kind == InstantChange;
      assert alerts[i] == Alert(InstantChange, entries[k].symbol, Plunge);
    }
  }

  /**
   * Alerts are looked up under the upper-case symbol, so a threshold stored
   * under a key with a lower-case letter, such as the coin's own id, never
   * fires, whatever the poll returns.
   */
  lemma LowerCaseThresholdNeverFires(entries: seq<CryptoFields>, ids: seq<string>, thresholds: map<string, real>,
                                     prices: seq<CryptoFields>)
    requires SymbolsOf(entries, ids)
    requires forall key :: key in thresholds ==> HasLowerLetter(key)
    ensures !Has(PollAlerts(thresholds, entries, prices), PriceAlert)
  {
    match PollTarget(entries, prices)
    case None =>
    case Some(i) =>
      var symbol := entries[i].symbol;
      UpperAllIdempotent(ids[i]);
      assert !HasLowerLetter(symbol);
      assert symbol !in thresholds;
      AlertsFire(thresholds, symbol, prices[0].price, entries[i].price, prices[0].change24h);
  }

  /** For instance, `SetPriceAlert("bitcoin", …)` never fires for the Bitcoin record. */
  lemma LowerCaseIdThresholdExample(entries: seq<CryptoFields>, t: real, prices: seq<CryptoFields>)
    requires SymbolsOf(entries, CryptoIds)
    ensures !Has(PollAlerts(map["bitcoin" := t], entries, prices), PriceAlert)
  {
    assert IsLowerLetter("bitcoin"[0]);
    LowerCaseThresholdNeverFires(entries, CryptoIds, map["bitcoin" := t], prices);
  }

  /** The registry after the loop of `StopMonitoring`: every status replaced, nothing else. */
  function WithStatus(entries: seq<CryptoFields>, status: string): (after: seq<CryptoFields>)
    ensures |after| == |entries|
    ensures forall i :: 0 <= i < |entries| ==> after[i] == entries[i].(status := status)
  {
    seq(|entries|, i requires 0 <= i < |entries| => entries[i].(status := status))
  }

  /** The `PropertyChanged` logs after that loop: each grows by the `Status` notification if its status differed. */
  function StatusLogs(entries: seq<CryptoFields>, logs: seq<seq<string>>, status: string): (after: seq<seq<string>>)
    requires |logs| == |entries|
    ensures |after| == |logs|
    ensures forall i :: 0 <= i < |logs| ==> after[i] == logs[i] + SetProperty(entries[i].status, status, "Status").raised
  {
    seq(|logs|, i requires 0 <= i < |logs| => logs[i] + SetProperty(entries[i].status, status, "Status").raised)
  }

  /** Records carrying the given symbols and names, in order. */
  ghost predicate Labelled(entries: seq<CryptoFields>, symbols: seq<string>, names: seq<string>)
  {
    && |entries| == |symbols| == |names|
    && forall i :: 0 <= i < |entries| ==> entries[i].symbol == symbols[i] && entries[i].name == names[i]
  }

  /** Fresh records carry the symbols and names they were built with. */
  lemma InitialLabelled(entries: seq<CryptoFields>, ids: seq<string>, symbols: seq<string>, names: seq<string>)
    requires |entries| == |ids| == |symbols| == |names|
    requires forall j :: 0 <= j < |ids| ==> entries[j] == Initial(ids[j])
    requires forall j :: 0 <= j < |ids| ==> symbols[j] == UpperAll(ids[j]) && names[j] == GetCryptoName(ids[j])
    ensures Labelled(entries, symbols, names)
  {
  }

  /** Replacing a record by one with the same symbol and name keeps the labels. */
  lemma LabelledUpdate(entries: seq<CryptoFields>, symbols: seq<string>, names: seq<string>, i: nat, e: CryptoFields)
    requires Labelled(entries, symbols, names) && i < |entries|
    requires e.symbol == entries[i].symbol && e.name == entries[i].name
    ensures Labelled(entries[i := e], symbols, names)
  {
  }

  function FieldsOf(cs: seq<CryptoCurrency>): (r: seq<CryptoFields>)
    reads cs
    ensures |r| == |cs|
    ensures forall i :: 0 <= i < |cs| ==> r[i] == cs[i].Fields()
  {
    if cs == [] then [] else [cs[0].Fields()] + FieldsOf(cs[1..])
  }

  function LogsOf(cs: seq<CryptoCurrency>): (r: seq<seq<string>>)
    reads cs
    ensures |r| == |cs|
    ensures forall i :: 0 <= i < |cs| ==> r[i] == cs[i].changes
  {
    if cs == [] then [] else [cs[0].changes] + LogsOf(cs[1..])
  }

  /** The handle keys the first `n` records get. */
  function PrefixIds<K>(ids: seq<K>, n: nat): set<K>
    requires n <= |ids|
  {
    set j | 0 <= j < n :: ids[j]
  }

  /** Ids usable as registry keys: lower-case and pairwise distinct. */
  ghost predicate IdsWellFormed(ids: seq<string>)
  {
    && (forall i :: 0 <= i < |ids| ==> NoUpperLetter(ids[i]))
    && Distinct(ids)
  }

  ghost predicate Distinct<K>(ids: seq<K>)
  {
    forall i, j :: 0 <= i < j < |ids| ==> ids[i] != ids[j]
  }

  lemma PrefixIdsSnoc<K>(ids: seq<K>, n: nat)
    requires n < |ids|
    ensures PrefixIds(ids, n + 1) == PrefixIds(ids, n) + {ids[n]}
  {
  }

  /** Distinct ids give as many keys as records. */
  lemma {:induction false} PrefixIdsCount<K>(ids: seq<K>, n: nat)
    requires Distinct(ids) && n <= |ids|
    ensures |PrefixIds(ids, n)| == n
  {
    if n > 0 {
      PrefixIdsCount(ids, n - 1);
      PrefixIdsSnoc(ids, n - 1);
      assert ids[n - 1] !in PrefixIds(ids, n - 1);
    }
  }

  /** The ten ids are lower-case and distinct, and the client's table names each of them. */
  lemma CryptoIdsFacts()
    ensures CryptoIds == KnownIds
    ensures IdsWellFormed(CryptoIds)
    ensures forall i :: 0 <= i < |CryptoIds| ==> CryptoIds[i] != "" && GetCryptoName(CryptoIds[i]) == KnownNames[i] != ""
  {
    CryptoIdsLower();
    CryptoIdsDistinct();
    forall i | 0 <= i < |CryptoIds|
      ensures GetCryptoName(CryptoIds[i]) == KnownNames[i]
    {
      GetCryptoNameKnown(i);
    }
  }

  lemma CryptoIdsLower()
    ensures forall i :: 0 <= i < |CryptoIds| ==> NoUpperLetter(CryptoIds[i])
  {
  }

  lemma CryptoIdsDistinct()
    ensures Distinct(CryptoIds)
  {
  }

  /** The loop of `InitializeCryptocurrencies`: one fresh record per id. */
  method NewRegistry(ids: seq<string>) returns (cs: seq<CryptoCurrency>)
    requires forall j :: 0 <= j < |ids| ==> ids[j] != "" && GetCryptoName(ids[j]) != ""
    ensures |cs| == |ids|
    ensures forall j :: 0 <= j < |cs| ==> fresh(cs[j])
    ensures forall j, k :: 0 <= j < k < |cs| ==> cs[j] != cs[k]
    ensures forall j :: 0 <= j < |cs| ==> cs[j].Fields() == Initial(ids[j])
    ensures forall j :: 0 <= j < |cs| ==> cs[j].changes == ["Symbol", "Name", "Status"]
  {
    cs := [];
    for i := 0 to |ids|
      invariant |cs| == i
      invariant forall j :: 0 <= j < i ==> fresh(cs[j])
      invariant forall j, k :: 0 <= j < k < i ==> cs[j] != cs[k]
      invariant forall j :: 0 <= j < i ==> cs[j].Fields() == Initial(ids[j])
      invariant forall j :: 0 <= j < i ==> cs[j].changes == ["Symbol", "Name", "Status"]
    {
      var crypto := NewRecord(ids[i]);
      cs := cs + [crypto];
    }
  }

  /** The body of that loop: a new record with the id's symbol, name and the preparing status. */
  method NewRecord(cryptoId: string) returns (crypto: CryptoCurrency)
    requires cryptoId != "" && GetCryptoName(cryptoId) != ""
    ensures fresh(crypto)
    ensures crypto.Fields() == Initial(cryptoId)
    ensures crypto.changes == ["Symbol", "Name", "Status"]
  {
    crypto := new CryptoCurrency();
    crypto.SetSymbol(UpperAll(cryptoId));
    crypto.SetName(GetCryptoName(cryptoId));
    crypto.SetStatus(Preparing);
  }

  /** The five assignments of a successful poll to one record. */
  method OverwriteEntry(existingCrypto: CryptoCurrency, updatedCrypto: CryptoFields)
    modifies existingCrypto
    ensures existingCrypto.Fields() == Overwrite(old(existingCrypto.Fields()), updatedCrypto)
    ensures existingCrypto.changes == old(existingCrypto.changes) + OverwriteNotes(old(existingCrypto.Fields()), updatedCrypto)
  {
    ghost var before, log := existingCrypto.Fields(), existingCrypto.changes;
    SetMarket(existingCrypto, updatedCrypto);
    ghost var market := log + MarketNotes(before, updatedCrypto);
    existingCrypto.SetLastUpdate(updatedCrypto.lastUpdate);
    ghost var dated := market + SetProperty(before.lastUpdate, updatedCrypto.lastUpdate, "LastUpdate").raised;
    assert existingCrypto.changes == dated;
    existingCrypto.SetStatus(updatedCrypto.status);
    assert existingCrypto.changes == dated + SetProperty(before.status, updatedCrypto.status, "Status").raised;
  }

  /** The first three of those assignments: price, 24-hour change and market cap. */
  method SetMarket(existingCrypto: CryptoCurrency, updatedCrypto: CryptoFields)
    modifies existingCrypto
    ensures existingCrypto.Fields() == old(existingCrypto.Fields()).(price := updatedCrypto.price,
              change24h := updatedCrypto.change24h, marketCap := updatedCrypto.marketCap)
    ensures existingCrypto.changes == old(existingCrypto.changes) + MarketNotes(old(existingCrypto.Fields()), updatedCrypto)
  {
    ghost var before := existingCrypto.Fields();
    existingCrypto.SetPrice(updatedCrypto.price);
    ghost var priced := old(existingCrypto.changes) + SetProperty(before.price, updatedCrypto.price, "Price").raised;
    assert existingCrypto.changes == priced && existingCrypto.Fields() == before.(price := updatedCrypto.price);
    existingCrypto.SetChange24h(updatedCrypto.change24h);
    ghost var changed := priced + Change24hNotes(before.change24h, updatedCrypto.change24h);
    assert existingCrypto.changes == changed
      && existingCrypto.Fields() == before.(price := updatedCrypto.price, change24h := updatedCrypto.change24h);
    existingCrypto.SetMarketCap(updatedCrypto.marketCap);
    assert existingCrypto.changes == changed + SetProperty(before.marketCap, updatedCrypto.marketCap, "MarketCap").raised;
  }

  class CryptoPriceMonitorService {
    /** The ids `InitializeCryptocurrencies` registers, in order, and the symbols and names it gives them. */
    ghost const cryptoIds: seq<string>
    ghost const cryptoSymbols: seq<string>
    ghost const cryptoNames: seq<string>
    /** `Cryptocurrencies`: its membership is fixed at construction. */
    const cryptocurrencies: seq<CryptoCurrency>
    const notificationService: NotificationService
    /** `_isMonitoring`. */
    var isMonitoring: bool
    /** `_monitoringTasks`: handle per lower-case symbol. */
    var monitoringTasks: map<string, CancellationTokenSource>

    /**
     * The registry holds one distinct record per id, whose symbol and name
     * are those given at construction; handles exist exactly while
     * monitoring, one per id, and none of them is cancelled.
     */
    ghost predicate Valid()
      reads this, cryptocurrencies, monitoringTasks.Values
    {
      IdsValid() && RegistryValid() && HandlesValid()
    }

    /** The ids are lower-case and distinct; each symbol is its id upper-cased. */
    ghost predicate IdsValid()
    {
      && IdsWellFormed(cryptoIds)
      && |cryptoSymbols| == |cryptoIds|
      && (forall i :: 0 <= i < |cryptoIds| ==> cryptoSymbols[i] == UpperAll(cryptoIds[i]))
    }

    /** One distinct record per id, keeping the symbol and name it was given. */
    ghost predicate RegistryValid()
      reads cryptocurrencies
    {
      Distinct(cryptocurrencies) && Labelled(Snapshot(), cryptoSymbols, cryptoNames)
    }

    ghost predicate HandlesValid()
      reads this, monitoringTasks.Values
    {
      && monitoringTasks.Keys == (if isMonitoring then PrefixIds(cryptoIds, |cryptoIds|) else {})
      && (forall k :: k in monitoringTasks ==> !monitoringTasks[k].cancelled)
    }

    /** The values of all records, in registry order. */
    function Snapshot(): (entries: seq<CryptoFields>)
      reads cryptocurrencies
      ensures |entries| == |cryptocurrencies|
    {
      FieldsOf(cryptocurrencies)
    }

    /** The `PropertyChanged` log of each record, in registry order. */
    function ChangeLogs(): (logs: seq<seq<string>>)
      reads cryptocurrencies
      ensures |logs| == |cryptocurrencies|
    {
      LogsOf(cryptocurrencies)
    }

    /** `GetActiveConnections`: the handles whose token is not cancelled. */
    function ActiveConnections(): (n: nat)
      reads this, monitoringTasks.Values
      ensures n <= |monitoringTasks|
    {
      var active := set k | k in monitoringTasks && !monitoringTasks[k].cancelled;
      assert monitoringTasks.Keys == active + (monitoringTasks.Keys - active);
      |active|
    }

    /** The constructor and `InitializeCryptocurrencies`. */
    constructor ()
      ensures Valid()
      ensures cryptoIds == CryptoIds && cryptoNames == KnownNames
      ensures forall i :: 0 <= i < |cryptocurrencies| ==> fresh(cryptocurrencies[i])
      ensures forall i :: 0 <= i < |cryptocurrencies| ==> Snapshot()[i] == Initial(cryptoIds[i])
      ensures forall i :: 0 <= i < |cryptocurrencies| ==> cryptocurrencies[i].changes == ["Symbol", "Name", "Status"]
      ensures !isMonitoring && monitoringTasks == map[]
      ensures fresh(notificationService) && notificationService.thresholds == map[]
    {
      notificationService := new NotificationService();
      CryptoIdsFacts();
      cryptoIds, cryptoNames := CryptoIds, KnownNames;
      cryptoSymbols := seq(|CryptoIds|, i requires 0 <= i < |CryptoIds| => UpperAll(CryptoIds[i]));
      var cs := NewRegistry(CryptoIds);
      cryptocurrencies := cs;
      isMonitoring := false;
      monitoringTasks := map[];
      new;
      InitialLabelled(Snapshot(), cryptoIds, cryptoSymbols, cryptoNames);
    }

    /** Each record's lower-cased symbol, its handle key, is its id. */
    lemma HandleKeys()
      requires IdsValid() && RegistryValid()
      ensures forall i :: 0 <= i < |cryptocurrencies| ==> LowerAll(cryptocurrencies[i].symbol) == cryptoIds[i]
    {
      forall i | 0 <= i < |cryptocurrencies|
        ensures LowerAll(cryptocurrencies[i].symbol) == cryptoIds[i]
      {
        LowerUpperRoundTrip(cryptoIds[i]);
      }
    }

    /** The keys `StartMonitoringAsync` derives from the records are the ids. */
    lemma SymbolKeysAreIds()
      requires IdsValid() && RegistryValid()
      ensures SymbolKeys(cryptocurrencies) == cryptoIds
    {
      HandleKeys();
    }

    /**
     * The registry's symbols are its well-formed ids upper-cased, so the
     * lemmas on record values apply to it: in particular no two symbols are
     * equal, even ignoring case.
     */
    lemma RegistrySymbols()
      requires IdsValid() && RegistryValid()
      ensures IdsWellFormed(cryptoIds) && SymbolsOf(Snapshot(), cryptoIds)
      ensures forall j, k :: 0 <= j < k < |cryptocurrencies| ==>
        !EqualsIgnoreCase(cryptocurrencies[j].symbol, cryptocurrencies[k].symbol)
    {
      forall j, k | 0 <= j < k < |cryptocurrencies|
        ensures !EqualsIgnoreCase(cryptocurrencies[j].symbol, cryptocurrencies[k].symbol)
      {
        SymbolsDistinct(Snapshot(), cryptoIds, j, k);
      }
    }

    /** Handles are never cancelled while in the map, so the count follows the flag. */
    lemma ActiveConnectionsByFlag()
      requires Distinct(cryptoIds) && HandlesValid()
      ensures ActiveConnections() == (if isMonitoring then |cryptoIds| else 0)
    {
      assert (set k | k in monitoringTasks && !monitoringTasks[k].cancelled) == monitoringTasks.Keys;
      PrefixIdsCount(cryptoIds, |cryptoIds|);
    }

    /**
     * `StartMonitoringAsync` up to `await Task.WhenAll`: a no-op while
     * monitoring; otherwise it sets the flag and `TryAdd`s one fresh,
     * uncancelled handle per record under its lower-cased symbol. `messages`
     * are the `StatusChanged` events raised.
     */
    method StartMonitoring() returns (messages: seq<StatusMessage>)
      requires Valid()
      modifies this`isMonitoring, this`monitoringTasks
      ensures Valid()
      ensures old(isMonitoring) ==> isMonitoring && monitoringTasks == old(monitoringTasks) && messages == []
      ensures !old(isMonitoring) ==>
        && isMonitoring
        && monitoringTasks.Keys == PrefixIds(cryptoIds, |cryptoIds|)
        && (forall k :: k in monitoringTasks ==> fresh(monitoringTasks[k]) && !monitoringTasks[k].cancelled)
        && messages == [MonitoringStarting, MonitoringCount(|cryptocurrencies|)]
        && ActiveConnections() == |cryptocurrencies|
    {
      if isMonitoring {
        return [];
      }
      SymbolKeysAreIds();
      assert |cryptocurrencies| == |cryptoIds|;
      messages := [MonitoringStarting];
      var started := StartAll(SymbolKeys(cryptocurrencies));
      assert RegistryValid();
      messages := messages + [MonitoringCount(started)];
    }

    /** The state change of `StartMonitoringAsync` while not monitoring; `started` counts the handles added. */
    method StartAll(keys: seq<string>) returns (started: nat)
      requires Distinct(cryptoIds) && HandlesValid() && !isMonitoring && keys == cryptoIds
      modifies this`isMonitoring, this`monitoringTasks
      ensures HandlesValid() && isMonitoring
      ensures forall k :: k in monitoringTasks ==> fresh(monitoringTasks[k])
      ensures started == |cryptoIds| && ActiveConnections() == |cryptoIds|
      ensures Snapshot() == old(Snapshot()) && ChangeLogs() == old(ChangeLogs())
    {
      isMonitoring := true;
      started := InstallHandles(keys);
      ActiveConnectionsByFlag();
    }

    /** The `TryAdd` loop of `StartMonitoringAsync` on the empty map; the records are untouched. */
    method InstallHandles(keys: seq<string>) returns (added: nat)
      requires Distinct(keys) && monitoringTasks == map[]
      modifies this`monitoringTasks
      ensures monitoringTasks.Keys == PrefixIds(keys, |keys|) && added == |keys|
      ensures forall k :: k in monitoringTasks ==> fresh(monitoringTasks[k]) && !monitoringTasks[k].cancelled
      ensures Snapshot() == old(Snapshot()) && ChangeLogs() == old(ChangeLogs())
    {
      monitoringTasks, added := AddHandles(monitoringTasks, keys);
    }

    /**
     * `StopMonitoring`: a no-op unless monitoring; otherwise it clears the
     * flag, cancels every handle, empties the map and marks every record
     * stopped.
     */
    method StopMonitoring() returns (messages: seq<StatusMessage>)
      requires Valid()
      modifies this`isMonitoring, this`monitoringTasks, cryptocurrencies, monitoringTasks.Values
      ensures Valid()
      ensures !old(isMonitoring) ==>
        && !isMonitoring && monitoringTasks == old(monitoringTasks) && messages == []
        && Snapshot() == old(Snapshot()) && ChangeLogs() == old(ChangeLogs())
      ensures old(isMonitoring) ==>
        && !isMonitoring && monitoringTasks == map[]
        && (forall t :: t in old(monitoringTasks).Values ==> t.cancelled)
        && messages == [MonitoringStopping, MonitoringStopped]
        && Snapshot() == WithStatus(old(Snapshot()), StoppedStatus)
        && ChangeLogs() == StatusLogs(old(Snapshot()), old(ChangeLogs()), StoppedStatus)
      ensures ActiveConnections() == 0
    {
      if !isMonitoring {
        ActiveConnectionsByFlag();
        return [];
      }
      messages := [MonitoringStopping];
      StopAll();
      messages := messages + [MonitoringStopped];
    }

    /** The state change of `StopMonitoring` while monitoring. */
    method StopAll()
      requires Valid() && isMonitoring
      modifies this`isMonitoring, this`monitoringTasks, cryptocurrencies, monitoringTasks.Values
      ensures Valid()
      ensures !isMonitoring && monitoringTasks == map[]
      ensures forall t :: t in old(monitoringTasks).Values ==> t.cancelled
      ensures Snapshot() == WithStatus(old(Snapshot()), StoppedStatus)
      ensures ChangeLogs() == StatusLogs(old(Snapshot()), old(ChangeLogs()), StoppedStatus)
      ensures ActiveConnections() == 0
    {
      ghost var before, logs := Snapshot(), ChangeLogs();
      ReleaseHandles();
      assert HandlesValid() && RegistryValid();
      MarkStopped();
      assert Snapshot() == WithStatus(before, StoppedStatus);
      ActiveConnectionsByFlag();
    }

    /** The bookkeeping half of `StopMonitoring`: clear the flag, cancel every handle and empty the map. */
    method ReleaseHandles()
      modifies this`isMonitoring, this`monitoringTasks, monitoringTasks.Values
      ensures !isMonitoring && monitoringTasks == map[]
      ensures forall t :: t in old(monitoringTasks).Values ==> t.cancelled
      ensures Snapshot() == old(Snapshot()) && ChangeLogs() == old(ChangeLogs())
    {
      isMonitoring := false;
      CancelAll(monitoringTasks);
      monitoringTasks := map[];
    }

    /** The loop of `StopMonitoring` over the records: only their statuses change. */
    method MarkStopped()
      requires RegistryValid()
      modifies cryptocurrencies
      ensures RegistryValid()
      ensures Snapshot() == WithStatus(old(Snapshot()), StoppedStatus)
      ensures ChangeLogs() == StatusLogs(old(Snapshot()), old(ChangeLogs()), StoppedStatus)
    {
      ghost var before, logs := Snapshot(), ChangeLogs();
      MarkAll(cryptocurrencies, StoppedStatus);
      assert Snapshot() == WithStatus(before, StoppedStatus);
      assert ChangeLogs() == StatusLogs(before, logs, StoppedStatus);
    }

    /** The five assignments of a successful poll to record `i`; the other records are untouched. */
    method OverwriteAt(i: nat, update: CryptoFields)
      requires RegistryValid() && i < |cryptocurrencies|
      modifies cryptocurrencies[i]
      ensures RegistryValid()
      ensures Snapshot() == old(Snapshot())[i := Overwrite(old(Snapshot())[i], update)]
      ensures ChangeLogs() == old(ChangeLogs())[i := old(ChangeLogs())[i] + OverwriteNotes(old(Snapshot())[i], update)]
    {
      ghost var others, logs := Snapshot(), ChangeLogs();
      OverwriteEntry(cryptocurrencies[i], update);
      forall j | 0 <= j < |cryptocurrencies| && j != i
        ensures cryptocurrencies[j].Fields() == others[j] && cryptocurrencies[j].changes == logs[j]
      {
        assert cryptocurrencies[j] != cryptocurrencies[i];
      }
      assert Snapshot() == others[i := Overwrite(others[i], update)];
      assert ChangeLogs() == logs[i := logs[i] + OverwriteNotes(others[i], update)];
      LabelledUpdate(others, cryptoSymbols, cryptoNames, i, Overwrite(others[i], update));
    }

    /**
     * `MonitorCryptoPriceAsync`, success path: overwrite the matching
     * record, check alerts, raise `PriceUpdated`. `events` are the
     * `PriceUpdated` events raised and `alerts` the notifications shown.
     */
    method ApplyPollResult(prices: seq<CryptoFields>) returns (events: seq<PriceUpdate>, alerts: seq<Alert>)
      requires RegistryValid()
      modifies cryptocurrencies
      ensures RegistryValid()
      ensures Snapshot() == AfterPoll(old(Snapshot()), prices)
      ensures ChangeLogs() == PollLogs(old(Snapshot()), old(ChangeLogs()), prices)
      ensures events == PollEvents(old(Snapshot()), prices)
      ensures alerts == PollAlerts(notificationService.thresholds, old(Snapshot()), prices)
    {
      events, alerts := [], [];
      if |prices| > 0 {
        var updatedCrypto := prices[0];
        var found := FindBySymbol(Snapshot(), updatedCrypto.symbol);
        if found.Some? {
          var i := found.value;
          var existingCrypto := cryptocurrencies[i];
          var previousPrice := existingCrypto.price;
          OverwriteAt(i, updatedCrypto);
          alerts := notificationService.CheckPriceAlerts(existingCrypto.symbol, existingCrypto.price, previousPrice, existingCrypto.change24h);
          events := [PriceUpdate(existingCrypto.symbol, previousPrice, existingCrypto.price, existingCrypto.change24h)];
        }
      }
    }

    /** The status assignment of the error path to record `i`; the other records are untouched. */
    method SetStatusAt(i: nat, status: string)
      requires RegistryValid() && i < |cryptocurrencies|
      modifies cryptocurrencies[i]
      ensures RegistryValid()
      ensures Snapshot() == old(Snapshot())[i := old(Snapshot())[i].(status := status)]
      ensures ChangeLogs() == old(ChangeLogs())[i := old(ChangeLogs())[i] + SetProperty(old(Snapshot())[i].status, status, "Status").raised]
    {
      ghost var others, logs := Snapshot(), ChangeLogs();
      cryptocurrencies[i].SetStatus(status);
      forall j | 0 <= j < |cryptocurrencies| && j != i
        ensures cryptocurrencies[j].Fields() == others[j] && cryptocurrencies[j].changes == logs[j]
      {
        assert cryptocurrencies[j] != cryptocurrencies[i];
      }
      assert Snapshot() == others[i := others[i].(status := status)];
      assert ChangeLogs() == logs[i := logs[i] + SetProperty(others[i].status, status, "Status").raised];
      LabelledUpdate(others, cryptoSymbols, cryptoNames, i, others[i].(status := status));
    }

    /** `MonitorCryptoPriceAsync`, `catch (Exception)`: only the matching record's status becomes the error status. */
    method ApplyError(cryptoId: string)
      requires RegistryValid()
      modifies cryptocurrencies
      ensures RegistryValid()
      ensures Snapshot() == AfterError(old(Snapshot()), cryptoId)
      ensures ChangeLogs() == ErrorLogs(old(Snapshot()), old(ChangeLogs()), cryptoId)
    {
      var found := FindBySymbol(Snapshot(), cryptoId);
      if found.Some? {
        SetStatusAt(found.value, ErrorStatus);
      }
    }

    /**
     * One pass of the `while` loop of `MonitorCryptoPriceAsync` for the
     * loop's own token: a cancelled token leaves the loop with nothing
     * changed; otherwise the client's result for this one id is applied, or
     * the caught exception marks the record.
     */
    method RunIteration(cryptoId: string, token: CancellationTokenSource, step: PollStep)
      returns (keepPolling: bool, events: seq<PriceUpdate>, alerts: seq<Alert>)
      requires RegistryValid()
      modifies cryptocurrencies
      ensures RegistryValid()
      ensures keepPolling == !token.cancelled
      ensures token.cancelled ==>
        Snapshot() == old(Snapshot()) && ChangeLogs() == old(ChangeLogs()) && events == [] && alerts == []
      ensures !token.cancelled && step.Fetched? ==>
        var prices := PricesFor([cryptoId], step.response, step.now);
        && Snapshot() == AfterPoll(old(Snapshot()), prices)
        && ChangeLogs() == PollLogs(old(Snapshot()), old(ChangeLogs()), prices)
        && events == PollEvents(old(Snapshot()), prices)
        && alerts == PollAlerts(notificationService.thresholds, old(Snapshot()), prices)
      ensures !token.cancelled && step.Failed? ==>
        && Snapshot() == AfterError(old(Snapshot()), cryptoId)
        && ChangeLogs() == ErrorLogs(old(Snapshot()), old(ChangeLogs()), cryptoId)
        && events == [] && alerts == []
    {
      if token.cancelled {
        return false, [], [];
      }
      events, alerts := [], [];
      match step {
        case Fetched(response, now) =>
          var prices := GetCryptoPrices([cryptoId], response, now);
          events, alerts := ApplyPollResult(prices);
        case Failed =>
          ApplyError(cryptoId);
      }
      keepPolling := true;
    }

    /** `SetPriceAlert`: forwarded to the notification service. */
    method SetPriceAlert(symbol: string, threshold: real)
      modifies notificationService
      ensures notificationService.thresholds == old(notificationService.thresholds)[symbol := threshold]
    {
      notificationService.SetPriceAlert(symbol, threshold);
    }
  }

  function SymbolKeys(cs: seq<CryptoCurrency>): (keys: seq<string>)
    reads cs
    ensures |keys| == |cs|
    ensures forall i :: 0 <= i < |cs| ==> keys[i] == LowerAll(cs[i].symbol)
  {
    if cs == [] then [] else [LowerAll(cs[0].symbol)] + SymbolKeys(cs[1..])
  }

  /**
   * The `TryAdd` loop of `StartMonitoringAsync`: each key not yet present
   * gets a fresh, uncancelled handle; `added` counts the successful adds,
   * which for distinct new keys is all of them.
   */
  method AddHandles<K(==)>(tasks: map<K, CancellationTokenSource>, keys: seq<K>)
    returns (result: map<K, CancellationTokenSource>, added: nat)
    requires Distinct(keys)
    requires forall i :: 0 <= i < |keys| ==> keys[i] !in tasks
    ensures result.Keys == tasks.Keys + PrefixIds(keys, |keys|)
    ensures forall k :: k in tasks ==> result[k] == tasks[k]
    ensures forall k :: k in result && k !in tasks ==> fresh(result[k]) && !result[k].cancelled
    ensures added == |keys|
  {
    result, added := tasks, 0;
    for i := 0 to |keys|
      invariant result.Keys == tasks.Keys + PrefixIds(keys, i)
      invariant forall k :: k in tasks ==> result[k] == tasks[k]
      invariant forall k :: k in result && k !in tasks ==> fresh(result[k]) && !result[k].cancelled
      invariant added == i
    {
      var cryptoId := keys[i];
      var cancellationTokenSource := new CancellationTokenSource();
      if cryptoId !in result {
        result := result[cryptoId := cancellationTokenSource];
        added := added + 1;
      }
      PrefixIdsSnoc(keys, i);
    }
  }

  /** Sets the status of every record, as the loop of `StopMonitoring` does. */
  method MarkAll(cs: seq<CryptoCurrency>, status: string)
    requires forall i, j :: 0 <= i < j < |cs| ==> cs[i] != cs[j]
    modifies cs
    ensures forall j :: 0 <= j < |cs| ==>
      && cs[j].Fields() == old(cs[j].Fields()).(status := status)
      && cs[j].changes == old(cs[j].changes) + SetProperty(old(cs[j].status), status, "Status").raised
  {
    for i := 0 to |cs|
      invariant forall j :: 0 <= j < i ==>
        && cs[j].Fields() == old(cs[j].Fields()).(status := status)
        && cs[j].changes == old(cs[j].changes) + SetProperty(old(cs[j].status), status, "Status").raised
      invariant forall j :: i <= j < |cs| ==> cs[j].Fields() == old(cs[j].Fields()) && cs[j].changes == old(cs[j].changes)
    {
      cs[i].SetStatus(status);
    }
  }

  /** Cancels every handle of the map. */
  method CancelAll(tasks: map<string, CancellationTokenSource>)
    modifies tasks.Values
    ensures forall t :: t in tasks.Values ==> t.cancelled
  {
    var keys := tasks.Keys;
    while keys != {}
      invariant keys <= tasks.Keys
      invariant forall k :: k in tasks && k !in keys ==> tasks[k].cancelled
      decreases keys
    {
      var k :| k in keys;
      tasks[k].Cancel();
      keys := keys - {k};
    }
  }
}
