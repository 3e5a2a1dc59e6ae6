/**
 * The alert evaluator (Services/NotificationService.cs): a table of price
 * thresholds keyed by the exact symbol string, and the three independent
 * checks run on every price update. Rendering (sounds, message boxes, console
 * text) is not modelled; the alerts a call would show are returned instead.
 */
module Notifications {

  datatype NotificationType = PriceAlert | SignificantChange | InstantChange | SystemAlert

  /** The direction words of the source's messages. */
  const Rise := "上漲"
  const Fall := "下跌"
  const Surge := "急漲"
  const Plunge := "急跌"

  /** One `ShowNotification` call: its kind, the symbol and the direction word ("" for a price alert). */
  datatype Alert = Alert(kind: NotificationType, symbol: string, direction: string)

  function Abs(x: real): real { if x < 0.0 then -x else x }

  /** The percentage change from the previous to the current price; 0 when there is no positive previous price. */
  function InstantChangePercent(currentPrice: real, previousPrice: real): (r: real)
    ensures previousPrice <= 0.0 ==> r == 0.0
    ensures previousPrice > 0.0 ==> (r > 0.0 <==> currentPrice > previousPrice) && (r < 0.0 <==> currentPrice < previousPrice)
  {
    if previousPrice > 0.0 then (currentPrice - previousPrice) / previousPrice * 100.0 else 0.0
  }

  /** Stated without division: the percentage times the previous price is a hundred times the move. */
  lemma InstantChangePercentScaled(currentPrice: real, previousPrice: real)
    ensures previousPrice <= 0.0 ==> InstantChangePercent(currentPrice, previousPrice) == 0.0
    ensures previousPrice > 0.0 ==>
      InstantChangePercent(currentPrice, previousPrice) * previousPrice == (currentPrice - previousPrice) * 100.0
  {
  }

  predicate Has(alerts: seq<Alert>, kind: NotificationType)
  {
    exists k :: 0 <= k < |alerts| && alerts[k].kind == kind
  }

  function Rank(kind: NotificationType): nat
  {
    match kind
    case PriceAlert => 0
    case SignificantChange => 1
    case InstantChange => 2
    case SystemAlert => 3
  }

  /** The threshold check: an upward crossing of the target stored under exactly this symbol. */
  predicate Crossed(thresholds: map<string, real>, symbol: string, currentPrice: real, previousPrice: real)
  {
    symbol in thresholds && previousPrice < thresholds[symbol] <= currentPrice
  }

  /** The alerts `CheckPriceAlerts` shows, in the order it shows them. */
  function Alerts(thresholds: map<string, real>, symbol: string,
                  currentPrice: real, previousPrice: real, change24h: real): (alerts: seq<Alert>)
    ensures |alerts| <= 3
  {
    var instant := InstantChangePercent(currentPrice, previousPrice);
    var threshold :=
      if symbol in thresholds && currentPrice >= thresholds[symbol] && previousPrice < thresholds[symbol]
      then [Alert(PriceAlert, symbol, "")] else [];
    var daily :=
      if Abs(change24h) > 5.0
      then [Alert(SignificantChange, symbol, if change24h > 0.0 then Rise else Fall)] else [];
    var sudden :=
      if Abs(instant) > 2.0
      then [Alert(InstantChange, symbol, if instant > 0.0 then Surge else Plunge)] else [];
    threshold + daily + sudden
  }

  /**
   * Each of the three checks fires exactly when its condition holds: an
   * upward crossing of this symbol's threshold, a 24-hour move beyond 5%,
   * an instant move beyond 2%; no call shows a system alert.
   */
  lemma AlertsFire(thresholds: map<string, real>, symbol: string,
                   currentPrice: real, previousPrice: real, change24h: real)
    ensures var alerts := Alerts(thresholds, symbol, currentPrice, previousPrice, change24h);
      && (Has(alerts, PriceAlert) <==> Crossed(thresholds, symbol, currentPrice, previousPrice))
      && (Has(alerts, SignificantChange) <==> Abs(change24h) > 5.0)
      && (Has(alerts, InstantChange) <==> Abs(InstantChangePercent(currentPrice, previousPrice)) > 2.0)
      && !Has(alerts, SystemAlert)
  {
    var instant := InstantChangePercent(currentPrice, previousPrice);
    var threshold :=
      if symbol in thresholds && currentPrice >= thresholds[symbol] && previousPrice < thresholds[symbol]
      then [Alert(PriceAlert, symbol, "")] else [];
    var daily :=
      if Abs(change24h) > 5.0
      then [Alert(SignificantChange, symbol, if change24h > 0.0 then Rise else Fall)] else [];
    var sudden :=
      if Abs(instant) > 2.0
      then [Alert(InstantChange, symbol, if instant > 0.0 then Surge else Plunge)] else [];
    assert Alerts(thresholds, symbol, currentPrice, previousPrice, change24h) == threshold + daily + sudden;
    HasSingle(threshold);
    HasSingle(daily);
    HasSingle(sudden);
    HasConcat(threshold, daily);
    HasConcat(threshold + daily, sudden);
  }

  /**
   * One call shows its alerts in the order price alert, 24-hour change,
   * instant change, all for the given symbol, each with its direction word.
   */
  lemma AlertsOrder(thresholds: map<string, real>, symbol: string,
                    currentPrice: real, previousPrice: real, change24h: real)
    ensures var alerts := Alerts(thresholds, symbol, currentPrice, previousPrice, change24h);
      && (forall k, l :: 0 <= k < l < |alerts| ==> Rank(alerts[k].kind) < Rank(alerts[l].kind))
      && (forall k :: 0 <= k < |alerts| ==> alerts[k].symbol == symbol)
      && (forall k :: 0 <= k < |alerts| && alerts[k].kind == SignificantChange ==>
            alerts[k].direction == (if change24h > 0.0 then Rise else Fall))
      && (forall k :: 0 <= k < |alerts| && alerts[k].kind == InstantChange ==>
            alerts[k].direction == (if currentPrice > previousPrice then Surge else Plunge))
  {
    var pct := InstantChangePercent(currentPrice, previousPrice);
    if previousPrice > 0.0 {
      InstantChangePercentScaled(currentPrice, previousPrice);
      ScaleOrder(0.0, pct, previousPrice);
    }
  }

  lemma HasSingle(a: seq<Alert>)
    requires |a| <= 1
    ensures forall kind :: Has(a, kind) <==> |a| == 1 && a[0].kind == kind
  {
  }

  lemma HasConcat(a: seq<Alert>, b: seq<Alert>)
    ensures forall kind :: Has(a + b, kind) <==> Has(a, kind) || Has(b, kind)
  {
    forall kind | Has(a + b, kind) ensures Has(a, kind) || Has(b, kind) {
      var k :| 0 <= k < |a + b| && (a + b)[k].kind == kind;
      if k >= |a| { assert b[k - |a|].kind == kind; }
    }
    forall kind | Has(b, kind) ensures Has(a + b, kind) {
      var k :| 0 <= k < |b| && b[k].kind == kind;
      assert (a + b)[k + |a|].kind == kind;
    }
    forall kind | Has(a, kind) ensures Has(a + b, kind) {
      var k :| 0 <= k < |a| && a[k].kind == kind;
      assert (a + b)[k].kind == kind;
    }
  }

  /** Multiplying by a positive factor keeps the order. */
  lemma ScaleOrder(x: real, y: real, p: real)
    requires p > 0.0
    ensures x < y <==> x * p < y * p
  {
    if x < y { assert (y - x) * p > 0.0; }
    else { assert (x - y) * p >= 0.0; }
  }

  /** With a positive previous price, the instant check fires iff the move exceeds a fiftieth of it. */
  lemma InstantChangeFires(currentPrice: real, previousPrice: real)
    requires previousPrice > 0.0
    ensures Abs(InstantChangePercent(currentPrice, previousPrice)) > 2.0
            <==> Abs(currentPrice - previousPrice) * 50.0 > previousPrice
  {
    InstantChangePercentScaled(currentPrice, previousPrice);
    PercentBounds(InstantChangePercent(currentPrice, previousPrice), previousPrice, currentPrice - previousPrice);
  }

  /** A percentage of a positive base beyond plus or minus 2, stated without division. */
  lemma PercentBounds(pct: real, base: real, delta: real)
    requires base > 0.0
    requires pct * base == delta * 100.0
    ensures pct > 2.0 <==> delta * 50.0 > base
    ensures pct < -2.0 <==> -delta * 50.0 > base
  {
    ScaleOrder(2.0, pct, base);
    assert 2.0 < pct <==> 2.0 * base < delta * 100.0;
    ScaleOrder(pct, -2.0, base);
    assert pct < -2.0 <==> delta * 100.0 < -2.0 * base;
  }

  lemma InstantChangeExamples(thresholds: map<string, real>, symbol: string, change24h: real)
    ensures Has(Alerts(thresholds, symbol, 103.0, 100.0, change24h), InstantChange)
    ensures !Has(Alerts(thresholds, symbol, 101.0, 100.0, change24h), InstantChange)
  {
    AlertsFire(thresholds, symbol, 103.0, 100.0, change24h);
    AlertsFire(thresholds, symbol, 101.0, 100.0, change24h);
    InstantChangeFires(103.0, 100.0);
    InstantChangeFires(101.0, 100.0);
  }

  /** The daily-move check has no memory: it fires at the boundary's far side on every call, never at 5 itself. */
  lemma SignificantChangeExamples(thresholds: map<string, real>, symbol: string, p1: real, c1: real, p2: real, c2: real)
    ensures Has(Alerts(thresholds, symbol, c1, p1, 7.0), SignificantChange)
    ensures Has(Alerts(thresholds, symbol, c2, p2, 7.0), SignificantChange)
    ensures !Has(Alerts(thresholds, symbol, c1, p1, 5.0), SignificantChange)
    ensures !Has(Alerts(thresholds, symbol, c1, p1, -5.0), SignificantChange)
  {
    AlertsFire(thresholds, symbol, c1, p1, 7.0);
    AlertsFire(thresholds, symbol, c2, p2, 7.0);
    AlertsFire(thresholds, symbol, c1, p1, 5.0);
    AlertsFire(thresholds, symbol, c1, p1, -5.0);
  }

  /** Without a threshold under this exact key there is never a price alert. */
  lemma NoThresholdNoPriceAlert(thresholds: map<string, real>, symbol: string, cur: real, prev: real, change24h: real)
    requires symbol !in thresholds
    ensures !Has(Alerts(thresholds, symbol, cur, prev, change24h), PriceAlert)
  {
    AlertsFire(thresholds, symbol, cur, prev, change24h);
  }

  /**
   * The alert lists of successive updates along a price series: step `i`
   * goes from `prices[i]` to `prices[i + 1]`.
   */
  function AlertsAlong(thresholds: map<string, real>, symbol: string, prices: seq<real>, change24h: real): seq<seq<Alert>>
    requires |prices| >= 1
  {
    seq(|prices| - 1, i requires 0 <= i < |prices| - 1 =>
      Alerts(thresholds, symbol, prices[i + 1], prices[i], change24h))
  }

  /** Two price alerts for one symbol are always separated by a price below the threshold. */
  lemma OncePerCrossing(thresholds: map<string, real>, symbol: string, prices: seq<real>, change24h: real, i: nat, j: nat)
    requires i < j < |prices| - 1
    requires Has(AlertsAlong(thresholds, symbol, prices, change24h)[i], PriceAlert)
    requires Has(AlertsAlong(thresholds, symbol, prices, change24h)[j], PriceAlert)
    ensures symbol in thresholds
    ensures prices[i + 1] >= thresholds[symbol]
    ensures exists k :: i + 1 < k <= j && prices[k] < thresholds[symbol]
  {
    var t := thresholds[symbol];
    AlertsFire(thresholds, symbol, prices[i + 1], prices[i], change24h);
    AlertsFire(thresholds, symbol, prices[j + 1], prices[j], change24h);
    assert Crossed(thresholds, symbol, prices[j + 1], prices[j]);
    assert Crossed(thresholds, symbol, prices[i + 1], prices[i]);
    assert prices[j] < t <= prices[i + 1];
  }

  /** Prices 9, 11, 12, 8, 11 against a threshold of 10: alerts at 9 to 11 and at 8 to 11 only. */
  lemma CrossingExample(symbol: string)
    ensures var steps := AlertsAlong(map[symbol := 10.0], symbol, [9.0, 11.0, 12.0, 8.0, 11.0], 0.0);
      |steps| == 4 &&
      forall i :: 0 <= i < 4 ==> (Has(steps[i], PriceAlert) <==> i == 0 || i == 3)
  {
    var steps := AlertsAlong(map[symbol := 10.0], symbol, [9.0, 11.0, 12.0, 8.0, 11.0], 0.0);
    forall i | 0 <= i < 4
      ensures Has(steps[i], PriceAlert) <==> i == 0 || i == 3
    {
      var prices := [9.0, 11.0, 12.0, 8.0, 11.0];
      AlertsFire(map[symbol := 10.0], symbol, prices[i + 1], prices[i], 0.0);
    }
  }

  class NotificationService {
    /** `_priceThresholds`. */
    var thresholds: map<string, real>

    constructor ()
      ensures thresholds == map[]
    {
      thresholds := map[];
    }

    /** `SetPriceAlert`: the last write for a key wins; no other key changes. */
    method SetPriceAlert(symbol: string, threshold: real)
      modifies this
      ensures thresholds == old(thresholds)[symbol := threshold]
    {
      thresholds := thresholds[symbol := threshold];
    }

    /** `CheckPriceAlerts`: `shown` are the notifications of this update, in the order they are shown; state is untouched. */
    method CheckPriceAlerts(symbol: string, currentPrice: real, previousPrice: real, change24h: real)
      returns (shown: seq<Alert>)
      ensures shown == Alerts(thresholds, symbol, currentPrice, previousPrice, change24h)
    {
      shown := Alerts(thresholds, symbol, currentPrice, previousPrice, change24h);
    }
  }
}
