/**
 * The observable price record of one crypto-currency (Models/CryptoCurrency.cs).
 *
 * `decimal` is modelled as `real` and `DateTime` as a tick count (`int`, with
 * `default(DateTime)` as 0). The `PropertyChanged` event is modelled as the
 * log `changes` of property names, appended to in the order the source raises
 * them, whether or not a handler is attached.
 */
module Models {

  /** The initial `Status` of a fresh record. */
  const Offline := "離線"

  /** The values of all seven fields of a `CryptoCurrency`. */
  datatype CryptoFields = CryptoFields(
    symbol: string,
    name: string,
    price: real,
    change24h: real,
    marketCap: real,
    lastUpdate: int,
    status: string)
  {
    /** `IsPositiveChange`: the 24-hour change is above zero. */
    predicate IsPositiveChange() { change24h > 0.0 }

    /** `IsNegativeChange`: the 24-hour change is below zero. */
    predicate IsNegativeChange() { change24h < 0.0 }
  }

  /** The field initialisers of the class. */
  const Defaults := CryptoFields("", "", 0.0, 0.0, 0.0, 0, Offline)

  /** What `SetProperty` does to its `ref` field, the events it raises and what it returns. */
  datatype PropertyWrite<T> = PropertyWrite(field: T, raised: seq<string>, changed: bool)

  /**
   * `SetProperty(ref field, value, propertyName)`: an equal value is a no-op
   * that returns false; otherwise the field takes the value, exactly one
   * `PropertyChanged` for `propertyName` is raised, and the result is true.
   */
  function SetProperty<T(==)>(field: T, value: T, propertyName: string): (w: PropertyWrite<T>)
    ensures w.field == value
    ensures w.changed <==> field != value
    ensures w.raised == (if w.changed then [propertyName] else [])
  {
    if field == value then PropertyWrite(field, [], false)
    else PropertyWrite(value, [propertyName], true)
  }

  /** Setting the same value twice in a row: the second set is a no-op. */
  lemma SetPropertyTwice<T>(field: T, value: T, propertyName: string)
    ensures var first := SetProperty(field, value, propertyName);
            SetProperty(first.field, value, propertyName) == PropertyWrite(value, [], false)
  {
  }

  /** The two derived flags are never both set, and both are clear at zero. */
  lemma ChangeFlags(f: CryptoFields)
    ensures !(f.IsPositiveChange() && f.IsNegativeChange())
    ensures f.change24h == 0.0 ==> !f.IsPositiveChange() && !f.IsNegativeChange()
    ensures f.change24h != 0.0 ==> f.IsPositiveChange() || f.IsNegativeChange()
  {
  }

  /** The notifications the `Change24h` setter raises for a new value. */
  function Change24hNotes(current: real, value: real): (notes: seq<string>)
    ensures |notes| == (if current == value then 2 else 3)
    ensures notes[|notes| - 2..] == ["IsPositiveChange", "IsNegativeChange"]
    ensures current != value ==> notes[0] == "Change24h"
  {
    SetProperty(current, value, "Change24h").raised + ["IsPositiveChange", "IsNegativeChange"]
  }

  class CryptoCurrency {
    var symbol: string
    var name: string
    var price: real
    var change24h: real
    var marketCap: real
    var lastUpdate: int
    var status: string
    /** Every `PropertyChanged` raised so far, by property name. */
    var changes: seq<string>

    function Fields(): CryptoFields
      reads this
    {
      CryptoFields(symbol, name, price, change24h, marketCap, lastUpdate, status)
    }

    function IsPositiveChange(): (b: bool)
      reads this
      ensures b <==> Fields().IsPositiveChange()
    {
      change24h > 0.0
    }

    function IsNegativeChange(): (b: bool)
      reads this
      ensures b <==> Fields().IsNegativeChange()
    {
      change24h < 0.0
    }

    constructor ()
      ensures Fields() == Defaults
      ensures changes == []
    {
      symbol, name, price, change24h, marketCap := "", "", 0.0, 0.0, 0.0;
      lastUpdate, status := 0, Offline;
      changes := [];
    }

    method SetSymbol(value: string)
      modifies this
      ensures Fields() == old(Fields()).(symbol := value)
      ensures changes == old(changes) + SetProperty(old(symbol), value, "Symbol").raised
    {
      var w := SetProperty(symbol, value, "Symbol");
      symbol, changes := w.field, changes + w.raised;
    }

    method SetName(value: string)
      modifies this
      ensures Fields() == old(Fields()).(name := value)
      ensures changes == old(changes) + SetProperty(old(name), value, "Name").raised
    {
      var w := SetProperty(name, value, "Name");
      name, changes := w.field, changes + w.raised;
    }

    method SetPrice(value: real)
      modifies this
      ensures Fields() == old(Fields()).(price := value)
      ensures changes == old(changes) + SetProperty(old(price), value, "Price").raised
    {
      var w := SetProperty(price, value, "Price");
      price, changes := w.field, changes + w.raised;
    }

    /** Unlike the other setters, this one always raises the two flag notifications. */
    method SetChange24h(value: real)
      modifies this
      ensures Fields() == old(Fields()).(change24h := value)
      ensures changes == old(changes) + Change24hNotes(old(change24h), value)
    {
      var w := SetProperty(change24h, value, "Change24h");
      change24h, changes := w.field, changes + w.raised;
      changes := changes + ["IsPositiveChange"];
      changes := changes + ["IsNegativeChange"];
    }

    method SetMarketCap(value: real)
      modifies this
      ensures Fields() == old(Fields()).(marketCap := value)
      ensures changes == old(changes) + SetProperty(old(marketCap), value, "MarketCap").raised
    {
      var w := SetProperty(marketCap, value, "MarketCap");
      marketCap, changes := w.field, changes + w.raised;
    }

    method SetLastUpdate(value: int)
      modifies this
      ensures Fields() == old(Fields()).(lastUpdate := value)
      ensures changes == old(changes) + SetProperty(old(lastUpdate), value, "LastUpdate").raised
    {
      var w := SetProperty(lastUpdate, value, "LastUpdate");
      lastUpdate, changes := w.field, changes + w.raised;
    }

    method SetStatus(value: string)
      modifies this
      ensures Fields() == old(Fields()).(status := value)
      ensures changes == old(changes) + SetProperty(old(status), value, "Status").raised
    {
      var w := SetProperty(status, value, "Status");
      status, changes := w.field, changes + w.raised;
    }
  }
}
