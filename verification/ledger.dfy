/** The arithmetic of purchase creation: the running total of line items and
    the stock each line adds to its product, converted through the line's own
    unit. Quantities, prices and factors are exact decimals (`real`). */
module Ledger {
  import opened Base
  import opened Models

  /** One validated line item: `quantity` of `product` counted in `unit`, at
      `price` per counted unit. */
  datatype Line = Line(product: Id, quantity: real, unit: Id, price: real)

  /** Every line names a stored product and a stored unit. */
  predicate LinesResolve(lines: seq<Line>, products: map<Id, Product>, units: map<Id, Unit>) {
    forall i :: 0 <= i < |lines| ==> lines[i].product in products && lines[i].unit in units
  }

  /** The stock a line adds: its quantity times its unit's own conversion
      factor. One hop only: the unit's `baseUnit` is never followed, and the
      product's base unit and allowed units are never consulted. */
  function Converted(l: Line, units: map<Id, Unit>): real
    requires l.unit in units
  {
    l.quantity * units[l.unit].conversionFactor
  }

  /** What one line costs: its price times its quantity. */
  function Amount(l: Line): real {
    l.price * l.quantity
  }

  /** The line amounts accumulated over the lines in input order, starting
      from 0. */
  function LineTotal(lines: seq<Line>): real {
    if |lines| == 0 then 0.0
    else LineTotal(lines[..|lines| - 1]) + Amount(lines[|lines| - 1])
  }

  /** Reference definition of the stock `product` gains from `lines`: the sum
      of the converted quantities of the lines that name it. */
  function Gain(lines: seq<Line>, units: map<Id, Unit>, product: Id): real
    requires forall i :: 0 <= i < |lines| ==> lines[i].unit in units
  {
    if |lines| == 0 then 0.0
    else
      var last := lines[|lines| - 1];
      Gain(lines[..|lines| - 1], units, product) + (if last.product == product then Converted(last, units) else 0.0)
  }

  /** The product table after the lines are applied one at a time, each adding
      its converted quantity to the stock of the product it names. */
  function Restock(products: map<Id, Product>, units: map<Id, Unit>, lines: seq<Line>): (r: map<Id, Product>)
    requires LinesResolve(lines, products, units)
    ensures r.Keys == products.Keys
    ensures forall id :: id in r ==> r[id] == products[id].(stock := r[id].stock)
    ensures forall id :: id in r ==> r[id].stock == products[id].stock + Gain(lines, units, id)
  {
    if |lines| == 0 then products
    else RestockLine(Restock(products, units, lines[..|lines| - 1]), units, lines[|lines| - 1])
  }

  /** The product table after one line: its product's stock grows by the
      line's converted quantity and every other record stays. */
  function RestockLine(products: map<Id, Product>, units: map<Id, Unit>, l: Line): (r: map<Id, Product>)
    requires l.product in products && l.unit in units
  {
    products[l.product := products[l.product].(stock := products[l.product].stock + Converted(l, units))]
  }

  /** Restocking changes no reference a product holds. */
  lemma RestockLinked(products: map<Id, Product>, units: map<Id, Unit>, lines: seq<Line>, companies: set<Id>, unitKeys: set<Id>)
    requires LinesResolve(lines, products, units)
    requires ProductsIn(products, companies, unitKeys)
    ensures ProductsIn(Restock(products, units, lines), companies, unitKeys)
  {
  }

  /** Splitting the lines splits the total. */
  lemma {:induction false} LineTotalAppend(a: seq<Line>, b: seq<Line>)
    ensures LineTotal(a + b) == LineTotal(a) + LineTotal(b)
    decreases |b|
  {
    if |b| == 0 {
      assert a + b == a;
    } else {
      var b' := b[..|b| - 1];
      assert (a + b)[..|a + b| - 1] == a + b';
      LineTotalAppend(a, b');
    }
  }

  /** A product no line names gains nothing. */
  lemma {:induction false} GainUnnamed(lines: seq<Line>, units: map<Id, Unit>, product: Id)
    requires forall i :: 0 <= i < |lines| ==> lines[i].unit in units
    requires forall i :: 0 <= i < |lines| ==> lines[i].product != product
    ensures Gain(lines, units, product) == 0.0
  {
    if |lines| > 0 {
      GainUnnamed(lines[..|lines| - 1], units, product);
    }
  }

  /** A product named by exactly one line, line `i`, gains exactly that line's
      quantity times its unit's conversion factor. */
  lemma {:induction false} GainSingle(lines: seq<Line>, units: map<Id, Unit>, i: nat)
    requires forall k :: 0 <= k < |lines| ==> lines[k].unit in units
    requires i < |lines|
    requires forall k :: 0 <= k < |lines| && k != i ==> lines[k].product != lines[i].product
    ensures Gain(lines, units, lines[i].product) == lines[i].quantity * units[lines[i].unit].conversionFactor
  {
    var p := lines[i].product;
    var prefix := lines[..|lines| - 1];
    if i == |lines| - 1 {
      GainUnnamed(prefix, units, p);
    } else {
      assert prefix[i] == lines[i];
      GainSingle(prefix, units, i);
    }
  }

  /** Conversion is one hop: two unit tables that agree on the conversion
      factor of every unit the lines name give every product the same gain,
      whatever their base units, names or companies. */
  lemma {:induction false} GainOneHop(lines: seq<Line>, units: map<Id, Unit>, units': map<Id, Unit>, product: Id)
    requires forall i :: 0 <= i < |lines| ==> lines[i].unit in units && lines[i].unit in units'
    requires forall i :: 0 <= i < |lines| ==>
      units[lines[i].unit].conversionFactor == units'[lines[i].unit].conversionFactor
    ensures Gain(lines, units, product) == Gain(lines, units', product)
  {
    if |lines| > 0 {
      GainOneHop(lines[..|lines| - 1], units, units', product);
    }
  }

  /** Restocking as seen from one product: a product no line names keeps its
      record, and a product named by exactly one line gains that line's
      quantity times the line unit's conversion factor. */
  lemma RestockOneProduct(products: map<Id, Product>, units: map<Id, Unit>, lines: seq<Line>, product: Id)
    requires LinesResolve(lines, products, units)
    requires product in products
    ensures (forall i :: 0 <= i < |lines| ==> lines[i].product != product) ==>
      Restock(products, units, lines)[product] == products[product]
    ensures forall i :: (0 <= i < |lines| && lines[i].product == product &&
                         (forall k :: 0 <= k < |lines| && k != i ==> lines[k].product != product)) ==>
      Restock(products, units, lines)[product].stock == products[product].stock + lines[i].quantity * units[lines[i].unit].conversionFactor
  {
    if forall i :: 0 <= i < |lines| ==> lines[i].product != product {
      GainUnnamed(lines, units, product);
    }
    forall i | 0 <= i < |lines| && lines[i].product == product &&
               (forall k :: 0 <= k < |lines| && k != i ==> lines[k].product != product)
      ensures Restock(products, units, lines)[product].stock == products[product].stock + lines[i].quantity * units[lines[i].unit].conversionFactor
    {
      GainSingle(lines, units, i);
    }
  }
}
