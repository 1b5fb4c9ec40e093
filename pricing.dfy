/** The suggested price of a contract: the plan's monthly price spread over a fixed 30-day month,
    times the on-air days, minus the discount, never below zero, rounded to cents. */
module Pricing {
  import opened Wrappers

  /** `toFixed(2)` on exact rationals: round half up to a multiple of 0.01. */
  function RoundCents(x: real): (r: real)
    ensures x - 0.005 < r <= x + 0.005
    ensures (r * 100.0).Floor as real == r * 100.0
  {
    ((x * 100.0 + 0.5).Floor as real) / 100.0
  }

  lemma RoundCentsMonotone(x: real, y: real)
    requires x <= y
    ensures RoundCents(x) <= RoundCents(y)
  {
    assert (x * 100.0 + 0.5).Floor <= (y * 100.0 + 0.5).Floor;
  }

  /** `parseFloat(descuento) || 0`: an empty or non-numeric discount counts as zero. */
  function DiscountValue(descuento: Option<real>): (r: real)
    ensures descuento.None? ==> r == 0.0
    ensures descuento.Some? ==> r == descuento.value
  {
    descuento.GetOr(0.0)
  }

  /** The amount before clamping and rounding. */
  function NetAmount(precioMes: real, activos: nat, descuento: Option<real>): real {
    precioMes / 30.0 * activos as real - DiscountValue(descuento)
  }

  /** `precioFinal > 0 ? precioFinal.toFixed(2) : '0.00'`. */
  function Price(precioMes: real, activos: nat, descuento: Option<real>): (r: real)
    ensures r >= 0.0
    ensures NetAmount(precioMes, activos, descuento) <= 0.0 ==> r == 0.0
    ensures NetAmount(precioMes, activos, descuento) > 0.0 ==>
      NetAmount(precioMes, activos, descuento) - 0.005 < r <= NetAmount(precioMes, activos, descuento) + 0.005
    ensures NetAmount(precioMes, activos, descuento) > 0.0 ==> r == RoundCents(NetAmount(precioMes, activos, descuento))
  {
    var net := NetAmount(precioMes, activos, descuento);
    if net > 0.0 then RoundCents(net) else 0.0
  }

  /** With no weekday selected the price is 0, unless the discount is negative: then it is the
      discount's absolute value, rounded to cents. */
  lemma EmptySelectionPrice(precioMes: real, descuento: Option<real>)
    ensures Price(precioMes, 0, descuento) ==
            if DiscountValue(descuento) < 0.0 then RoundCents(-DiscountValue(descuento)) else 0.0
  {
  }

  /** More on-air days never lower the price of a plan with a non-negative monthly price. */
  lemma PriceMonotoneInDays(precioMes: real, a: nat, b: nat, descuento: Option<real>)
    requires precioMes >= 0.0 && a <= b
    ensures Price(precioMes, a, descuento) <= Price(precioMes, b, descuento)
  {
    assert precioMes / 30.0 * a as real <= precioMes / 30.0 * b as real;
    var na, nb := NetAmount(precioMes, a, descuento), NetAmount(precioMes, b, descuento);
    if na > 0.0 {
      RoundCentsMonotone(na, nb);
    }
  }

  /** A larger discount never raises the price. */
  lemma PriceAntitoneInDiscount(precioMes: real, activos: nat, d1: real, d2: real)
    requires d1 <= d2
    ensures Price(precioMes, activos, Some(d2)) <= Price(precioMes, activos, Some(d1))
  {
    var n1, n2 := NetAmount(precioMes, activos, Some(d1)), NetAmount(precioMes, activos, Some(d2));
    if n2 > 0.0 {
      RoundCentsMonotone(n2, n1);
    }
  }

  /** A monthly price of 300.00 over 5 on-air days with a discount of 10.00 costs 40.00. */
  lemma PriceExample()
    ensures Price(300.0, 5, Some(10.0)) == 40.0
    ensures Price(300.0, 5, None) == 50.0
    ensures Price(300.0, 5, Some(60.0)) == 0.0
  {
    assert NetAmount(300.0, 5, Some(10.0)) == 40.0;
    assert (40.0 * 100.0 + 0.5).Floor == 4000;
    assert NetAmount(300.0, 5, None) == 50.0;
    assert (50.0 * 100.0 + 0.5).Floor == 5000;
  }
}
