/** Where the booking card's quote (components/shared/Summurycard3.jsx) and
    the checkout route (app/api/checkout/route.js) agree and where they part:
    the per-room mode, a supplied night count, dates off midnight, dates out
    of order, repeated add-ons and the 10% fee. */
module PricingDivergence {
  import opened JsSemantics
  import Card = BookingQuote
  import Form = BookingValidation
  import Route = CheckoutRoute

  /* ---------------------------- guests ------------------------------ */

  /** For a per-room package (any mode other than "person") the card's
      base is rate × nights whatever the party size, while the route always
      multiplies by the guests: with the same rate and nights the route's
      base is guests times the card's, so the two differ for a party of two
      or more at a non-zero rate. */
  lemma PerRoomVersusPerGuest(rate: real, mode: string, nights: int, adults: real, children: real, guests: int)
    requires mode != "person" && nights >= 1
    ensures var card := Card.BaseTotal(rate, nights, Card.GuestMultiplier(mode, adults, children));
            Route.BaseUSD(rate, Some(nights), guests) == Finite(card * guests as real)
    ensures var card := Card.BaseTotal(rate, nights, Card.GuestMultiplier(mode, adults, children));
            guests > 1 && rate != 0.0 ==> Route.BaseUSD(rate, Some(nights), guests) != Finite(card)
  {
    var card := Card.BaseTotal(rate, nights, Card.GuestMultiplier(mode, adults, children));
    var perNight := rate * nights as real;
    assert card == perNight;
    assert Route.BaseUSD(rate, Some(nights), guests) == Finite(perNight * guests as real);
    if guests > 1 && rate != 0.0 {
      NonZeroProduct(rate, nights);
      ScaledDiffers(perNight, guests);
    }
  }

  lemma NonZeroProduct(x: real, n: int)
    requires x != 0.0 && n >= 1
    ensures x * n as real != 0.0
  {
  }

  lemma ScaledDiffers(y: real, g: int)
    requires y != 0.0 && g > 1
    ensures y * g as real != y
  {
    assert y * g as real - y == y * (g - 1) as real;
  }

  /** In "person" mode with whole counts the two agree: the card's
      travellers are the route's guests. */
  lemma PerPersonAgrees(rate: real, nights: int, a: int, c: int)
    requires a >= 1 && c >= 0
    ensures Route.BaseUSD(rate, Some(nights), a + c) ==
              Finite(Card.BaseTotal(rate, nights, Card.GuestMultiplier("person", a as real, c as real)))
  {
    assert MaxReal(1.0, a as real + c as real) == (a + c) as real;
  }

  /* ---------------------------- nights ------------------------------ */

  /** The route trusts a supplied count of nights; the card always derives
      the nights from the dates, so a supplied count other than the card's
      is charged as supplied. */
  lemma SuppliedNightsDiverge(body: Route.CheckoutBody, parse: string -> Option<int>, k: int)
    requires ParseInt(body.nights) == Some(k) && k >= 1
    requires body.checkIn.Some? && body.checkOut.Some?
    requires k != Card.ModalNights(body.checkIn.value, body.checkOut.value, parse)
    ensures Route.Nights(body, parse) == k
    ensures Route.Nights(body, parse) != Card.ModalNights(body.checkIn.value, body.checkOut.value, parse)
  {
    Route.NightsRule(body, parse);
  }

  /** When no count is supplied and both dates are midnights, the route's
      recomputed nights are the card's nights. */
  lemma NightsAgreeAtMidnight(body: Route.CheckoutBody, parse: string -> Option<int>)
    requires !(ParseInt(body.nights).Some? && ParseInt(body.nights).value >= 1)
    requires Route.Truthy(body.checkIn) && Route.Truthy(body.checkOut)
    requires parse(body.checkIn.value).Some? && parse(body.checkOut.value).Some?
    requires parse(body.checkIn.value).value % DAY_MS == 0 && parse(body.checkOut.value).value % DAY_MS == 0
    ensures Route.Nights(body, parse) == Card.ModalNights(body.checkIn.value, body.checkOut.value, parse)
  {
    Route.NightsRule(body, parse);
    var i := parse(body.checkIn.value).value;
    var o := parse(body.checkOut.value).value;
    var days := o / DAY_MS - i / DAY_MS;
    assert o - i == DAY_MS * days;
    var card := Card.ModalNights(body.checkIn.value, body.checkOut.value, parse);
    if i < o {
      assert (o - i) as real / DAY_MS as real == days as real;
      assert card == days;
    }
  }

  /** Off midnight they can differ: from midnight to one millisecond past
      the next midnight the card counts 2 nights and the route 1. */
  lemma NightsDifferOffMidnight(body: Route.CheckoutBody, parse: string -> Option<int>)
    requires !(ParseInt(body.nights).Some? && ParseInt(body.nights).value >= 1)
    requires Route.Truthy(body.checkIn) && Route.Truthy(body.checkOut)
    requires parse(body.checkIn.value) == Some(0) && parse(body.checkOut.value) == Some(DAY_MS + 1)
    ensures Route.Nights(body, parse) == 1
    ensures Card.ModalNights(body.checkIn.value, body.checkOut.value, parse) == 2
  {
    Route.NightsRule(body, parse);
  }

  /** Dates out of order: the card's form refuses them on `checkOut`, while
      the route charges one night. */
  lemma RouteClampsWhatFormRejects(p: Card.PackageRecord, d: Card.Draft, parse: string -> Option<int>,
                                   body: Route.CheckoutBody)
    requires d.checkIn != "" && d.checkOut != ""
    requires parse(d.checkIn).Some? && parse(d.checkOut).Some?
    requires parse(d.checkOut).value <= parse(d.checkIn).value
    requires body.checkIn == Some(d.checkIn) && body.checkOut == Some(d.checkOut)
    requires !(ParseInt(body.nights).Some? && ParseInt(body.nights).value >= 1)
    ensures Form.Validate(p, d, parse).Invalid?
    ensures Route.Nights(body, parse) == 1
  {
    Form.OrderRejected(p, d, parse);
    Route.NightsRule(body, parse);
    var i := parse(d.checkIn).value;
    var o := parse(d.checkOut).value;
    assert o / DAY_MS <= i / DAY_MS;
  }

  /* ---------------------------- add-ons ----------------------------- */

  /** The card's add-on list never repeats a key. */
  lemma CardKeysDistinct(x: Card.Extras)
    ensures var keys := Card.ToAddOnsArray(x.Entries());
            forall i, j :: 0 <= i < j < |keys| ==> keys[i] != keys[j]
  {
    Card.SelectedKeys(x);
  }

  /** The route charges a repeated id once per occurrence, so a body that
      repeats an add-on costs more than the card would show. */
  lemma RouteChargesRepeats(addOns: map<string, Route.RouteAddOn>, id: string)
    requires id in addOns
    ensures Route.AddOnsTotal(addOns, [id, id]) == 2.0 * Route.AddOnsTotal(addOns, [id])
    ensures |Route.AddOnLines(addOns, [id, id])| == 2
  {
    Route.DuplicatesCounted(addOns, [], id);
    assert [] + [id, id] == [id, id];
    assert [id][..0] == [];
  }

  /* ---------------------------- fees -------------------------------- */

  /** With `FEES_RATE` set to 10 or to 0.1 the route's fee on a subtotal is
      the card's 10% tax on it; on a whole subtotal both are (s + 5) / 10. */
  lemma FeesMatchCardTaxes(feesRate: JsValue, base: real, addOnsUSD: real)
    requires feesRate == Number(Finite(10.0)) || feesRate == Number(Finite(0.1))
    ensures Route.FeesUSD(Finite(base), addOnsUSD, Route.FeeRate(feesRate)) ==
              Finite(Card.Taxes(base + addOnsUSD) as real)
  {
    Route.FeeRateBounds(feesRate);
  }

  lemma WholeFees(feesRate: JsValue, s: int)
    requires feesRate == Number(Finite(10.0)) || feesRate == Number(Finite(0.1))
    ensures Route.FeesUSD(Finite(s as real), 0.0, Route.FeeRate(feesRate)) == Finite(((s + 5) / 10) as real)
  {
    FeesMatchCardTaxes(feesRate, s as real, 0.0);
    Card.TaxesOfWholeSubtotal(s);
  }
}
