/** The checkout endpoint (`POST` in app/api/checkout/route.js) up to the
    point where it hands the line items and metadata to the payment
    provider: the numeric helpers, the two early rejections, the guest and
    night counts, the add-on loop, the fee line and the metadata strings.
    The catalogs `PACKAGES`, `ADDONS` and `FEES_RATE` are a parameter, the
    secret key is a string ("" when unset) and `new Date(s).getTime()` is the
    function `parse` (None for an invalid date). */
module CheckoutRoute {
  import opened JsSemantics

  datatype RoutePackage = RoutePackage(nightly: JsValue, name: string)

  datatype RouteAddOn = RouteAddOn(price: JsValue, name: string)

  /** `PACKAGES`, `ADDONS` and `FEES_RATE`. */
  datatype Catalog = Catalog(packages: map<string, RoutePackage>, addOns: map<string, RouteAddOn>,
                             feesRate: JsValue)

  /** The JSON body after destructuring. A missing or null date is None, a
      missing or non-array `addOns` is None, a missing field among the
      numbers is `Undefined`. */
  datatype CheckoutBody = CheckoutBody(packageId: Option<string>, checkIn: Option<string>,
                                       checkOut: Option<string>, adults: JsValue, children: JsValue,
                                       nights: JsValue, addOns: Option<seq<string>>, title: Option<string>)

  /** One line item; every item is in "usd" with quantity 1. */
  datatype LineItem = LineItem(unitAmount: int, name: string, description: Option<string>)

  datatype Metadata = Metadata(packageId: Option<string>, checkIn: string, checkOut: string,
                               adults: string, children: string, nights: string, addOns: string)

  /** What the route answers: an error with its status, or the session it
      asks the payment provider for. */
  datatype Response = Rejected(status: int, error: string) | Session(lineItems: seq<LineItem>, metadata: Metadata)

  /* ---------------------------- numeric helpers --------------------- */

  /** `num(v, d)`: `Number(v)` when that is finite, `d` otherwise. */
  function NumOr(v: JsValue, d: real): real {
    match ToNumber(v)
    case Finite(x) => x
    case NonFinite => d
  }

  /** The default is taken exactly for the values `Number` cannot read;
      null and the empty string are 0, not the default. */
  lemma NumOrDefault(v: JsValue, d: real)
    ensures ToNumber(v).NonFinite? ==> NumOr(v, d) == d
    ensures ToNumber(v).Finite? ==> NumOr(v, d) == ToNumber(v).v
    ensures NumOr(Undefined, d) == d && NumOr(Obj, d) == d
    ensures NumOr(Null, d) == 0.0 && NumOr(Str(""), d) == 0.0
  {
    assert Trim("") == "";
  }

  /** The cents heuristic: a whole number of at least 1000 that 100 divides. */
  predicate LooksLikeCents(x: real) {
    IsInteger(x) && x >= 1000.0 && x.Floor % 100 == 0
  }

  /** `asUSD`: the amount read with `num(v, 0)`, then the cents heuristic. */
  function AsUSD(v: JsValue): real {
    FromCents(NumOr(v, 0.0))
  }

  /** An amount that looks like cents divided by 100, any other unchanged. */
  function FromCents(n: real): real {
    if LooksLikeCents(n) then n / 100.0 else n
  }

  /** `asUSD` changes its input exactly when the input looks like cents,
      and then divides it by 100. */
  lemma AsUSDConvertsExactlyCents(v: JsValue)
    ensures AsUSD(v) != NumOr(v, 0.0) <==> LooksLikeCents(NumOr(v, 0.0))
    ensures LooksLikeCents(NumOr(v, 0.0)) ==> AsUSD(v) * 100.0 == NumOr(v, 0.0)
  {
  }

  /** A whole amount stays whole: the division only happens when 100
      divides the amount. */
  lemma AsUSDKeepsIntegers(v: JsValue)
    requires IsInteger(NumOr(v, 0.0))
    ensures IsInteger(AsUSD(v))
  {
    var n := NumOr(v, 0.0);
    assert AsUSD(v) == FromCents(n);
    if LooksLikeCents(n) {
      CentsAreWholeDollars(n);
    }
  }

  lemma CentsAreWholeDollars(x: real)
    requires LooksLikeCents(x)
    ensures IsInteger(x / 100.0)
  {
    var q := x.Floor / 100;
    assert x.Floor == 100 * q;
    assert x == (100 * q) as real;
    assert x / 100.0 == q as real;
  }

  /** A price given in cents (10 dollars or more) is read as dollars. */
  lemma AsUSDReadsCents(k: int)
    requires k >= 10
    ensures AsUSD(Number(Finite((100 * k) as real))) == k as real
  {
    assert ((100 * k) as real).Floor == 100 * k;
    assert (100 * k) % 100 == 0;
  }

  /** The heuristic cannot tell 1200 cents from 1200 dollars: both `1200`
      and `12` come out as 12 dollars, while `999` is taken as dollars. */
  lemma AsUSDAmbiguous()
    ensures AsUSD(Number(Finite(1200.0))) == AsUSD(Number(Finite(12.0))) == 12.0
    ensures AsUSD(Number(Finite(999.0))) == 999.0
  {
    assert (1200.0).Floor == 1200;
  }

  /** `toCents`: dollars times 100, rounded; a non-finite amount is 0. */
  function ToCents(usd: JsNumber): (c: int)
    ensures usd.Finite? ==> usd.v * 100.0 - 0.5 < c as real <= usd.v * 100.0 + 0.5
    ensures usd.NonFinite? ==> c == 0
  {
    match usd
    case Finite(x) => Round(x * 100.0)
    case NonFinite => 0
  }

  /** Whole dollars are exactly 100 cents each. */
  lemma ToCentsWhole(k: int)
    ensures ToCents(Finite(k as real)) == 100 * k
  {
  }

  /** A price in cents comes back unchanged: `toCents(asUSD(100k)) == 100k`. */
  lemma CentsRoundTrip(k: int)
    requires k >= 10
    ensures ToCents(Finite(AsUSD(Number(Finite((100 * k) as real))))) == 100 * k
  {
    AsUSDReadsCents(k);
    ToCentsWhole(k);
  }

  /** `feeRate`: a configured rate above 1 is a percentage. */
  function FeeRate(feesRate: JsValue): real {
    var r := NumOr(feesRate, 0.0);
    if r > 1.0 then r / 100.0 else r
  }

  /** For every configured value: above 1 it is a percentage and is divided
      by 100, at or below 1 it is kept as the fraction; unset, it is 0. */
  lemma FeeRateRule(v: JsValue)
    ensures NumOr(v, 0.0) > 1.0 ==> FeeRate(v) == NumOr(v, 0.0) / 100.0
    ensures NumOr(v, 0.0) <= 1.0 ==> FeeRate(v) == NumOr(v, 0.0)
    ensures FeeRate(Undefined) == 0.0
  {
  }

  /** With `FEES_RATE` unset the fee is 0, so no fee item is pushed. */
  lemma UnsetRateNoFeeItem(base: real, addOnsUSD: real)
    ensures FeesUSD(Finite(base), addOnsUSD, FeeRate(Undefined)) == Finite(0.0)
    ensures FeeLines(FeesUSD(Finite(base), addOnsUSD, FeeRate(Undefined)), FeeRate(Undefined)) == []
  {
    FeeRateRule(Undefined);
    assert (base + addOnsUSD) * 0.0 == 0.0;
  }

  /** A percentage between 1 (exclusive) and 100 and the same rate written
      as a fraction give the same rate; 10 and 0.1 are both 10%. */
  lemma FeeRatePercentOrFraction(p: real)
    requires 1.0 < p <= 100.0
    ensures FeeRate(Number(Finite(p))) == p / 100.0
    ensures FeeRate(Number(Finite(p / 100.0))) == p / 100.0
  {
  }

  /** The rate read as a fraction never exceeds 1 when the configured value
      is at most 100; a configured 1 is a rate of 1 (100%), not 1%. */
  lemma FeeRateBounds(v: JsValue)
    requires NumOr(v, 0.0) <= 100.0
    ensures FeeRate(v) <= 1.0
    ensures NumOr(v, 0.0) == 1.0 ==> FeeRate(v) == 1.0
    ensures FeeRate(Number(Finite(10.0))) == FeeRate(Number(Finite(0.1))) == 0.1
  {
  }

  /* ---------------------------- guests ------------------------------ */

  /** `parseInt(x, 10) || fallback`: NaN and 0 give the fallback. */
  function ParseIntOr(v: JsValue, fallback: int): int {
    var p := ParseInt(v);
    if p.None? || p.value == 0 then fallback else p.value
  }

  /** `A`: `adults` (1 when absent) parsed, at least 1. */
  function AdultsCount(adults: JsValue): int {
    Max(1, ParseIntOr(if adults == Undefined then Number(Finite(1.0)) else adults, 1))
  }

  /** `C`: `children` (0 when absent) parsed, at least 0. */
  function ChildrenCount(children: JsValue): int {
    Max(0, ParseIntOr(if children == Undefined then Number(Finite(0.0)) else children, 0))
  }

  /** A is the parsed adult count when that is at least 1 and 1 otherwise;
      C is the parsed child count when that is at least 0 and 0 otherwise;
      so there is always at least one guest. */
  lemma GuestCounts(adults: JsValue, children: JsValue)
    ensures (adults != Undefined && ParseInt(adults).Some? && ParseInt(adults).value >= 1) ==>
              AdultsCount(adults) == ParseInt(adults).value
    ensures !(adults != Undefined && ParseInt(adults).Some? && ParseInt(adults).value >= 1) ==>
              AdultsCount(adults) == 1
    ensures (children != Undefined && ParseInt(children).Some? && ParseInt(children).value >= 0) ==>
              ChildrenCount(children) == ParseInt(children).value
    ensures !(children != Undefined && ParseInt(children).Some? && ParseInt(children).value >= 0) ==>
              ChildrenCount(children) == 0
    ensures AdultsCount(adults) + ChildrenCount(children) >= 1
  {
    assert Trunc(1.0) == 1 && Trunc(0.0) == 0;
  }

  /* ---------------------------- nights ------------------------------ */

  /** A JavaScript truthy string: present and not empty. */
  predicate Truthy(s: Option<string>) {
    s.Some? && s.value != ""
  }

  /** `s || fallback` for an optional string. */
  function OrText(s: Option<string>, fallback: string): string {
    if Truthy(s) then s.value else fallback
  }

  /** `setHours(0, 0, 0, 0)`: the midnight on or before a time. */
  function StartOfDay(ms: int): int {
    ms - ms % DAY_MS
  }

  /** `max(1, ceil((midnight(out) - midnight(in)) / day))`. */
  function RecomputedNights(inMs: int, outMs: int): int {
    Max(1, Ceil((StartOfDay(outMs) - StartOfDay(inMs)) as real / DAY_MS as real))
  }

  /** Midnights are whole days apart, so the recomputed count is the
      difference of the day numbers, at least 1. */
  lemma RecomputedIsDayDifference(inMs: int, outMs: int)
    ensures RecomputedNights(inMs, outMs) == Max(1, outMs / DAY_MS - inMs / DAY_MS)
  {
    var days := outMs / DAY_MS - inMs / DAY_MS;
    assert StartOfDay(outMs) - StartOfDay(inMs) == DAY_MS * days;
    assert (DAY_MS * days) as real / DAY_MS as real == days as real;
  }

  /** The nights `n` as the route computes them: a supplied `nights` that
      parses to at least 1, else the recomputed count when both dates are
      present, else 1. None stands for NaN, which the recomputation yields
      when a present date does not parse. */
  function NightsAsWritten(body: CheckoutBody, parse: string -> Option<int>): Option<int> {
    var supplied := ParseInt(body.nights);
    if supplied.Some? && supplied.value >= 1 then supplied
    else if Truthy(body.checkIn) && Truthy(body.checkOut) then
      var inMs := parse(body.checkIn.value);
      var outMs := parse(body.checkOut.value);
      if inMs.Some? && outMs.Some? then Some(RecomputedNights(inMs.value, outMs.value)) else None
    else Some(1)
  }

  /** The nights the route evidently means: as written, with a NaN count
      replaced by 1 as the booking card does. */
  function Nights(body: CheckoutBody, parse: string -> Option<int>): (n: int)
    ensures n >= 1
  {
    match NightsAsWritten(body, parse)
    case Some(k) => k
    case None => 1
  }

  /** The nights rule: a supplied count of at least 1 is trusted as it is;
      otherwise two parsable dates give the day difference (at least 1), and
      anything else gives 1. */
  lemma NightsRule(body: CheckoutBody, parse: string -> Option<int>)
    ensures ParseInt(body.nights).Some? && ParseInt(body.nights).value >= 1 ==>
              Nights(body, parse) == ParseInt(body.nights).value
    ensures (!(ParseInt(body.nights).Some? && ParseInt(body.nights).value >= 1) &&
             Truthy(body.checkIn) && Truthy(body.checkOut) &&
             parse(body.checkIn.value).Some? && parse(body.checkOut.value).Some?) ==>
              Nights(body, parse) ==
                Max(1, parse(body.checkOut.value).value / DAY_MS - parse(body.checkIn.value).value / DAY_MS)
    ensures (!(ParseInt(body.nights).Some? && ParseInt(body.nights).value >= 1) &&
             !(Truthy(body.checkIn) && Truthy(body.checkOut))) ==> Nights(body, parse) == 1
  {
    if Truthy(body.checkIn) && Truthy(body.checkOut) &&
       parse(body.checkIn.value).Some? && parse(body.checkOut.value).Some? {
      RecomputedIsDayDifference(parse(body.checkIn.value).value, parse(body.checkOut.value).value);
    }
  }

  /* ---------------------------- add-ons ----------------------------- */

  /** The ids the loop walks: `addOns` when it is an array, else none. */
  function AddOnIds(body: CheckoutBody): seq<string> {
    if body.addOns.Some? then body.addOns.value else []
  }

  /** The line item of a known add-on, named by `a.name || id`. */
  function AddOnLine(addOns: map<string, RouteAddOn>, id: string): LineItem
    requires id in addOns
  {
    var a := addOns[id];
    LineItem(ToCents(Finite(AsUSD(a.price))), if a.name != "" then a.name else id, None)
  }

  /** The price of an id: its `asUSD` price if known, nothing otherwise. */
  function AddOnPrice(addOns: map<string, RouteAddOn>, id: string): real {
    if id in addOns then AsUSD(addOns[id].price) else 0.0
  }

  /** `addOnsUSD` after the loop has read `ids`. */
  function AddOnsTotal(addOns: map<string, RouteAddOn>, ids: seq<string>): real {
    if ids == [] then 0.0
    else AddOnsTotal(addOns, ids[..|ids| - 1]) + AddOnPrice(addOns, ids[|ids| - 1])
  }

  /** `addOnLineItems` after the loop has read `ids`. */
  function AddOnLines(addOns: map<string, RouteAddOn>, ids: seq<string>): seq<LineItem> {
    if ids == [] then []
    else
      var last := ids[|ids| - 1];
      AddOnLines(addOns, ids[..|ids| - 1]) + (if last in addOns then [AddOnLine(addOns, last)] else [])
  }

  /** The known ids of a list, in list order, duplicates kept. */
  function KnownIds(addOns: map<string, RouteAddOn>, ids: seq<string>): (known: seq<string>)
    ensures forall i :: 0 <= i < |known| ==> known[i] in addOns
  {
    if ids == [] then []
    else
      var last := ids[|ids| - 1];
      KnownIds(addOns, ids[..|ids| - 1]) + (if last in addOns then [last] else [])
  }

  /** Reading the ids in two parts gives the sum and the items of both
      parts, the first part's items first. */
  lemma {:induction false} AddOnsAppend(addOns: map<string, RouteAddOn>, a: seq<string>, b: seq<string>)
    ensures AddOnsTotal(addOns, a + b) == AddOnsTotal(addOns, a) + AddOnsTotal(addOns, b)
    ensures AddOnLines(addOns, a + b) == AddOnLines(addOns, a) + AddOnLines(addOns, b)
    ensures KnownIds(addOns, a + b) == KnownIds(addOns, a) + KnownIds(addOns, b)
  {
    if b == [] {
      assert a + b == a;
    } else {
      var init := b[..|b| - 1];
      assert (a + b)[..|a + b| - 1] == a + init;
      assert (a + b)[|a + b| - 1] == b[|b| - 1];
      AddOnsAppend(addOns, a, init);
    }
  }

  /** The loop emits one item per known id, in order, and skips unknown
      ids; the sum is the sum of the known ids' prices. */
  lemma {:induction false} AddOnLinesAreKnownIds(addOns: map<string, RouteAddOn>, ids: seq<string>)
    ensures |AddOnLines(addOns, ids)| == |KnownIds(addOns, ids)|
    ensures forall i :: 0 <= i < |KnownIds(addOns, ids)| ==>
              AddOnLines(addOns, ids)[i] == AddOnLine(addOns, KnownIds(addOns, ids)[i])
    ensures (forall i :: 0 <= i < |ids| ==> ids[i] !in addOns) ==> AddOnLines(addOns, ids) == []
  {
    if ids != [] {
      var init := ids[..|ids| - 1];
      AddOnLinesAreKnownIds(addOns, init);
      assert forall i :: 0 <= i < |init| ==> init[i] == ids[i];
    }
  }

  /** A known id listed twice is charged twice and gets two items; an
      unknown id changes nothing. */
  lemma DuplicatesCounted(addOns: map<string, RouteAddOn>, ids: seq<string>, id: string)
    ensures id in addOns ==>
              AddOnsTotal(addOns, ids + [id, id]) == AddOnsTotal(addOns, ids) + 2.0 * AsUSD(addOns[id].price)
    ensures id in addOns ==>
              AddOnLines(addOns, ids + [id, id]) == AddOnLines(addOns, ids) + [AddOnLine(addOns, id), AddOnLine(addOns, id)]
    ensures id !in addOns ==>
              AddOnsTotal(addOns, ids + [id]) == AddOnsTotal(addOns, ids) &&
              AddOnLines(addOns, ids + [id]) == AddOnLines(addOns, ids)
  {
    var once := ids + [id];
    var twice := ids + [id, id];
    assert twice[..|twice| - 1] == once;
    assert once[..|once| - 1] == ids;
  }

  /* ---------------------------- line items -------------------------- */

  /** `baseUSD`: nightly × nights × guests; NaN nights make it NaN. */
  function BaseUSD(nightly: real, n: Option<int>, guests: int): JsNumber {
    if n.Some? then Finite(nightly * n.value as real * guests as real) else NonFinite
  }

  /** `feesUSD`: the fee rate applied to base plus add-ons, rounded. */
  function FeesUSD(base: JsNumber, addOnsUSD: real, rate: real): JsNumber {
    match base
    case Finite(b) => Finite(Round((b + addOnsUSD) * rate) as real)
    case NonFinite => NonFinite
  }

  /** `String(n)` for the nights, "NaN" when they are NaN. */
  function NightsText(n: Option<int>): string {
    if n.Some? then IntToDecimal(n.value) else "NaN"
  }

  /** The base item's name: the title when given, else the package name
      and the guest count, "guest" in the singular only for one guest. */
  function BaseItemName(title: Option<string>, pkg: RoutePackage, guests: int): string {
    if Truthy(title) then title.value
    else pkg.name + " (" + IntToDecimal(guests) + " guest" + (if guests > 1 then "s" else "") + ")"
  }

  /** The base item's description: nights and the two dates, "TBD" for a
      missing date. */
  function BaseItemDescription(n: Option<int>, body: CheckoutBody): string {
    NightsText(n) + " night(s) \U{2022} " + OrText(body.checkIn, "TBD") + " \U{2192} " + OrText(body.checkOut, "TBD")
  }

  function FeeItem(fees: real, rate: real): LineItem {
    LineItem(ToCents(Finite(fees)), "Taxes & fees (" + IntToDecimal(Round(rate * 100.0)) + "%)", None)
  }

  /** The items after the base and add-on items: the fee item when the
      fees are a number above 0, nothing otherwise. */
  function FeeLines(fees: JsNumber, rate: real): seq<LineItem> {
    if fees.Finite? && fees.v > 0.0 then [FeeItem(fees.v, rate)] else []
  }

  /** `Array.prototype.join(",")`. */
  function Join(ids: seq<string>): string {
    if ids == [] then ""
    else if |ids| == 1 then ids[0]
    else ids[0] + "," + Join(ids[1..])
  }

  /** The package the body names; an absent id looks up "undefined". */
  function PackageKey(packageId: Option<string>): string {
    if packageId.Some? then packageId.value else "undefined"
  }

  /** Lines 78-152 of the route once the package is found, for the
      normalised adults `a`, children `c` and nights `n`. */
  function Assemble(body: CheckoutBody, catalog: Catalog, pkg: RoutePackage, a: int, c: int, n: Option<int>): Response {
    var guests := a + c;
    var base := BaseUSD(AsUSD(pkg.nightly), n, guests);
    var ids := AddOnIds(body);
    var rate := FeeRate(catalog.feesRate);
    var fees := FeesUSD(base, AddOnsTotal(catalog.addOns, ids), rate);
    Session([BaseItem(base, body, pkg, guests, n)] + AddOnLines(catalog.addOns, ids) + FeeLines(fees, rate),
            SessionMetadata(body, a, c, n))
  }

  /** The first line item: the base amount in cents, its name and its
      description. */
  function BaseItem(base: JsNumber, body: CheckoutBody, pkg: RoutePackage, guests: int, n: Option<int>): LineItem {
    LineItem(ToCents(base), BaseItemName(body.title, pkg, guests), Some(BaseItemDescription(n, body)))
  }

  /** The metadata: the package id, the dates ("" when missing), the counts
      and nights as strings and the add-on ids joined by commas. */
  function SessionMetadata(body: CheckoutBody, a: int, c: int, n: Option<int>): Metadata {
    Metadata(body.packageId, OrText(body.checkIn, ""), OrText(body.checkOut, ""),
             IntToDecimal(a), IntToDecimal(c), NightsText(n), Join(AddOnIds(body)))
  }

  /** The route for a given nights value: the missing secret key first,
      then the unknown package, then the session. */
  function Respond(stripeKey: string, body: CheckoutBody, catalog: Catalog, n: Option<int>): Response {
    if stripeKey == "" then Rejected(500, "Stripe not configured on server")
    else if PackageKey(body.packageId) !in catalog.packages then Rejected(400, "Invalid package")
    else Assemble(body, catalog, catalog.packages[PackageKey(body.packageId)],
                  AdultsCount(body.adults), ChildrenCount(body.children), n)
  }

  /** The route as written, NaN nights included. */
  function CheckoutAsWritten(stripeKey: string, body: CheckoutBody, catalog: Catalog,
                             parse: string -> Option<int>): Response {
    Respond(stripeKey, body, catalog, NightsAsWritten(body, parse))
  }

  /** The route with the corrected nights. */
  function Checkout(stripeKey: string, body: CheckoutBody, catalog: Catalog, parse: string -> Option<int>): Response {
    Respond(stripeKey, body, catalog, Some(Nights(body, parse)))
  }

  /** The `let n` of lines 66-76: the supplied count when it parses to at
      least 1, else recomputed from two present dates, else 1; a date that
      does not parse gives 1 where the route would get NaN. */
  method ComputeNights(body: CheckoutBody, parse: string -> Option<int>) returns (n: int)
    ensures n == Nights(body, parse)
  {
    var supplied := ParseInt(body.nights);
    if supplied.Some? && supplied.value >= 1 {
      n := supplied.value;
    } else if Truthy(body.checkIn) && Truthy(body.checkOut) {
      var inMs := parse(body.checkIn.value);
      var outMs := parse(body.checkOut.value);
      if inMs.Some? && outMs.Some? {
        n := RecomputedNights(inMs.value, outMs.value);
      } else {
        n := 1;
      }
    } else {
      n := 1;
    }
  }

  /** The add-on loop of lines 82-97: skips unknown ids, adds each known
      id's price and pushes its item. */
  method CollectAddOns(addOns: map<string, RouteAddOn>, ids: seq<string>) returns (total: real, items: seq<LineItem>)
    ensures total == AddOnsTotal(addOns, ids)
    ensures items == AddOnLines(addOns, ids)
  {
    total := 0.0;
    items := [];
    for i := 0 to |ids|
      invariant total == AddOnsTotal(addOns, ids[..i])
      invariant items == AddOnLines(addOns, ids[..i])
    {
      assert ids[..i + 1][..i] == ids[..i];
      var id := ids[i];
      if id in addOns {
        var priceUSD := AsUSD(addOns[id].price);
        total := total + priceUSD;
        items := items + [AddOnLine(addOns, id)];
      }
    }
    assert ids[..|ids|] == ids;
  }

  /** Lines 78-152 once the package is found: the base amount, the add-on
      loop, the fee, the line items with the fee item pushed only when there
      is a fee, and the metadata. */
  method AssembleSession(body: CheckoutBody, catalog: Catalog, pkg: RoutePackage, a: int, c: int, n: int)
    returns (r: Response)
    ensures r == Assemble(body, catalog, pkg, a, c, Some(n))
  {
    var guests := a + c;
    var baseUSD := BaseUSD(AsUSD(pkg.nightly), Some(n), guests);
    var ids := AddOnIds(body);
    var addOnsUSD, addOnLineItems := CollectAddOns(catalog.addOns, ids);
    var rate := FeeRate(catalog.feesRate);
    var feesUSD := FeesUSD(baseUSD, addOnsUSD, rate);
    var lineItems := PushFee([BaseItem(baseUSD, body, pkg, guests, Some(n))] + addOnLineItems, feesUSD, rate);
    r := Session(lineItems, SessionMetadata(body, a, c, Some(n)));
  }

  /** Lines 124-131: the fee item is pushed only when the fees are a number
      above 0. */
  method PushFee(items: seq<LineItem>, fees: JsNumber, rate: real) returns (r: seq<LineItem>)
    ensures r == items + FeeLines(fees, rate)
    ensures |r| == |items| + (if fees.Finite? && fees.v > 0.0 then 1 else 0)
  {
    r := items;
    if fees.Finite? && fees.v > 0.0 {
      r := r + [FeeItem(fees.v, rate)];
    }
  }

  /** `POST` up to the payment-provider call: the missing key, then the
      unknown package, then the normalised counts, the nights and the
      session. */
  method Post(stripeKey: string, body: CheckoutBody, catalog: Catalog, parse: string -> Option<int>)
    returns (r: Response)
    ensures r == Checkout(stripeKey, body, catalog, parse)
  {
    if stripeKey == "" {
      return Rejected(500, "Stripe not configured on server");
    }
    var key := PackageKey(body.packageId);
    if key !in catalog.packages {
      return Rejected(400, "Invalid package");
    }
    var pkg := catalog.packages[key];
    var a := AdultsCount(body.adults);
    var c := ChildrenCount(body.children);
    var n := ComputeNights(body, parse);
    r := AssembleSession(body, catalog, pkg, a, c, n);
  }

  /* ---------------------------- properties -------------------------- */

  /** A missing secret key is reported before anything else; an unknown
      package before any amount; otherwise the session is assembled from the
      normalised counts and the nights. */
  lemma ErrorPrecedence(stripeKey: string, body: CheckoutBody, catalog: Catalog, parse: string -> Option<int>)
    ensures stripeKey == "" ==> Checkout(stripeKey, body, catalog, parse) == Rejected(500, "Stripe not configured on server")
    ensures stripeKey != "" && PackageKey(body.packageId) !in catalog.packages ==>
              Checkout(stripeKey, body, catalog, parse) == Rejected(400, "Invalid package")
    ensures Checkout(stripeKey, body, catalog, parse).Session? <==>
              stripeKey != "" && PackageKey(body.packageId) in catalog.packages
  {
  }

  /** The shape of a session: the base item first, priced at the base
      amount in cents, then the add-on items in order, then the fee item
      exactly when the rounded fee is a number above 0. */
  lemma LineItemOrder(body: CheckoutBody, catalog: Catalog, pkg: RoutePackage, a: int, c: int, n: Option<int>)
    ensures var base := BaseUSD(AsUSD(pkg.nightly), n, a + c);
            var rate := FeeRate(catalog.feesRate);
            var fees := FeesUSD(base, AddOnsTotal(catalog.addOns, AddOnIds(body)), rate);
            var addOnLines := AddOnLines(catalog.addOns, AddOnIds(body));
            var items := Assemble(body, catalog, pkg, a, c, n).lineItems;
            && |items| == 1 + |addOnLines| + (if fees.Finite? && fees.v > 0.0 then 1 else 0)
            && items[0].unitAmount == ToCents(base)
            && items[1..1 + |addOnLines|] == addOnLines
            && (fees.Finite? && fees.v > 0.0 ==> items[|items| - 1] == FeeItem(fees.v, rate))
  {
  }

  /** With whole prices the base item costs exactly 100 × nightly × nights
      × guests cents. */
  lemma BaseAmountInCents(nightly: int, n: int, guests: int)
    ensures ToCents(BaseUSD(nightly as real, Some(n), guests)) == 100 * (nightly * n * guests)
  {
    assert nightly as real * n as real * guests as real == (nightly * n * guests) as real;
    ToCentsWhole(nightly * n * guests);
  }

  /** The counts in the metadata read back, with `parseInt`, as the
      normalised adults, children and nights; missing dates are "". */
  lemma MetadataCountsParseBack(body: CheckoutBody, catalog: Catalog, pkg: RoutePackage, a: nat, c: nat, n: nat)
    ensures var m := Assemble(body, catalog, pkg, a, c, Some(n)).metadata;
            && ParseIntString(m.adults) == Some(a)
            && ParseIntString(m.children) == Some(c)
            && ParseIntString(m.nights) == Some(n)
            && m.checkIn == OrText(body.checkIn, "") && m.checkOut == OrText(body.checkOut, "")
  {
    DecimalParsesBack(a);
    DecimalParsesBack(c);
    DecimalParsesBack(n);
  }

  /* ---------------------------- metadata add-ons -------------------- */

  /** Index of the first comma of a string that has one. */
  function FirstComma(s: string): (k: nat)
    requires ',' in s
    ensures k < |s| && s[k] == ',' && ',' !in s[..k]
  {
    if s[0] == ',' then 0
    else
      assert s == [s[0]] + s[1..];
      var k := 1 + FirstComma(s[1..]);
      assert s[..k] == [s[0]] + s[1..][..k - 1];
      k
  }

  /** `String.prototype.split(",")`. */
  function Split(s: string): seq<string>
    decreases |s|
  {
    if ',' !in s then [s]
    else
      var k := FirstComma(s);
      [s[..k]] + Split(s[k + 1..])
  }

  /** The joined add-on list splits back into the list, provided no id
      holds a comma (an empty list joins to "", which splits to [""]). */
  lemma {:induction false} JoinSplitRoundTrip(ids: seq<string>)
    requires ids != []
    requires forall i :: 0 <= i < |ids| ==> ',' !in ids[i]
    ensures Split(Join(ids)) == ids
  {
    if |ids| > 1 {
      var s := Join(ids);
      var rest := Join(ids[1..]);
      assert s == ids[0] + "," + rest;
      assert s[..|ids[0]|] == ids[0];
      assert s[|ids[0]|] == ',';
      assert ',' in s;
      var k := FirstComma(s);
      assert k == |ids[0]|;
      assert s[k + 1..] == rest;
      JoinSplitRoundTrip(ids[1..]);
    }
  }

  /** The metadata lists every id of the body, unknown ones included. */
  lemma MetadataAddOns(body: CheckoutBody, catalog: Catalog, pkg: RoutePackage, a: int, c: int, n: Option<int>)
    requires AddOnIds(body) != []
    requires forall i :: 0 <= i < |AddOnIds(body)| ==> ',' !in AddOnIds(body)[i]
    ensures Split(Assemble(body, catalog, pkg, a, c, n).metadata.addOns) == AddOnIds(body)
  {
    JoinSplitRoundTrip(AddOnIds(body));
  }

  /* ---------------------------- NaN nights -------------------------- */

  /** As written, a date that does not parse (with no usable `nights`)
      makes `n` NaN; the corrected count is then 1. */
  lemma NaNNightsAsWritten(body: CheckoutBody, parse: string -> Option<int>)
    requires !(ParseInt(body.nights).Some? && ParseInt(body.nights).value >= 1)
    requires Truthy(body.checkIn) && Truthy(body.checkOut)
    requires parse(body.checkIn.value).None? || parse(body.checkOut.value).None?
    ensures NightsAsWritten(body, parse).None?
    ensures Nights(body, parse) == 1
  {
  }

  /** With NaN nights the base item is priced at 0 cents, no fee item is
      added whatever the fee rate, and the metadata says "NaN" nights. */
  lemma NaNNightsSession(body: CheckoutBody, catalog: Catalog, pkg: RoutePackage, a: int, c: int)
    ensures var r := Assemble(body, catalog, pkg, a, c, None);
            && r.lineItems[0].unitAmount == 0
            && r.lineItems[1..] == AddOnLines(catalog.addOns, AddOnIds(body))
            && r.metadata.nights == "NaN"
  {
  }

  /** Wherever the route's count is a number the corrected route answers
      exactly as the route does. */
  lemma CorrectedAgreesWhenFinite(stripeKey: string, body: CheckoutBody, catalog: Catalog, parse: string -> Option<int>)
    requires NightsAsWritten(body, parse).Some?
    ensures Checkout(stripeKey, body, catalog, parse) == CheckoutAsWritten(stripeKey, body, catalog, parse)
  {
    assert Some(Nights(body, parse)) == NightsAsWritten(body, parse);
  }
}
