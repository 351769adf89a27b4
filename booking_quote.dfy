/** The live quote of the booking modal (`SummaryCard2` in
    components/shared/Summurycard3.jsx): loose number coercion, nightly-rate
    resolution over the several record shapes packages come in, nights from a
    date pair, the per-person guest multiplier, the flat add-on prices, the
    rounded 10% tax and the grand total. */
module BookingQuote {
  import opened JsSemantics

  /** The add-on keys the booking form knows, in form order. */
  const ADDON_KEYS: seq<string> := ["sunsetCruise", "spaCredit", "waterSports"]

  /* ---------------------------- num ---------------------------------- */

  predicate IsNumericChar(c: char) { IsDigit(c) || c == '.' || c == '-' }

  /** `x.replace(/[^0-9.-]+/g, "")`: drops every character other than digits,
      `.` and `-`, keeping the others in order. */
  function StripNonNumeric(s: string): (r: string)
    ensures forall i :: 0 <= i < |r| ==> IsNumericChar(r[i])
    ensures |r| <= |s|
    ensures (forall i :: 0 <= i < |s| ==> !IsNumericChar(s[i])) ==> r == []
  {
    if s == [] then []
    else if IsNumericChar(s[0]) then [s[0]] + StripNonNumeric(s[1..])
    else StripNonNumeric(s[1..])
  }

  /** A string made only of kept characters is left as it is. */
  lemma {:induction false} StripKeepsNumeric(s: string)
    requires forall i :: 0 <= i < |s| ==> IsNumericChar(s[i])
    ensures StripNonNumeric(s) == s
  {
    if s != [] {
      StripKeepsNumeric(s[1..]);
    }
  }

  /** Every kept character of the input survives, in order: stripping `a + b`
      strips `a` and `b` separately. */
  lemma {:induction false} StripAppend(a: string, b: string)
    ensures StripNonNumeric(a + b) == StripNonNumeric(a) + StripNonNumeric(b)
  {
    if a != [] {
      assert (a + b)[1..] == a[1..] + b;
      StripAppend(a[1..], b);
    } else {
      assert a + b == b;
    }
  }

  /** `num(x)`: 0 for null and undefined, a finite number as it is, a string
      stripped to digits, `.` and `-` and then read with `Number` (0 when that
      is not finite), and 0 for anything else. */
  function Num(x: JsValue): real {
    match x
    case Number(Finite(v)) => v
    case Str(s) =>
      (match StringToNumber(StripNonNumeric(s))
       case Finite(v) => v
       case NonFinite => 0.0)
    case _ => 0.0
  }

  /** A formatted amount such as `"$1,200"` reads as the whole number its
      digits spell. */
  lemma NumReadsFormattedAmount(s: string, n: nat)
    requires StripNonNumeric(s) == NatToDecimal(n)
    ensures Num(Str(s)) == n as real
  {
    DecimalIsNumber(n);
  }

  lemma NumDollarExample()
    ensures Num(Str("$1,200")) == 1200.0
  {
    StripDollarExample();
    DecimalExample();
    NumReadsFormattedAmount("$1,200", 1200);
  }

  lemma StripDollarExample()
    ensures StripNonNumeric("$1,200") == "1200"
  {
    StripKeepsNumeric("200");
    assert StripNonNumeric(",200") == "200" by { assert ",200"[1..] == "200"; }
    assert StripNonNumeric("1,200") == "1200" by { assert "1,200"[1..] == ",200"; }
    assert "$1,200"[1..] == "1,200";
  }

  lemma DecimalExample()
    ensures NatToDecimal(1200) == "1200"
  {
    assert NatToDecimal(1) == "1";
    assert NatToDecimal(12) == "12";
    assert NatToDecimal(120) == "120";
  }

  /** A string without a single digit, `.` or `-` (such as `"n/a"` or
      `"TBD"`) reads as 0: it strips to the empty string. */
  lemma NumNoNumericChars(s: string)
    requires forall i :: 0 <= i < |s| ==> !IsNumericChar(s[i])
    ensures Num(Str(s)) == 0.0
  {
    assert StripNonNumeric(s) == [];
    assert Trim([]) == [];
  }

  /** A character other than a digit, `.` or `-` is dropped; with
      `StripAppend` this fixes the stripped string of every input. */
  lemma StripDropsOthers(c: char)
    requires !IsNumericChar(c)
    ensures StripNonNumeric([c]) == []
  {
    assert [c][1..] == [];
  }

  /* ---------------------------- package records -------------------- */

  /** The fields of a package record that the modal reads. A missing field is
      `Undefined`; `pricePer` is `""` when `price.per` is missing or empty.
      `id`, `slug` and `title` are None when null or undefined. */
  datatype PackageRecord = PackageRecord(
    base: JsValue,            // pkg.base
    priceBase: JsValue,       // pkg.price.base
    priceAmount: JsValue,     // pkg.price.amount
    pricePer: string,         // pkg.price.per
    pricePerNight: JsValue,   // pkg.pricePerNight
    rateNightly: JsValue,     // pkg.rate.nightly
    id: Option<string>,
    slug: Option<string>,
    title: Option<string>)

  /** JavaScript's `a || b` on two numbers that are never NaN. */
  function OrElse(a: real, b: real): real { if a != 0.0 then a else b }

  /** The nightly rate: the first of `base`, `price.base`, `price.amount`,
      `pricePerNight`, `rate.nightly` whose `num` is not zero. */
  function BaseRate(p: PackageRecord): real {
    OrElse(Num(p.base), OrElse(Num(p.priceBase), OrElse(Num(p.priceAmount),
      OrElse(Num(p.pricePerNight), Num(p.rateNightly)))))
  }

  /** The candidate rates in the order they are tried. */
  function RateCandidates(p: PackageRecord): seq<real> {
    [Num(p.base), Num(p.priceBase), Num(p.priceAmount), Num(p.pricePerNight), Num(p.rateNightly)]
  }

  /** The resolved rate is 0 exactly when every candidate is 0, and otherwise
      it is the first candidate that is not 0. */
  lemma BaseRateIsFirstNonZero(p: PackageRecord)
    ensures var c := RateCandidates(p);
            (BaseRate(p) == 0.0 <==> forall i :: 0 <= i < |c| ==> c[i] == 0.0)
    ensures var c := RateCandidates(p);
            BaseRate(p) != 0.0 ==>
              exists i :: 0 <= i < |c| && c[i] == BaseRate(p) && forall j :: 0 <= j < i ==> c[j] == 0.0
  {
    var c := RateCandidates(p);
    if c[0] != 0.0 {
      assert c[0] == BaseRate(p);
    } else if c[1] != 0.0 {
      assert c[1] == BaseRate(p);
    } else if c[2] != 0.0 {
      assert c[2] == BaseRate(p);
    } else if c[3] != 0.0 {
      assert c[3] == BaseRate(p);
    } else if c[4] != 0.0 {
      assert c[4] == BaseRate(p);
    }
  }

  /** ASCII `toLowerCase`. */
  function ToLower(s: string): (r: string)
    ensures |r| == |s|
    ensures forall i :: 0 <= i < |s| ==> r[i] == if 'A' <= s[i] <= 'Z' then (s[i] as int + 32) as char else s[i]
  {
    if s == [] then []
    else [if 'A' <= s[0] <= 'Z' then (s[0] as int + 32) as char else s[0]] + ToLower(s[1..])
  }

  /** The pricing mode: `(price.per || "person").toLowerCase()`. */
  function PricingMode(p: PackageRecord): string {
    ToLower(if p.pricePer == "" then "person" else p.pricePer)
  }

  /** A missing or empty `price.per` means "person" pricing. */
  lemma PricingModeDefaultsToPerson(p: PackageRecord)
    requires p.pricePer == ""
    ensures PricingMode(p) == "person"
  {
    var r := ToLower("person");
    assert r == "person";
  }

  /** The mode ignores case: "Person" prices per person. */
  lemma PricingModeIgnoresCase(p: PackageRecord)
    requires p.pricePer == "Person"
    ensures PricingMode(p) == "person"
  {
    var r := ToLower("Person");
    assert r[0] == 'p';
    assert r == "person";
  }

  /* ---------------------------- nights and guests ------------------- */

  /** `modalNights`: 1 while either date is empty or does not parse; otherwise
      the day difference rounded up, and never below 1. `parse` stands for
      `new Date(s).getTime()` (None for an invalid date), in milliseconds. */
  function ModalNights(checkIn: string, checkOut: string, parse: string -> Option<int>): (n: int)
    ensures n >= 1
    ensures checkIn == "" || checkOut == "" ==> n == 1
    ensures (checkIn != "" && checkOut != "" && parse(checkIn).Some? && parse(checkOut).Some? &&
             parse(checkIn).value < parse(checkOut).value) ==>
              var days := (parse(checkOut).value - parse(checkIn).value) as real / DAY_MS as real;
              days <= n as real < days + 1.0
    ensures (checkIn != "" && checkOut != "" && parse(checkIn).Some? && parse(checkOut).Some? &&
             parse(checkOut).value <= parse(checkIn).value) ==> n == 1
    ensures checkIn != "" && checkOut != "" && (parse(checkIn).None? || parse(checkOut).None?) ==> n == 1
  {
    if checkIn == "" || checkOut == "" then 1
    else match (parse(checkIn), parse(checkOut))
      case (Some(i), Some(o)) => Max(1, Ceil((o - i) as real / DAY_MS as real))
      case _ => 1
  }

  /** `modalTravelers`: adults plus children, at least 1. */
  function Travelers(adults: real, children: real): (t: real)
    ensures t >= 1.0 && t >= adults + children
    ensures t == 1.0 || t == adults + children
  {
    MaxReal(1.0, adults + children)
  }

  /** `guestMultiplier`: the traveller count in "person" mode, 1 otherwise. */
  function GuestMultiplier(mode: string, adults: real, children: real): (m: real)
    ensures m >= 1.0
    ensures mode != "person" ==> m == 1.0
    ensures mode == "person" ==> m == Travelers(adults, children)
  {
    if mode == "person" then Travelers(adults, children) else 1.0
  }

  /* ---------------------------- add-ons ----------------------------- */

  /** The modal's add-on check boxes. */
  datatype Extras = Extras(sunsetCruise: bool, spaCredit: bool, waterSports: bool) {
    /** `Object.entries(mExtras)`, in the order the keys were created. */
    function Entries(): seq<(string, bool)> {
      [("sunsetCruise", sunsetCruise), ("spaCredit", spaCredit), ("waterSports", waterSports)]
    }
  }

  /** `toAddOnsArray`: the keys whose flag is set and that are add-on keys,
      in entry order. */
  function ToAddOnsArray(entries: seq<(string, bool)>): (keys: seq<string>)
    ensures |keys| <= |entries|
  {
    if entries == [] then []
    else
      var rest := ToAddOnsArray(entries[1..]);
      if entries[0].1 && entries[0].0 in ADDON_KEYS then [entries[0].0] + rest else rest
  }

  /** A key is in the list exactly when some entry holds it with its flag set
      and it is an add-on key; so every listed key is an add-on key. */
  lemma {:induction false} ToAddOnsArrayMembers(entries: seq<(string, bool)>, k: string)
    ensures k in ToAddOnsArray(entries) <==>
              k in ADDON_KEYS && exists i :: 0 <= i < |entries| && entries[i] == (k, true)
  {
    if entries != [] {
      ToAddOnsArrayMembers(entries[1..], k);
      if k in ADDON_KEYS && (exists i :: 0 <= i < |entries| && entries[i] == (k, true)) {
        var i :| 0 <= i < |entries| && entries[i] == (k, true);
        if i > 0 {
          assert entries[1..][i - 1] == (k, true);
        }
      }
      if exists i :: 0 <= i < |entries[1..]| && entries[1..][i] == (k, true) {
        var i :| 0 <= i < |entries[1..]| && entries[1..][i] == (k, true);
        assert entries[i + 1] == (k, true);
      }
    }
  }

  /** The flat price of one add-on key in the modal; unknown keys cost 0. */
  function AddOnPrice(key: string): int {
    if key == "sunsetCruise" then 60
    else if key == "spaCredit" then 80
    else if key == "waterSports" then 50
    else 0
  }

  /** Sum of the flat prices of a list of keys, in list order. */
  function PriceSum(keys: seq<string>): int {
    if keys == [] then 0 else AddOnPrice(keys[0]) + PriceSum(keys[1..])
  }

  lemma {:induction false} PriceSumAppend(a: seq<string>, b: seq<string>)
    ensures PriceSum(a + b) == PriceSum(a) + PriceSum(b)
  {
    if a != [] {
      assert (a + b)[1..] == a[1..] + b;
      PriceSumAppend(a[1..], b);
    } else {
      assert a + b == b;
    }
  }

  /** Taking one key out of a list takes its price out of the sum. */
  lemma {:induction false} PriceSumRemove(b: seq<string>, j: int)
    requires 0 <= j < |b|
    ensures PriceSum(b) == AddOnPrice(b[j]) + PriceSum(b[..j] + b[j + 1..])
  {
    if j == 0 {
      assert b[..0] + b[1..] == b[1..];
    } else {
      var rest := b[1..];
      PriceSumRemove(rest, j - 1);
      assert b[..j] + b[j + 1..] == [b[0]] + (rest[..j - 1] + rest[j..]);
    }
  }

  lemma MultisetRemoveHead(a: seq<string>, b: seq<string>, j: int)
    requires multiset(a) == multiset(b) && a != [] && 0 <= j < |b| && b[j] == a[0]
    ensures multiset(a[1..]) == multiset(b[..j] + b[j + 1..])
  {
    assert b == b[..j] + [b[j]] + b[j + 1..];
    assert multiset(b) == multiset(b[..j]) + multiset{b[j]} + multiset(b[j + 1..]);
    assert a == [a[0]] + a[1..];
    assert multiset(a) == multiset{a[0]} + multiset(a[1..]);
    assert multiset(b[..j] + b[j + 1..]) == multiset(b[..j]) + multiset(b[j + 1..]);
    calc {
      multiset(a[1..]);
      multiset(a) - multiset{a[0]};
      multiset(b) - multiset{b[j]};
      multiset(b[..j]) + multiset(b[j + 1..]);
    }
  }

  /** The add-on total does not depend on the order the keys are listed in. */
  lemma {:induction false} PriceSumPermutation(a: seq<string>, b: seq<string>)
    requires multiset(a) == multiset(b)
    ensures PriceSum(a) == PriceSum(b)
  {
    if a != [] {
      assert a[0] in multiset(b);
      var j :| 0 <= j < |b| && b[j] == a[0];
      MultisetRemoveHead(a, b, j);
      PriceSumPermutation(a[1..], b[..j] + b[j + 1..]);
      PriceSumRemove(b, j);
    } else {
      assert |b| == |multiset(b)| == 0;
    }
  }

  /** The key list of the check boxes is the ticked keys in form order. */
  lemma SelectedKeys(x: Extras)
    ensures ToAddOnsArray(x.Entries()) ==
              (if x.sunsetCruise then ["sunsetCruise"] else []) +
              (if x.spaCredit then ["spaCredit"] else []) +
              (if x.waterSports then ["waterSports"] else [])
  {
    var e := x.Entries();
    assert ToAddOnsArray(e[3..]) == [];
    assert ToAddOnsArray(e[2..]) == if x.waterSports then ["waterSports"] else [];
    assert ToAddOnsArray(e[1..]) == (if x.spaCredit then ["spaCredit"] else []) + ToAddOnsArray(e[2..]);
  }

  /** The add-on total of the check boxes, through the key list. */
  function SelectedAddOnsPrice(x: Extras): int {
    PriceSum(ToAddOnsArray(x.Entries()))
  }

  /** The selected add-ons cost between 0 and 190 together. */
  lemma SelectedAddOnsPriceRange(x: Extras)
    ensures 0 <= SelectedAddOnsPrice(x) <= 190
  {
    SelectedKeys(x);
    var c: seq<string> := if x.sunsetCruise then ["sunsetCruise"] else [];
    var sp: seq<string> := if x.spaCredit then ["spaCredit"] else [];
    var w: seq<string> := if x.waterSports then ["waterSports"] else [];
    PriceSumAppend(c + sp, w);
    PriceSumAppend(c, sp);
  }

  /** `modalExtrasTotal`: adds 60, 80 and 50 for the ticked cruise, spa and
      water-sports boxes. The sum is the price of the selected keys, between
      0 and 190. */
  method ModalExtrasTotal(x: Extras) returns (sum: int)
    ensures sum == SelectedAddOnsPrice(x)
    ensures 0 <= sum <= 190
  {
    SelectedKeys(x);
    var c: seq<string> := if x.sunsetCruise then ["sunsetCruise"] else [];
    var sp: seq<string> := if x.spaCredit then ["spaCredit"] else [];
    var w: seq<string> := if x.waterSports then ["waterSports"] else [];
    PriceSumAppend(c + sp, w);
    PriceSumAppend(c, sp);
    sum := 0;
    if x.sunsetCruise { sum := sum + 60; }
    if x.spaCredit { sum := sum + 80; }
    if x.waterSports { sum := sum + 50; }
  }

  /* ---------------------------- totals ------------------------------ */

  /** `modalBaseTotal`. */
  function BaseTotal(rate: real, nights: int, multiplier: real): real {
    rate * nights as real * multiplier
  }

  /** `modalTaxes`: 10% of base plus extras, rounded to a whole amount. */
  function Taxes(subtotal: real): (t: int)
    ensures subtotal / 10.0 - 0.5 < t as real <= subtotal / 10.0 + 0.5
  {
    Round(subtotal * 0.1)
  }

  /** On a whole subtotal, `Math.round(s * 0.1)` is `(s + 5) / 10`. */
  lemma TaxesOfWholeSubtotal(s: int)
    ensures Taxes(s as real) == (s + 5) / 10
  {
    var q := (s + 5) / 10;
    var r := (s + 5) % 10;
    assert s + 5 == 10 * q + r && 0 <= r < 10;
    assert s as real * 0.1 + 0.5 == q as real + r as real / 10.0;
    assert (q as real + r as real / 10.0).Floor == q;
  }

  datatype Draft = Draft(checkIn: string, checkOut: string, adults: real, children: real, extras: Extras)

  datatype Quote = Quote(nights: int, baseTotal: real, extrasTotal: int, taxes: int, grandTotal: real)

  /** The modal's live quote for a package and the draft in the form. */
  function ModalQuote(p: PackageRecord, d: Draft, parse: string -> Option<int>): Quote {
    QuoteFor(p, d, ModalNights(d.checkIn, d.checkOut, parse))
  }

  /** The quote's amounts for a given number of nights. */
  function QuoteFor(p: PackageRecord, d: Draft, nights: int): Quote {
    var base := BaseTotal(BaseRate(p), nights, GuestMultiplier(PricingMode(p), d.adults, d.children));
    var extras := SelectedAddOnsPrice(d.extras);
    var taxes := Taxes(base + extras as real);
    Quote(nights, base, extras, taxes, base + extras as real + taxes as real)
  }

  /** How a quote's amounts fit together: base is rate × nights × multiplier
      (travellers in "person" mode, 1 in any other mode), the extras lie
      between 0 and 190, the grand total adds base, extras and the tax, and
      the tax is within half a unit of 10% of the subtotal. */
  ghost predicate QuoteAddsUp(p: PackageRecord, d: Draft, q: Quote) {
    && (PricingMode(p) == "person" ==>
          q.baseTotal == BaseRate(p) * q.nights as real * MaxReal(1.0, d.adults + d.children))
    && (PricingMode(p) != "person" ==> q.baseTotal == BaseRate(p) * q.nights as real)
    && 0 <= q.extrasTotal <= 190
    && q.grandTotal == q.baseTotal + q.extrasTotal as real + q.taxes as real
    && (q.baseTotal + q.extrasTotal as real) / 10.0 - 0.5 < q.taxes as real
    && q.taxes as real <= (q.baseTotal + q.extrasTotal as real) / 10.0 + 0.5
  }

  /** The modal's quote has at least one night and its amounts add up. */
  lemma ModalQuoteParts(p: PackageRecord, d: Draft, parse: string -> Option<int>)
    ensures ModalQuote(p, d, parse).nights >= 1
    ensures QuoteAddsUp(p, d, ModalQuote(p, d, parse))
  {
    QuoteForAddsUp(p, d, ModalNights(d.checkIn, d.checkOut, parse));
  }

  /** The amounts add up whatever the number of nights. */
  lemma QuoteForAddsUp(p: PackageRecord, d: Draft, nights: int)
    ensures QuoteAddsUp(p, d, QuoteFor(p, d, nights))
  {
    var q := QuoteFor(p, d, nights);
    var m := GuestMultiplier(PricingMode(p), d.adults, d.children);
    SelectedAddOnsPriceRange(d.extras);
    if PricingMode(p) == "person" {
      assert m == MaxReal(1.0, d.adults + d.children);
    } else {
      assert q.baseTotal == BaseRate(p) * q.nights as real by { assert m == 1.0; }
    }
  }

  /** Outside "person" mode the quote does not depend on the guest counts. */
  lemma PerRoomIgnoresGuests(p: PackageRecord, d1: Draft, d2: Draft, parse: string -> Option<int>)
    requires PricingMode(p) != "person"
    requires d1.checkIn == d2.checkIn && d1.checkOut == d2.checkOut && d1.extras == d2.extras
    ensures ModalQuote(p, d1, parse) == ModalQuote(p, d2, parse)
  {
  }

  /** More nights never lower the base total when the rate is not negative. */
  lemma BaseTotalMonotoneInNights(rate: real, n1: int, n2: int, m: real)
    requires 0.0 <= rate && 1.0 <= m && 1 <= n1 <= n2
    ensures BaseTotal(rate, n1, m) <= BaseTotal(rate, n2, m)
  {
    var k := rate * m;
    assert k >= 0.0;
    assert BaseTotal(rate, n1, m) == k * n1 as real;
    assert BaseTotal(rate, n2, m) == k * n2 as real;
    assert k * n2 as real - k * n1 as real == k * (n2 - n1) as real;
  }

  /** A grand total over a subtotal that is not negative lies between the
      subtotal and 110% of it plus half a unit. */
  lemma GrandTotalBounds(p: PackageRecord, d: Draft, parse: string -> Option<int>)
    requires ModalQuote(p, d, parse).baseTotal >= 0.0
    ensures var q := ModalQuote(p, d, parse);
            var s := q.baseTotal + q.extrasTotal as real;
            s <= q.grandTotal <= 1.1 * s + 0.5
  {
    ModalQuoteParts(p, d, parse);
  }

  /** Worked example: rate 100, two nights, two adults, "person" mode, no
      add-ons gives base 400, tax 40 and total 440. */
  lemma QuoteExample(p: PackageRecord, parse: string -> Option<int>)
    requires BaseRate(p) == 100.0 && PricingMode(p) == "person"
    requires parse("2025-06-10") == Some(0) && parse("2025-06-12") == Some(2 * DAY_MS)
    ensures ModalQuote(p, Draft("2025-06-10", "2025-06-12", 2.0, 0.0, Extras(false, false, false)), parse)
            == Quote(2, 400.0, 0, 40, 440.0)
  {
    var d := Draft("2025-06-10", "2025-06-12", 2.0, 0.0, Extras(false, false, false));
    assert ModalNights(d.checkIn, d.checkOut, parse) == 2;
    ModalQuoteParts(p, d, parse);
    TaxesOfWholeSubtotal(400);
  }
}
