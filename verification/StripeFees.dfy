// Stripe's fee and its inverse, over exact numbers
// (apps/api/src/donations/helpers/stripe-fee-calculator.ts, payment-intent-helpers.ts).
module StripeFees {
  import opened Wrappers
  import opened Ledgers

  datatype CardRegion = EU | UK | Other

  // Math.round: halves go up.
  function MathRound(x: real): int {
    (x + 0.5).Floor
  }

  const COUNTRIES_EU: set<string> := {
    "AT", "BE", "BG", "HR", "CY", "CZ", "DK", "EE", "FI", "FR", "DE", "GR", "HU", "IE",
    "IT", "LV", "LT", "LU", "MT", "NL", "PL", "PT", "RO", "SK", "SI", "ES", "SE"}

  function GetCountryRegion(country: Option<string>): CardRegion {
    match country
    case None => Other
    case Some(c) => if c in COUNTRIES_EU then EU else if c == "UK" || c == "GB" then UK else Other
  }

  function FeeRate(region: CardRegion): real {
    match region
    case EU => 0.012
    case UK => 0.025
    case Other => 0.029
  }

  function StripeFee(charged: real, region: CardRegion): real {
    charged * FeeRate(region) + 50.0
  }

  // The charge that leaves netAmount once the fee is taken.
  function IncludeFee(netAmount: real, region: CardRegion): real {
    match region
    case EU => (netAmount + 50.0) / (1.0 - 0.012)
    case UK => (netAmount + 50.0) / (1.0 - 0.025)
    case Other => (netAmount + 50.0) / (1.0 - 0.029)
  }

  // The net amount of a charge, in cents.
  function NetOfCharge(charged: int, region: CardRegion): int {
    MathRound(charged as real - StripeFee(charged as real, region))
  }

  function ChargeFor(netAmount: int, region: CardRegion): int {
    MathRound(IncludeFee(netAmount as real, region))
  }

  // What a region's fee leaves of every thousand, before the fixed 50 cents.
  function Share(region: CardRegion): int {
    match region
    case EU => 988
    case UK => 975
    case Other => 971
  }

  // The net is the nearest cent to the share of the charge less 50 cents, told in whole numbers.
  lemma NetIsNearest(charged: int, region: CardRegion, cents: int)
    ensures NetOfCharge(charged, region) == cents
       <==> 1000 * (2 * cents - 1) <= 2 * (Share(region) * charged - 50000) < 1000 * (2 * cents + 1)
  {
    var exact := charged as real - StripeFee(charged as real, region);
    assert 1000.0 * exact == (Share(region) * charged - 50000) as real;
    assert NetOfCharge(charged, region) == cents <==> cents as real - 0.5 <= exact < cents as real + 0.5;
  }

  // The charge for a net amount is the nearest cent to what leaves it, likewise.
  lemma ChargeIsNearest(netAmount: int, region: CardRegion, cents: int)
    ensures ChargeFor(netAmount, region) == cents
       <==> Share(region) * (2 * cents - 1) <= 2000 * (netAmount + 50) < Share(region) * (2 * cents + 1)
  {
    var exact := IncludeFee(netAmount as real, region);
    assert Share(region) as real * exact == (1000 * (netAmount + 50)) as real;
    assert ChargeFor(netAmount, region) == cents <==> cents as real - 0.5 <= exact < cents as real + 0.5;
  }

  // Of a hundred, a card of the twenty-seven countries of the European Union leaves 98.30, a British one
  // 97.00, and any other, or one of an unknown country, 96.60.
  lemma NetByCountry(country: Option<string>)
    ensures NetOfCharge(10000, GetCountryRegion(country))
         == if country.None? then 9660
            else if country.value in {"AT", "BE", "BG", "CY", "CZ", "DE", "DK", "EE", "ES", "FI", "FR", "GR", "HR",
                                      "HU", "IE", "IT", "LT", "LU", "LV", "MT", "NL", "PL", "PT", "RO", "SE", "SI",
                                      "SK"}
            then 9830
            else if country.value in {"GB", "UK"} then 9700
            else 9660
  {
  }

  // Charging a donor for a net amount nets exactly that amount, rounding both ways.
  lemma FeeRoundTrip(netAmount: int, region: CardRegion)
    ensures NetOfCharge(ChargeFor(netAmount, region), region) == netAmount
  {
    var exact := IncludeFee(netAmount as real, region);
    var charged := ChargeFor(netAmount, region);
    assert exact - 0.5 < charged as real <= exact + 0.5;
    assert exact - StripeFee(exact, region) == netAmount as real;
    var net := charged as real - StripeFee(charged as real, region);
    assert netAmount as real - 0.5 < net < netAmount as real + 0.5;
  }

  lemma NetIsMonotone(a: int, b: int, region: CardRegion)
    requires a <= b
    ensures NetOfCharge(a, region) <= NetOfCharge(b, region)
  {
    assert (b - a) as real * (1.0 - FeeRate(region)) >= 0.0;
    assert b as real - StripeFee(b as real, region) - (a as real - StripeFee(a as real, region))
        == (b - a) as real * (1.0 - FeeRate(region));
  }

  lemma NetByRegion(charged: nat)
    ensures NetOfCharge(charged, EU) >= NetOfCharge(charged, UK) >= NetOfCharge(charged, Other)
  {
    var c := charged as real;
    assert c * 0.012 <= c * 0.025 <= c * 0.029;
  }

  // The smallest charge that leaves something to credit: 52 cents on European and British cards, 53 on
  // the others. Every charge of at least 100 cents is above it, so its vault accepts the credit.
  lemma NetIsPositiveExactly(charged: int, region: CardRegion)
    ensures NetOfCharge(charged, region) > 0 <==> charged >= (if region == Other then 53 else 52)
    ensures charged >= 0 ==> NetOfCharge(charged, region) < charged || charged == 0
  {
    var c := charged as real;
    assert NetOfCharge(charged, region) > 0 <==> c - StripeFee(c, region) >= 0.5;
    assert c - StripeFee(c, region) == c * (1.0 - FeeRate(region)) - 50.0;
  }

  // A charge of at least the minimum is credited, with less than the donor paid.
  lemma MinimumChargeIsCredited(l: Ledger, vault: Id, charged: int, region: CardRegion)
    requires charged >= 100 && vault in l.vaults
    ensures 0 < NetOfCharge(charged, region) < charged
    ensures var r := UpdateVaultAmount(l, vault, NetOfCharge(charged, region), true);
            r.Success? && l.vaults[vault].amount < r.value.vaults[vault].amount < l.vaults[vault].amount + charged
  {
    NetIsPositiveExactly(charged, region);
  }
}
