/** The home page's pricing section: the built-in plan list shown until the
    admin settings arrive, and the builder that turns those settings into a
    free tier followed by one plan per paid tier. */
module Pricing {
  import opened Text

  /** One paid tier of the admin settings. The price is a whole number of
      cents. */
  datatype Tier = Tier(id: string, name: string, portraits: int, priceCents: nat, featured: bool)

  datatype PrintPrice = PrintPrice(size: string, priceCents: nat)

  /** The settings record the settings endpoint returns. */
  datatype SalesSettings = SalesSettings(
    freePortraits: int,
    pricing: seq<Tier>,
    enabledSports: seq<string>,
    printPricing: seq<PrintPrice>)

  /** One card of the pricing section. */
  datatype Plan = Plan(
    name: string,
    price: string,
    period: string,
    desc: string,
    features: seq<string>,
    cta: string,
    highlight: bool)

  const FreeName := "Try It Free"
  const FreeDesc := "See the magic for yourself"
  const FreeCta := "Start Free"
  const FirstTierDesc := "Most popular for families"
  const LaterTierDesc := "For the superfan family"
  const FeaturedCta := "Get Started"
  const PlainCta := "Go Pro"
  const PrintReady := "Print-ready files"
  const Priority := "Priority generation"
  /** A tier with at least this many portraits advertises print-ready files. */
  const PrintReadyMinimum := 10

  /** The list shown before, or without, settings. */
  function DefaultPricing(): (r: seq<Plan>)
    ensures |r| == 3 && r[0].name == FreeName && r[0].price == "$0"
    ensures r[1].highlight && !r[0].highlight && !r[2].highlight
  {
    [ Plan(FreeName, "$0", "", FreeDesc,
           ["2 free AI portraits", "Any sport or style", "Instant download", "Standard resolution"],
           FreeCta, false),
      Plan("Portrait Pack", "$9", ".99", FirstTierDesc,
           ["5 AI portraits", "All sports & styles", "HD resolution", "Multiple poses", Priority],
           FeaturedCta, true),
      Plan("Pro Pack", "$24", ".99", LaterTierDesc,
           ["15 AI portraits", "All sports & styles", "HD resolution", PrintReady, Priority, "8x10 print included"],
           PlainCta, false) ]
  }

  /** The free tier built from the settings' free-portrait allowance. */
  function FreePlan(freePortraits: int): Plan {
    Plan(FreeName, "$0", "", FreeDesc,
         [IntToString(freePortraits) + " free AI portraits", "Any sport or style", "Instant download", "Standard resolution"],
         FreeCta, false)
  }

  /** Whole dollars of the price, shown after "$". */
  function PriceText(priceCents: nat): string {
    "$" + NatToString(priceCents / 100)
  }

  /** Cents of the price: "" for a whole-dollar price, otherwise "." and the
      cents padded to two digits. */
  function PeriodText(priceCents: nat): string {
    var cents := priceCents % 100;
    if cents > 0 then "." + PadStart(NatToString(cents), 2, '0') else ""
  }

  function TierFeatures(portraits: int): seq<string> {
    [IntToString(portraits) + " AI portraits", "All sports & styles", "HD resolution"]
    + (if portraits >= PrintReadyMinimum then [PrintReady] else [])
    + [Priority]
  }

  /** The card for paid tier number `index` (counting from 0). */
  function PaidPlan(tier: Tier, index: nat): Plan {
    Plan(tier.name, PriceText(tier.priceCents), PeriodText(tier.priceCents),
         if index == 0 then FirstTierDesc else LaterTierDesc,
         TierFeatures(tier.portraits),
         if tier.featured then FeaturedCta else PlainCta,
         tier.featured)
  }

  /** The loop over the paid tiers: appends `card(tiers[k], k)` for each
      tier in order, keeping what was already in the list. */
  method PushCards(plans: seq<Plan>, tiers: seq<Tier>, card: (Tier, nat) -> Plan) returns (r: seq<Plan>)
    ensures |r| == |plans| + |tiers|
    ensures r[..|plans|] == plans
    ensures forall k :: 0 <= k < |tiers| ==> r[|plans| + k] == card(tiers[k], k)
  {
    r := plans;
    var i := 0;
    while i < |tiers|
      invariant 0 <= i <= |tiers|
      invariant |r| == |plans| + i
      invariant r[..|plans|] == plans
      invariant forall k :: 0 <= k < i ==> r[|plans| + k] == card(tiers[k], k)
    {
      r := r + [card(tiers[i], i)];
      i := i + 1;
    }
  }

  /** Builds the displayed plans: the free tier, then one card per paid tier
      in the order of the settings. */
  method BuildPricingFromSettings(s: SalesSettings) returns (plans: seq<Plan>)
    ensures |plans| == 1 + |s.pricing|
    ensures plans[0] == FreePlan(s.freePortraits)
    ensures forall i :: 0 <= i < |s.pricing| ==> plans[i + 1] == PaidPlan(s.pricing[i], i)
  {
    plans := [FreePlan(s.freePortraits)];
    plans := PushCards(plans, s.pricing, PaidPlan);
  }

  // ---- what a card shows -----------------------------------------------

  /** Reads a price back from the text of a card's `price` and `period`:
      "$" and whole dollars, then "" or "." and exactly two digits of cents. */
  function DisplayedCents(price: string, period: string): Option<nat> {
    if |price| >= 2 && price[0] == '$' && AllDigits(price[1..]) then
      var dollars := ParseDigits(price[1..]);
      if period == "" then Some(dollars * 100)
      else if |period| == 3 && period[0] == '.' && AllDigits(period[1..]) then
        Some(dollars * 100 + ParseDigits(period[1..]))
      else None
    else None
  }

  /** The period is empty exactly when the price is a whole number of
      dollars. */
  lemma PeriodEmptyIff(priceCents: nat)
    ensures PeriodText(priceCents) == "" <==> priceCents % 100 == 0
  {
  }

  /** The two cent digits of a card read back as the cents. */
  lemma CentsRoundTrip(cents: nat)
    requires 0 < cents < 100
    ensures var d := PadStart(NatToString(cents), 2, '0');
      |d| == 2 && AllDigits(d) && ParseDigits(d) == cents
  {
    var digits := NatToString(cents);
    ParseNatToString(cents);
    if |digits| == 1 {
      assert PadStart(digits, 2, '0') == ['0'] + digits;
      ParseLeadingZero(digits);
    }
  }

  /** The text after "$" reads back as the whole dollars. */
  lemma DollarsRoundTrip(priceCents: nat)
    ensures var t := PriceText(priceCents);
      |t| >= 2 && t[0] == '$' && AllDigits(t[1..]) && ParseDigits(t[1..]) == priceCents / 100
  {
    var t := PriceText(priceCents);
    assert t[1..] == NatToString(priceCents / 100);
    ParseNatToString(priceCents / 100);
  }

  /** The period reads back as the cents of the price: empty for a whole
      dollar amount, otherwise "." and two digits of cents. */
  lemma CentsTextRoundTrip(priceCents: nat)
    ensures var period := PeriodText(priceCents);
      || (period == "" && priceCents % 100 == 0)
      || (|period| == 3 && period[0] == '.' && AllDigits(period[1..]) && ParseDigits(period[1..]) == priceCents % 100)
  {
    var cents := priceCents % 100;
    if cents > 0 {
      CentsRoundTrip(cents);
      assert PeriodText(priceCents)[1..] == PadStart(NatToString(cents), 2, '0');
    }
  }

  /** A price text carrying the whole dollars and a period text carrying
      the cents read back as the amount. */
  lemma DisplayedCentsOf(price: string, period: string, priceCents: nat)
    requires |price| >= 2 && price[0] == '$' && AllDigits(price[1..]) && ParseDigits(price[1..]) == priceCents / 100
    requires || (period == "" && priceCents % 100 == 0)
             || (|period| == 3 && period[0] == '.' && AllDigits(period[1..]) && ParseDigits(period[1..]) == priceCents % 100)
    ensures DisplayedCents(price, period) == Some(priceCents)
  {
    assert priceCents / 100 * 100 + priceCents % 100 == priceCents;
  }

  /** A card's price and period read back as the tier's price in cents, so
      no amount is lost or altered by the dollar and cent formatting. */
  lemma PriceRoundTrip(priceCents: nat)
    ensures DisplayedCents(PriceText(priceCents), PeriodText(priceCents)) == Some(priceCents)
  {
    DollarsRoundTrip(priceCents);
    CentsTextRoundTrip(priceCents);
    DisplayedCentsOf(PriceText(priceCents), PeriodText(priceCents), priceCents);
  }

  /** The features of a paid tier: the portrait count first, priority
      generation last, and "Print-ready files" exactly when the tier has at
      least ten portraits, which makes four or five features. */
  lemma TierFeaturesShape(portraits: int)
    ensures var f := TierFeatures(portraits);
      && |f| == (if portraits >= PrintReadyMinimum then 5 else 4)
      && f[0] == IntToString(portraits) + " AI portraits"
      && f[|f| - 1] == Priority
      && (PrintReady in f <==> portraits >= PrintReadyMinimum)
  {
    var f := TierFeatures(portraits);
    if portraits < PrintReadyMinimum {
      assert f == [f[0], "All sports & styles", "HD resolution", Priority];
      assert PrintReady != f[0] by {
        var n := IntToString(portraits);
        assert f[0][|n|..] == " AI portraits";
        assert |f[0]| == |n| + 13;
      }
    }
  }

  /** The labels of a paid card: name copied, the highlight is the tier's
      `featured` flag, "Get Started" marks exactly the highlighted cards, and
      the first paid tier is "Most popular for families" and every later one
      "For the superfan family". */
  lemma PaidPlanLabels(tier: Tier, index: nat)
    ensures var p := PaidPlan(tier, index);
      && p.name == tier.name
      && p.highlight == tier.featured
      && (p.cta == FeaturedCta <==> p.highlight)
      && (p.cta == FeaturedCta || p.cta == PlainCta)
      && p.desc == (if index == 0 then FirstTierDesc else LaterTierDesc)
  {
  }

  /** The free card states its allowance first and is never highlighted. */
  lemma FreePlanShape(freePortraits: int)
    ensures var p := FreePlan(freePortraits);
      && p.price == "$0" && p.period == "" && !p.highlight
      && DisplayedCents(p.price, p.period) == Some(0)
      && ParseInt(p.features[0][..|p.features[0]| - 18]) == Some(freePortraits)
      && p.features[0][|p.features[0]| - 18..] == " free AI portraits"
  {
    var p := FreePlan(freePortraits);
    var n := IntToString(freePortraits);
    assert p.features[0][..|p.features[0]| - 18] == n;
    ParseIntToString(freePortraits);
    assert p.price[1..] == "0";
    assert ParseDigits("0") == 0 by { assert "0"[..0] == []; }
  }

  /** The built-in list is not what the builder makes from any settings: its
      middle card lists "Multiple poses" and its last a print, neither of
      which a built card has. */
  lemma DefaultIsNotBuilt(s: SalesSettings, plans: seq<Plan>)
    requires |plans| == 1 + |s.pricing|
    requires forall i :: 0 <= i < |s.pricing| ==> plans[i + 1] == PaidPlan(s.pricing[i], i)
    ensures plans != DefaultPricing()
  {
    if plans == DefaultPricing() {
      var t := s.pricing[0];
      assert plans[1] == PaidPlan(t, 0);
      TierFeaturesShape(t.portraits);
      assert false;
    }
  }

  /** The home page's pricing state. */
  class Home {
    var pricing: seq<Plan>

    constructor ()
      ensures pricing == DefaultPricing()
    {
      pricing := DefaultPricing();
    }

    /** The settings request settled: a null result keeps the list shown so
        far, settings replace it with the built list. */
    method SettingsLoaded(s: Option<SalesSettings>)
      modifies this
      ensures s.None? ==> pricing == old(pricing)
      ensures s.Some? ==>
        && |pricing| == 1 + |s.value.pricing|
        && pricing[0] == FreePlan(s.value.freePortraits)
        && forall i :: 0 <= i < |s.value.pricing| ==> pricing[i + 1] == PaidPlan(s.value.pricing[i], i)
    {
      if s.Some? {
        pricing := BuildPricingFromSettings(s.value);
      }
    }
  }
}
