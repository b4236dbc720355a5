/**
 * The property detail page: the record lookup by route id, the image gallery
 * whose index wraps around the image list, the ROI projection computed from
 * three slider-bounded inputs, and the crore / lakh / plain tier chosen for
 * displaying an amount.
 */
module PropertyDetails {
  import opened Wrappers
  import opened Cyclic

  /** One record of the page's mock property table (the fields the logic uses). */
  datatype Property = Property(
    id: string,
    name: string,
    tenant: string,
    tenantType: string,
    monthlyRent: nat,    // whole rupees
    roiTenths: nat,      // 8.2 % is 82
    price: nat,          // whole rupees
    images: seq<string>)

  const Properties: seq<Property> := [
    Property("1", "Premium Bank Leased Property", "HDFC Bank", "Bank", 280_000, 82, 41_000_000,
      ["https://images.unsplash.com/photo-1486406146926-c627a92ad1ab?w=1200&q=80",
       "https://images.unsplash.com/photo-1497366216548-37526070297c?w=1200&q=80",
       "https://images.unsplash.com/photo-1497366811353-6870744d04b2?w=1200&q=80",
       "https://images.unsplash.com/photo-1486718448742-163732cd1544?w=1200&q=80"]),
    Property("2", "Corporate Office Space", "Infosys Ltd", "IT", 390_000, 78, 60_000_000,
      ["https://images.unsplash.com/photo-1497366216548-37526070297c?w=1200&q=80",
       "https://images.unsplash.com/photo-1497366811353-6870744d04b2?w=1200&q=80",
       "https://images.unsplash.com/photo-1486406146926-c627a92ad1ab?w=1200&q=80",
       "https://images.unsplash.com/photo-1486718448742-163732cd1544?w=1200&q=80"])
  ]

  // ---------------------------------------------------------------------------
  // Property lookup
  // ---------------------------------------------------------------------------

  predicate HasId(props: seq<Property>, id: string) {
    exists i :: 0 <= i < |props| && props[i].id == id
  }

  /** The first record whose id equals `id`, as Array.prototype.find returns it. */
  function Find(props: seq<Property>, id: string): (r: Option<Property>)
    ensures r.None? <==> !HasId(props, id)
    ensures r.Some? ==> r.value in props && r.value.id == id
  {
    if props == [] then None
    else if props[0].id == id then Some(props[0])
    else
      assert HasId(props, id) ==> HasId(props[1..], id) by {
        if HasId(props, id) {
          var i :| 0 <= i < |props| && props[i].id == id;
          assert props[1..][i - 1].id == id;
        }
      }
      Find(props[1..], id)
  }

  /** Of several matching records, the one nearest the front is returned. */
  lemma {:induction false} FindReturnsFirst(props: seq<Property>, id: string, i: nat)
    requires i < |props| && props[i].id == id
    requires forall j :: 0 <= j < i ==> props[j].id != id
    ensures Find(props, id) == Some(props[i])
  {
    if i > 0 {
      FindReturnsFirst(props[1..], id, i - 1);
    }
  }

  /**
   * The record shown for a route id: the matching record, or the first record
   * for a missing or unknown id.
   */
  function LookupProperty(id: Option<string>): (p: Property)
    ensures p in Properties && |p.images| == 4
    ensures id.Some? && HasId(Properties, id.value) ==> p.id == id.value
    ensures !(id.Some? && HasId(Properties, id.value)) ==> p == Properties[0]
  {
    var found := if id.Some? then Find(Properties, id.value) else None;
    if found.Some? then found.value else Properties[0]
  }

  /** The ids "3" to "6" linked from the listing have no detail record and show record "1". */
  lemma ListingIdsFallBack()
    ensures forall k :: k in ["3", "4", "5", "6"] ==> LookupProperty(Some(k)) == Properties[0]
  {
    forall k | k in ["3", "4", "5", "6"] ensures !HasId(Properties, k) {
      assert Properties[0].id == "1" && Properties[1].id == "2";
    }
  }

  // ---------------------------------------------------------------------------
  // Gallery navigation
  // ---------------------------------------------------------------------------

  // The gallery steps with Cyclic.NextIndex and Cyclic.PrevIndex (see the class below).

  // ---------------------------------------------------------------------------
  // ROI projection
  // ---------------------------------------------------------------------------

  const MinInvestment := 10_000_000
  const MaxInvestment := 100_000_000
  const InvestmentStep := 1_000_000
  const MinRoiTenths := 50
  const MaxRoiTenths := 120
  const MinYears := 1
  const MaxYears := 15
  /** The fixed straight-line appreciation rate, in percent per year. */
  const AppreciationPercent := 5

  /** The three slider values; the expected ROI is kept in tenths of a percent. */
  datatype CalculatorInput = CalculatorInput(investmentAmount: int, expectedRoiTenths: int, holdingPeriod: int)

  /** A position each slider can take: within its bounds and on its step grid. */
  predicate ValidInput(c: CalculatorInput) {
    && MinInvestment <= c.investmentAmount <= MaxInvestment && c.investmentAmount % InvestmentStep == 0
    && MinRoiTenths <= c.expectedRoiTenths <= MaxRoiTenths
    && MinYears <= c.holdingPeriod <= MaxYears
  }

  datatype Projection = Projection(
    annualRent: int,
    totalRentalIncome: int,
    estimatedAppreciation: int,
    totalReturns: int,
    totalValue: int)

  /**
   * The five derived amounts. The appreciation `investment * 0.05 * years` is
   * computed in integers; on the slider grid the division by 100 is exact.
   */
  function Project(monthlyRent: nat, c: CalculatorInput): (r: Projection)
    requires ValidInput(c)
    ensures r.annualRent == 12 * monthlyRent
    ensures r.totalRentalIncome == monthlyRent * 12 * c.holdingPeriod
    ensures 100 * r.estimatedAppreciation == c.investmentAmount * AppreciationPercent * c.holdingPeriod
    ensures r.totalReturns == r.totalRentalIncome + r.estimatedAppreciation
    ensures r.totalValue == c.investmentAmount + r.totalRentalIncome + r.estimatedAppreciation
  {
    var annualRent := monthlyRent * 12;
    var totalRentalIncome := annualRent * c.holdingPeriod;
    var k := c.investmentAmount / InvestmentStep;
    assert c.investmentAmount * AppreciationPercent * c.holdingPeriod == (k * 50_000 * c.holdingPeriod) * 100;
    var estimatedAppreciation := c.investmentAmount * AppreciationPercent * c.holdingPeriod / 100;
    var totalReturns := totalRentalIncome + estimatedAppreciation;
    Projection(annualRent, totalRentalIncome, estimatedAppreciation, totalReturns, c.investmentAmount + totalReturns)
  }

  /** The expected-ROI slider takes no part in any of the five amounts. */
  lemma ExpectedRoiIgnored(monthlyRent: nat, c: CalculatorInput, roiTenths: int)
    requires ValidInput(c) && MinRoiTenths <= roiTenths <= MaxRoiTenths
    ensures Project(monthlyRent, c.(expectedRoiTenths := roiTenths)) == Project(monthlyRent, c)
  {
  }

  /** Every amount grows (weakly) with the investment and with the holding period. */
  lemma ProjectionMonotone(monthlyRent: nat, c: CalculatorInput, d: CalculatorInput)
    requires ValidInput(c) && ValidInput(d)
    requires c.investmentAmount <= d.investmentAmount && c.holdingPeriod <= d.holdingPeriod
    ensures var p, q := Project(monthlyRent, c), Project(monthlyRent, d);
      && p.annualRent <= q.annualRent
      && p.totalRentalIncome <= q.totalRentalIncome
      && p.estimatedAppreciation <= q.estimatedAppreciation
      && p.totalReturns <= q.totalReturns
      && p.totalValue <= q.totalValue
  {
    var p, q := Project(monthlyRent, c), Project(monthlyRent, d);
    MulMonotone(monthlyRent * 12, c.holdingPeriod, d.holdingPeriod);
    MulMonotone(c.holdingPeriod, c.investmentAmount, d.investmentAmount);
    MulMonotone(d.investmentAmount, c.holdingPeriod, d.holdingPeriod);
    assert c.investmentAmount * c.holdingPeriod <= d.investmentAmount * d.holdingPeriod;
    assert 100 * p.estimatedAppreciation <= 100 * q.estimatedAppreciation;
  }

  lemma MulMonotone(a: nat, x: int, y: int)
    requires x <= y
    ensures a * x <= a * y
  {
  }

  /**
   * For a given rent, the shortest holding of the smallest investment gives the
   * smallest total return, and the longest holding of the largest the largest.
   */
  lemma TotalReturnsExtremes(monthlyRent: nat, c: CalculatorInput)
    requires ValidInput(c)
    ensures Project(monthlyRent, CalculatorInput(MinInvestment, c.expectedRoiTenths, MinYears)).totalReturns
            <= Project(monthlyRent, c).totalReturns
            <= Project(monthlyRent, CalculatorInput(MaxInvestment, c.expectedRoiTenths, MaxYears)).totalReturns
  {
    ProjectionMonotone(monthlyRent, CalculatorInput(MinInvestment, c.expectedRoiTenths, MinYears), c);
    ProjectionMonotone(monthlyRent, c, CalculatorInput(MaxInvestment, c.expectedRoiTenths, MaxYears));
  }

  /** The first property at the page's initial slider values. */
  lemma InitialScenario()
    ensures Project(280_000, CalculatorInput(41_000_000, 82, 5))
            == Projection(3_360_000, 16_800_000, 10_250_000, 27_050_000, 68_050_000)
  {
  }

  // ---------------------------------------------------------------------------
  // Currency display tier
  // ---------------------------------------------------------------------------

  datatype CurrencyTier = Crore | Lakh | Plain

  const Crore1 := 10_000_000
  const Lakh1 := 100_000

  /** Which of the three display forms `formatCurrency` uses for an amount. */
  function TierOf(amount: int): (t: CurrencyTier)
    ensures t == Crore <==> amount >= Crore1
    ensures t == Lakh <==> Lakh1 <= amount < Crore1
    ensures t == Plain <==> amount < Lakh1
  {
    if amount >= Crore1 then Crore else if amount >= Lakh1 then Lakh else Plain
  }

  /** The final value is at least the investment, so it is always shown in crores. */
  lemma TotalValueShownInCrores(monthlyRent: nat, c: CalculatorInput)
    requires ValidInput(c)
    ensures TierOf(Project(monthlyRent, c).totalValue) == Crore
  {
    var p := Project(monthlyRent, c);
    MulMonotone(monthlyRent * 12, 0, c.holdingPeriod);
    MulMonotone(c.investmentAmount * AppreciationPercent, 0, c.holdingPeriod);
    assert p.estimatedAppreciation >= 0;
  }

  // ---------------------------------------------------------------------------
  // Page state
  // ---------------------------------------------------------------------------

  /** The detail page's state: the record shown, the gallery position and the sliders. */
  class PropertyView {
    const property: Property
    var currentImageIndex: nat
    var investmentAmount: int
    var expectedRoiTenths: int
    var holdingPeriod: int

    function Input(): CalculatorInput
      reads this
    {
      CalculatorInput(investmentAmount, expectedRoiTenths, holdingPeriod)
    }

    ghost predicate Valid()
      reads this
    {
      currentImageIndex < |property.images| && ValidInput(Input())
    }

    /** The five amounts the calculator shows for the current state. */
    function Projected(): Projection
      reads this
      requires Valid()
    {
      Project(property.monthlyRent, Input())
    }

    constructor (id: Option<string>)
      ensures Valid()
      ensures property == LookupProperty(id)
      ensures currentImageIndex == 0
      ensures Input() == CalculatorInput(41_000_000, 82, 5)
    {
      property := LookupProperty(id);
      currentImageIndex := 0;
      investmentAmount, expectedRoiTenths, holdingPeriod := 41_000_000, 82, 5;
    }

    method NextImage()
      requires Valid()
      modifies this`currentImageIndex
      ensures Valid()
      ensures currentImageIndex == NextIndex(old(currentImageIndex), |property.images|)
    {
      currentImageIndex := (currentImageIndex + 1) % |property.images|;
    }

    method PrevImage()
      requires Valid()
      modifies this`currentImageIndex
      ensures Valid()
      ensures currentImageIndex == PrevIndex(old(currentImageIndex), |property.images|)
    {
      currentImageIndex := if currentImageIndex == 0 then |property.images| - 1 else currentImageIndex - 1;
    }

    /** A click on an indicator dot or a thumbnail; one is rendered per image. */
    method SelectImage(index: nat)
      requires Valid() && index < |property.images|
      modifies this`currentImageIndex
      ensures Valid() && currentImageIndex == index
    {
      currentImageIndex := index;
    }

    method SetInvestmentAmount(amount: int)
      requires Valid() && ValidInput(Input().(investmentAmount := amount))
      modifies this`investmentAmount
      ensures Valid() && Input() == old(Input()).(investmentAmount := amount)
    {
      investmentAmount := amount;
    }

    /** Moving the expected-ROI slider changes no displayed amount. */
    method SetExpectedRoi(roiTenths: int)
      requires Valid() && ValidInput(Input().(expectedRoiTenths := roiTenths))
      modifies this`expectedRoiTenths
      ensures Valid() && Input() == old(Input()).(expectedRoiTenths := roiTenths)
      ensures Projected() == old(Projected())
    {
      expectedRoiTenths := roiTenths;
    }

    method SetHoldingPeriod(years: int)
      requires Valid() && ValidInput(Input().(holdingPeriod := years))
      modifies this`holdingPeriod
      ensures Valid() && Input() == old(Input()).(holdingPeriod := years)
    {
      holdingPeriod := years;
    }
  }
}
