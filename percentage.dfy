/** The profit-percentage bar: the three-way colour class of the percentage
    component (also the `percentageClass` getter of sCIS_Costing), its width
    text, and the red-to-green gradient of scisFunderCostingTest. */
module Percentage {
  import Text

  /** The bar classes, ordered from worst to best. */
  datatype Tier = Red | Yellow | Green {

    function CssClass(): string {
      match this
      case Red => "red-bar"
      case Yellow => "yellow-bar"
      case Green => "green-bar"
    }

    function Rank(): nat {
      match this
      case Red => 0
      case Yellow => 1
      case Green => 2
    }
  }

  const GREEN_THRESHOLD: real := 35.0

  /** The `@api profitPercentage = 33` default of the percentage component. */
  const DEFAULT_PERCENTAGE: real := 33.0

  /** `percentageClass`: green from 35 up, yellow strictly between 0 and 35,
      red otherwise (0 itself and every negative value). */
  function ProfitTier(p: real): (t: Tier)
    ensures t == Green <==> p >= GREEN_THRESHOLD
    ensures t == Yellow <==> 0.0 < p < GREEN_THRESHOLD
    ensures t == Red <==> p <= 0.0
  {
    if p >= GREEN_THRESHOLD then Green
    else if p > 0.0 && p < GREEN_THRESHOLD then Yellow
    else Red
  }

  /** A higher percentage never gets a worse class. */
  lemma TierMonotone(p: real, q: real)
    requires p <= q
    ensures ProfitTier(p).Rank() <= ProfitTier(q).Rank()
  {
  }

  /** The three class names are distinct, so the class names the tier. */
  lemma CssClassInjective(s: Tier, t: Tier)
    requires s.CssClass() == t.CssClass()
    ensures s == t
  {
    assert s.CssClass()[0] == t.CssClass()[0];
  }

  /** Example: the default percentage of 33 shows the yellow bar. */
  lemma DefaultIsYellow()
    ensures ProfitTier(DEFAULT_PERCENTAGE).CssClass() == "yellow-bar"
  {
  }

  /** `percentageWidth`: the rendered percentage followed by '%'. */
  function PercentageWidth(rendered: string): (w: string)
    ensures |w| == |rendered| + 1 && w[|rendered|] == '%'
    ensures w[..|rendered|] == rendered
  {
    rendered + "%"
  }

  /** Reading the percentage back out of a width text: a trailing '%' is
      dropped, any other text is kept. */
  function WidthPercentage(w: string): (r: string)
    ensures |w| > 0 && w[|w| - 1] == '%' ==> r + "%" == w
    ensures !(|w| > 0 && w[|w| - 1] == '%') ==> r == w
  {
    if |w| > 0 && w[|w| - 1] == '%' then w[..|w| - 1] else w
  }

  lemma WidthRoundTrip(rendered: string)
    ensures WidthPercentage(PercentageWidth(rendered)) == rendered
  {
    var w := PercentageWidth(rendered);
    assert w[..|w| - 1] == rendered;
  }

  /** Example: the default percentage of 33 is 33% wide. */
  lemma DefaultWidth()
    ensures PercentageWidth(Text.NatToString(33)) == "33%"
  {
    assert Text.NatToString(33) == Text.NatToString(3) + [Text.DigitChar(3)];
  }

  /** `profitBarColor` of scisFunderCostingTest. */
  datatype BarColor = GreenColor | RedColor | Gradient(red: nat, green: nat) {

    /** The CSS colour the getter returns: a colour name, or the
        `rgb(red, green, 0)` text with both channels in decimal. */
    function Css(): (s: string)
      ensures this == GreenColor ==> s == "green"
      ensures this == RedColor ==> s == "red"
      ensures Gradient? ==> s == "rgb(" + Text.NatToString(red) + ", " + Text.NatToString(green) + ", 0)"
    {
      match this
      case GreenColor => "green"
      case RedColor => "red"
      case Gradient(r, g) => "rgb(" + Text.NatToString(r) + ", " + Text.NatToString(g) + ", 0)"
    }
  }

  /** `Math.floor((p / 35) * 255)`, the green intensity of the gradient. */
  function GreenIntensity(p: real): (g: int)
    requires 0.0 <= p <= GREEN_THRESHOLD
    ensures 0 <= g <= 255
    ensures g as real <= p / 35.0 * 255.0 < g as real + 1.0
  {
    var x := p / 35.0 * 255.0;
    assert 0.0 <= x <= 255.0;
    x.Floor
  }

  /** Green above 35, red below 0, and in between `rgb(255 - g, g, 0)` with
      `g` the green intensity, so the red and green channels always add up
      to 255. */
  function ProfitBarColor(p: real): (c: BarColor)
    ensures p > GREEN_THRESHOLD ==> c == GreenColor
    ensures p < 0.0 ==> c == RedColor
    ensures 0.0 <= p <= GREEN_THRESHOLD ==> c == Gradient(255 - GreenIntensity(p), GreenIntensity(p))
    ensures 0.0 <= p <= GREEN_THRESHOLD ==> c.green <= 255 && c.red + c.green == 255
    ensures p == 0.0 ==> c == Gradient(255, 0)
    ensures p == GREEN_THRESHOLD ==> c == Gradient(0, 255)
  {
    if p > GREEN_THRESHOLD then GreenColor
    else if p >= 0.0 && p <= GREEN_THRESHOLD then
      var g := GreenIntensity(p);
      Gradient(255 - g, g)
    else RedColor
  }

  /** Within the gradient, more profit means at least as much green. */
  lemma GreenIntensityMonotone(p: real, q: real)
    requires 0.0 <= p <= q <= GREEN_THRESHOLD
    ensures ProfitBarColor(p).green <= ProfitBarColor(q).green
  {
    var gp, gq := GreenIntensity(p), GreenIntensity(q);
    assert p / 35.0 * 255.0 <= q / 35.0 * 255.0;
    assert gp as real < gq as real + 1.0;
  }
}
