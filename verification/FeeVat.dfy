/** VAT on marketplace fees: reverse charge (section 13b UStG), German input VAT, or none. */
module FeeVat {
  import opened Folds
  import opened Wrappers
  import opened Datev

  datatype Marketplace = Amazon | Backmarket | Refurbed | Kaufland

  datatype Treatment = Auto | ReverseCharge | InputVat | NoVat

  datatype VatConfig = VatConfig(treatment: Treatment, ratePercent: real, inputVatAccount: string,
                                 outputVatAccount: Option<string>)

  /** Admin settings for one marketplace; what is not set falls back to the default. */
  datatype Overlay = Overlay(treatment: Option<Treatment>, ratePercent: Option<real>, inputVatAccount: string,
                             outputVatAccount: Option<Option<string>>)

  function NoOverlay(): Overlay {
    Overlay(None, None, "", None)
  }

  function DefaultVat(marketplace: Option<Marketplace>): VatConfig {
    match marketplace
    case Some(Amazon) => VatConfig(InputVat, 19.0, "1576", None)
    case Some(Backmarket) => VatConfig(ReverseCharge, 19.0, "1577", Some("1787"))
    case Some(Refurbed) => VatConfig(ReverseCharge, 19.0, "1577", Some("1787"))
    case _ => VatConfig(NoVat, 19.0, "1577", Some("1787"))
  }

  /** An explicit override wins; then the merged settings unless they say "auto"; then the marketplace default. */
  function ResolveTreatment(marketplace: Option<Marketplace>, override: Option<Treatment>, configured: Treatment): (t: Treatment)
    ensures t != Auto
    ensures override.Some? && override.value != Auto ==> t == override.value
  {
    if override.Some? && override.value != Auto then override.value
    else if configured != Auto then configured
    else DefaultVat(marketplace).treatment
  }

  function ResolveConfig(marketplace: Option<Marketplace>, override: Option<Treatment>, overlay: Overlay): VatConfig {
    var base := DefaultVat(marketplace);
    var treatment := overlay.treatment.GetOr(base.treatment);
    VatConfig(ResolveTreatment(marketplace, override, treatment),
              overlay.ratePercent.GetOr(base.ratePercent),
              if overlay.inputVatAccount != "" then overlay.inputVatAccount else base.inputVatAccount,
              overlay.outputVatAccount.GetOr(base.outputVatAccount))
  }

  /** Math.round: the nearest integer, halves upwards. */
  function Round(x: real): int {
    (x + 0.5).Floor
  }

  function VatCentsFromNet(netCents: int, ratePercent: real): int {
    if netCents == 0 || ratePercent == 0.0 then 0
    else Round(Abs(netCents) as real * ratePercent / 100.0)
  }

  /** The VAT is never more than half a cent away from the exact one. */
  lemma VatIsRounded(netCents: int, ratePercent: real)
    ensures -50.0 <= 100.0 * VatCentsFromNet(netCents, ratePercent) as real - Abs(netCents) as real * ratePercent <= 50.0
  {
  }

  lemma VatIsMonotone(net1: int, net2: int, ratePercent: real)
    requires 0.0 <= ratePercent && Abs(net1) <= Abs(net2)
    ensures VatCentsFromNet(net1, ratePercent) <= VatCentsFromNet(net2, ratePercent)
  {
    var a, b := Abs(net1) as real, Abs(net2) as real;
    assert a * ratePercent <= b * ratePercent;
    if net1 == 0 || ratePercent == 0.0 {
      assert 0.0 <= b * ratePercent;
    }
  }

  function VatOf(ratePercent: real): int -> int {
    (netCents: int) => VatCentsFromNet(netCents, ratePercent)
  }

  function NetOf(): int -> int {
    (netCents: int) => Abs(netCents)
  }

  /** `vat` cents are within n half cents of the exact VAT of `net` cents. */
  predicate Near(vat: int, net: int, rate: real, n: nat) {
    -50.0 * n as real <= 100.0 * vat as real - net as real * rate <= 50.0 * n as real
  }

  lemma NearSum(vat1: int, vat2: int, net1: int, net2: int, rate: real, n: nat)
    requires Near(vat1, net1, rate, 1) && Near(vat2, net2, rate, n)
    ensures Near(vat1 + vat2, net1 + net2, rate, n + 1)
  {
    assert (net1 + net2) as real * rate == net1 as real * rate + net2 as real * rate;
  }

  lemma NearBoth(vat1: int, vat2: int, net: int, rate: real, n: nat)
    requires Near(vat1, net, rate, n) && Near(vat2, net, rate, 1)
    ensures 2 * Abs(vat1 - vat2) <= n + 1
  {
  }

  lemma {:induction false} RoundedOneByOne(fees: seq<int>, vat: int -> int, rate: real)
    requires forall x :: Near(vat(x), Abs(x), rate, 1)
    ensures Near(Sum(fees, vat), Sum(fees, NetOf()), rate, |fees|)
    ensures 0 <= Sum(fees, NetOf())
  {
    if fees != [] {
      RoundedOneByOne(fees[1..], vat, rate);
      NearSum(vat(fees[0]), Sum(fees[1..], vat), Abs(fees[0]), Sum(fees[1..], NetOf()), rate, |fees[1..]|);
    }
  }

  lemma RoundedOnce(fees: seq<int>, vat: int -> int, rate: real)
    requires forall x :: Near(vat(x), Abs(x), rate, 1)
    ensures 2 * Abs(Sum(fees, vat) - vat(Sum(fees, NetOf()))) <= |fees| + 1
  {
    RoundedOneByOne(fees, vat, rate);
    var net := Sum(fees, NetOf());
    NearBoth(Sum(fees, vat), vat(net), net, rate, |fees|);
  }

  /** The VAT of n fees, rounded one by one, differs from the VAT of their sum by at most (n + 1) / 2 cents. */
  lemma VatOfFeesAndOfTheirSum(fees: seq<int>, ratePercent: real)
    ensures 2 * Abs(Sum(fees, VatOf(ratePercent)) - VatCentsFromNet(Sum(fees, NetOf()), ratePercent)) <= |fees| + 1
  {
    forall x ensures Near(VatOf(ratePercent)(x), Abs(x), ratePercent, 1) {
      VatIsRounded(x, ratePercent);
    }
    RoundedOnce(fees, VatOf(ratePercent), ratePercent);
  }

  datatype VatLine = VatLine(account: string, side: Side, amountCents: int, buKey: string)

  datatype Extra = Extra(treatment: Treatment, vatCents: int, lines: seq<VatLine>)

  /** The journal lines that a FEE event gets in addition to the net booking. */
  function BuildFeeVatExtraLines(netCents: int, marketplace: Option<Marketplace>, override: Option<Treatment>,
                                 overlay: Overlay, clearingAccount: string): Extra
  {
    var cfg := ResolveConfig(marketplace, override, overlay);
    var vat := VatCentsFromNet(netCents, cfg.ratePercent);
    if cfg.treatment == NoVat || vat <= 0 then Extra(cfg.treatment, 0, [])
    else if cfg.treatment == ReverseCharge && cfg.inputVatAccount != "" && cfg.outputVatAccount.GetOr("") != "" then
      Extra(cfg.treatment, vat, [VatLine(cfg.inputVatAccount, S, vat, "94"), VatLine(cfg.outputVatAccount.value, H, vat, "94")])
    else if cfg.treatment == InputVat && cfg.inputVatAccount != "" then
      var contra := if clearingAccount != "" then clearingAccount else "1400";
      Extra(cfg.treatment, vat, [VatLine(cfg.inputVatAccount, S, vat, "9"), VatLine(contra, H, vat, "9")])
    else Extra(cfg.treatment, 0, [])
  }

  function VatOnSide(side: Side): VatLine -> int {
    (l: VatLine) => if l.side == side then l.amountCents else 0
  }

  /** Soll against Haben with one positive amount, on named accounts. */
  predicate IsVatPair(lines: seq<VatLine>) {
    && |lines| == 2
    && lines[0].side == S && lines[1].side == H
    && lines[0].amountCents == lines[1].amountCents > 0
    && lines[0].account != "" && lines[1].account != ""
  }

  /** Whatever the settings, the extra lines are balanced, positive and booked to named accounts. */
  lemma ExtraLinesAreBalanced(netCents: int, marketplace: Option<Marketplace>, override: Option<Treatment>,
                              overlay: Overlay, clearingAccount: string)
    ensures var extra := BuildFeeVatExtraLines(netCents, marketplace, override, overlay, clearingAccount);
      && Sum(extra.lines, VatOnSide(S)) == Sum(extra.lines, VatOnSide(H)) == extra.vatCents
      && (extra.lines == [] <==> extra.vatCents == 0)
      && (extra.lines != [] ==> IsVatPair(extra.lines))
  {
    var lines := BuildFeeVatExtraLines(netCents, marketplace, override, overlay, clearingAccount).lines;
    if lines != [] {
      assert lines == [lines[0]] + [lines[1]];
      SumCons(lines[0], [lines[1]], VatOnSide(S));
      SumCons(lines[1], [], VatOnSide(S));
      SumCons(lines[0], [lines[1]], VatOnSide(H));
      SumCons(lines[1], [], VatOnSide(H));
    }
  }
}
