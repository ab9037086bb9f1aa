/** Which accounts a business event is booked to. */
module AccountMapping {
  import opened Wrappers
  import opened FeeVat
  import opened Text

  datatype EventType = OrderCreated | Sale | Cancellation | Refund | Fee | Adjustment | Settlement | Payout

  /** One marketplace's accounts; an empty string is "not configured". */
  datatype MarketplaceAccounts = MarketplaceAccounts(clearing: string, fee: string, refund: string, debtor: string,
                                                     revenue: string, fxGain: string, fxLoss: string, adjustment: string)

  function NoAccounts(): MarketplaceAccounts {
    MarketplaceAccounts("", "", "", "", "", "", "", "")
  }

  datatype ClearingConfig = ClearingConfig(revenueDefault: string, marketplaces: map<Marketplace, MarketplaceAccounts>,
                                           feeVat: map<Marketplace, Overlay>, provisionalFx: bool)

  datatype Accounts = Accounts(primary: string, contra: string, bookable: bool)

  function AccountsOf(marketplace: Option<Marketplace>, config: ClearingConfig): MarketplaceAccounts {
    if marketplace.Some? && marketplace.value in config.marketplaces then config.marketplaces[marketplace.value]
    else NoAccounts()
  }

  function OverlayOf(marketplace: Option<Marketplace>, config: ClearingConfig): Overlay {
    if marketplace.Some? && marketplace.value in config.feeVat then config.feeVat[marketplace.value] else NoOverlay()
  }

  predicate NoRevenue(t: EventType) {
    t == OrderCreated || t == Cancellation
  }

  function Resolve(t: EventType, marketplace: Option<Marketplace>, config: ClearingConfig): Accounts {
    var mp, revenue := AccountsOf(marketplace, config), config.revenueDefault;
    match t
    case OrderCreated => Accounts("", "", false)
    case Cancellation => Accounts("", "", false)
    case Sale => Accounts(FirstSet(mp.revenue, FirstSet(revenue, mp.debtor)), FirstSet(mp.clearing, mp.debtor), true)
    case Settlement => Accounts(mp.clearing, FirstSet(mp.debtor, mp.clearing), true)
    case Payout => Accounts(mp.clearing, FirstSet(mp.debtor, mp.clearing), true)
    case Fee => Accounts(FirstSet(mp.fee, revenue), mp.clearing, true)
    case Refund => Accounts(FirstSet(mp.refund, revenue), mp.clearing, true)
    case Adjustment => Accounts(FirstSet(mp.adjustment, revenue), mp.clearing, true)
  }

  method ResolveAccountsForEvent(t: EventType, marketplace: Option<Marketplace>, config: ClearingConfig)
    returns (accounts: Accounts)
    ensures accounts == Resolve(t, marketplace, config)
  {
    var mp := AccountsOf(marketplace, config);
    var primary := config.revenueDefault;
    var contra := mp.clearing;
    var bookable := true;
    match t {
      case OrderCreated | Cancellation =>
        bookable := false;
        primary := "";
        contra := "";
      case Sale =>
        primary := FirstSet(mp.revenue, FirstSet(config.revenueDefault, mp.debtor));
        contra := FirstSet(mp.clearing, mp.debtor);
      case Settlement | Payout =>
        primary := mp.clearing;
        contra := FirstSet(mp.debtor, mp.clearing);
      case Fee =>
        primary := FirstSet(mp.fee, primary);
        contra := FirstSet(mp.clearing, contra);
      case Refund =>
        primary := FirstSet(mp.refund, primary);
        contra := FirstSet(mp.clearing, contra);
      case Adjustment =>
        primary := FirstSet(mp.adjustment, primary);
        contra := FirstSet(mp.clearing, contra);
    }
    accounts := Accounts(primary, contra, bookable);
  }

  /** Nothing is booked for an event without a marketplace: it never has a contra account. */
  lemma NoMarketplaceNoContra(t: EventType, config: ClearingConfig)
    ensures Resolve(t, None, config).contra == ""
    ensures Resolve(t, None, config).bookable <==> !NoRevenue(t)
  {
  }

  /** Two configurations give a marketplace the same clearing and debtor accounts. */
  predicate SameClearing(marketplace: Option<Marketplace>, a: ClearingConfig, b: ClearingConfig) {
    AccountsOf(marketplace, a).clearing == AccountsOf(marketplace, b).clearing
    && AccountsOf(marketplace, a).debtor == AccountsOf(marketplace, b).debtor
  }

  /**
   * Settlements and payouts never touch revenue: no revenue, fee, refund or adjustment account, configured for the
   * marketplace or as the default, has any influence on them. Without a debtor account of its own the clearing account
   * is booked against itself.
   */
  lemma SettlementIsClearingOnly(t: EventType, marketplace: Option<Marketplace>, a: ClearingConfig, b: ClearingConfig)
    requires t == Settlement || t == Payout
    requires SameClearing(marketplace, a, b)
    ensures Resolve(t, marketplace, a) == Resolve(t, marketplace, b)
    ensures Resolve(t, marketplace, a).primary == Resolve(t, marketplace, a).contra <==>
      AccountsOf(marketplace, a).debtor in {"", AccountsOf(marketplace, a).clearing}
  {
  }

  /** With a clearing account every other booking is made against it, whatever else is configured. */
  lemma ContraIsClearing(t: EventType, marketplace: Option<Marketplace>, config: ClearingConfig)
    requires !NoRevenue(t) && t != Settlement && t != Payout && AccountsOf(marketplace, config).clearing != ""
    ensures Resolve(t, marketplace, config).contra == AccountsOf(marketplace, config).clearing
    ensures Resolve(t, marketplace, config).primary != "" <== config.revenueDefault != ""
  {
  }
}
