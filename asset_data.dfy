/** The asset record shared by the fetch, display and publish paths
    (AssetData in crypto_display.h). */
module Assets {

  /** One tracked instrument. `symbol`, `name`, `nameWidth`, `isStock` and
      `currency` are fixed at start-up; the fetch path changes `price`,
      `previousPrice`, `priceIncreased`, `firstUpdate` and `lastUpdated`;
      `iconX` and `textX` are layout results of the display. */
  datatype AssetData = AssetData(
    symbol: string,
    name: string,
    price: real,
    lastUpdated: string,
    iconX: int,
    textX: int,
    nameWidth: int,
    isStock: bool,
    currency: string,
    previousPrice: real,
    priceIncreased: bool,
    firstUpdate: bool)

  /** The fields fixed at start-up agree between two records. */
  predicate SameIdentity(a: AssetData, b: AssetData) {
    && a.symbol == b.symbol && a.name == b.name && a.nameWidth == b.nameWidth
    && a.isStock == b.isStock && a.currency == b.currency
    && a.iconX == b.iconX && a.textX == b.textX
  }
}
