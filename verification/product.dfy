/** The product-projection payload and its normalisation into `ProductData`:
    variant, image, price, currency and localized-text selection. */
module Product {
  import opened Wrappers
  import opened JsLogic
  import Seqs

  /** A locale-keyed text map such as `name` or `description`. */
  type LocalizedString = map<string, string>

  datatype Image = Image(url: string)

  /** An amount in the currency's smallest unit. */
  datatype Money = Money(currencyCode: string, centAmount: int)

  /** The optional `discounted` block; its `value` is read with optional access. */
  datatype Discounted = Discounted(value: Option<Money>)

  datatype Price = Price(value: Money, discounted: Option<Discounted>)

  /** `images` and `prices` are read with optional access, so they may be absent. */
  datatype Variant = Variant(sku: string, images: Option<seq<Image>>, prices: Option<seq<Price>>)

  /** One element of the search's `results`. */
  datatype RawProduct = RawProduct(
    id: string,
    masterVariant: Variant,
    variants: seq<Variant>,
    name: Option<LocalizedString>,
    description: Option<LocalizedString>)

  /** The normalised record; `price` is in major currency units. */
  datatype ProductData = ProductData(
    id: string,
    name: string,
    description: string,
    imageUrl: string,
    price: real,
    currency: string,
    sku: string)

  const DefaultCurrency := "USD"
  const NameFallback := "Product"
  const DescriptionFallback := ""
  const EnUs := "en-US"
  const EnGb := "en-GB"

  // ---------------------------------------------------------------- variant

  /** `i` is the position of the first variant in `vs` carrying `sku`. */
  ghost predicate FirstWithSku(vs: seq<Variant>, sku: string, i: int) {
    0 <= i < |vs| && vs[i].sku == sku && forall j :: 0 <= j < i ==> vs[j].sku != sku
  }

  /** The master variant if it carries `sku`, else the first alternate variant
      that does, else the master variant. */
  function SelectVariant(p: RawProduct, sku: string): (v: Variant)
    ensures p.masterVariant.sku == sku ==> v == p.masterVariant
    ensures p.masterVariant.sku != sku && (exists i :: 0 <= i < |p.variants| && p.variants[i].sku == sku) ==>
      exists i :: FirstWithSku(p.variants, sku, i) && v == p.variants[i]
    ensures (forall i :: 0 <= i < |p.variants| ==> p.variants[i].sku != sku) ==> v == p.masterVariant
    ensures v.sku == sku <==> p.masterVariant.sku == sku || exists i :: 0 <= i < |p.variants| && p.variants[i].sku == sku
  {
    if p.masterVariant.sku == sku then p.masterVariant
    else Seqs.Find(p.variants, (w: Variant) => w.sku == sku).GetOr(p.masterVariant)
  }

  // ---------------------------------------------------------------- image

  /** The URL of the variant's first image, or "" when it has none. */
  function SelectImageUrl(v: Variant): (url: string)
    ensures v.images.Some? && |v.images.value| > 0 ==> url == v.images.value[0].url
    ensures v.images.None? || |v.images.value| == 0 ==> url == ""
  {
    OrString(if v.images.Some? && |v.images.value| > 0 then Some(v.images.value[0].url) else None, "")
  }

  // ---------------------------------------------------------------- price

  predicate IsUsd(p: Price) {
    p.value.currencyCode == "USD"
  }

  /** `i` is the position of the first USD entry of `ps`. */
  ghost predicate FirstUsd(ps: seq<Price>, i: int) {
    0 <= i < |ps| && IsUsd(ps[i]) && forall j :: 0 <= j < i ==> !IsUsd(ps[j])
  }

  /** The first USD price entry, else the first entry, else none. */
  function SelectPrice(prices: Option<seq<Price>>): (r: Option<Price>)
    ensures r.None? <==> prices.None? || |prices.value| == 0
    ensures r.Some? ==> r.value in prices.value
    ensures prices.Some? && (exists i :: 0 <= i < |prices.value| && IsUsd(prices.value[i])) ==>
      exists i :: FirstUsd(prices.value, i) && r == Some(prices.value[i])
    ensures prices.Some? && |prices.value| > 0 && (forall i :: 0 <= i < |prices.value| ==> !IsUsd(prices.value[i])) ==>
      r == Some(prices.value[0])
  {
    match prices
    case None => None
    case Some(ps) =>
      match Seqs.Find(ps, IsUsd)
      case Some(usd) => Some(usd)
      case None => if |ps| > 0 then Some(ps[0]) else None
  }

  /** `discounted?.value?.centAmount` of one price entry. */
  function DiscountedCents(p: Price): Option<int> {
    match p.discounted
    case None => None
    case Some(d) =>
      match d.value
      case None => None
      case Some(m) => Some(m.centAmount)
  }

  /** The amount in cents: a non-zero discounted amount wins over the regular
      amount, and no price entry at all gives 0. */
  function CentAmount(price: Option<Price>): (cents: int)
    ensures price.None? ==> cents == 0
    ensures price.Some? && TruthyNumber(DiscountedCents(price.value)) ==> cents == DiscountedCents(price.value).value
    ensures price.Some? && !TruthyNumber(DiscountedCents(price.value)) ==> cents == price.value.value.centAmount
  {
    match price
    case None => 0
    case Some(p) => OrNumber(DiscountedCents(p), OrNumber(Some(p.value.centAmount), 0))
  }

  /** The currency code of the chosen entry's regular value, or "USD" when there
      is no entry or its code is empty. */
  function Currency(price: Option<Price>): (c: string)
    ensures c != ""
    ensures price.Some? && price.value.value.currencyCode != "" ==> c == price.value.value.currencyCode
    ensures price.None? || price.value.value.currencyCode == "" ==> c == DefaultCurrency
  {
    OrString(if price.Some? then Some(price.value.value.currencyCode) else None, DefaultCurrency)
  }

  /** Cents to major units. */
  function ToMajorUnits(cents: int): (amount: real)
    ensures amount * 100.0 == cents as real
  {
    cents as real / 100.0
  }

  // ---------------------------------------------------------------- localized text

  /** `m?.[key]`. */
  function Entry(m: Option<LocalizedString>, key: string): Option<string> {
    if m.Some? && key in m.value then Some(m.value[key]) else None
  }

  /** The locales tried, in order, for a requested locale. */
  function LocaleChain(locale: string): seq<string> {
    [locale, EnUs, EnGb]
  }

  /** No key of `keys` before position `i` has a present, non-empty entry. */
  ghost predicate NoneFilledBefore(m: Option<LocalizedString>, keys: seq<string>, i: int)
    requires 0 <= i <= |keys|
  {
    forall j :: 0 <= j < i ==> !TruthyString(Entry(m, keys[j]))
  }

  /** Reference definition: the entry for the first key whose text is present and
      non-empty, else `fallback`. */
  function FirstFilled(m: Option<LocalizedString>, keys: seq<string>, fallback: string): (r: string)
    ensures (forall i :: 0 <= i < |keys| ==> !TruthyString(Entry(m, keys[i]))) ==> r == fallback
    ensures forall i :: 0 <= i < |keys| && TruthyString(Entry(m, keys[i])) && NoneFilledBefore(m, keys, i) ==>
      r == Entry(m, keys[i]).value
    ensures r == fallback || exists i :: 0 <= i < |keys| && TruthyString(Entry(m, keys[i])) && r == Entry(m, keys[i]).value
  {
    if |keys| == 0 then fallback
    else if TruthyString(Entry(m, keys[0])) then Entry(m, keys[0]).value
    else FirstFilled(m, keys[1..], fallback)
  }

  /** `m?.[locale] || m?.['en-US'] || m?.['en-GB'] || fallback`. */
  function Localized(m: Option<LocalizedString>, locale: string, fallback: string): (r: string)
    ensures r == FirstFilled(m, LocaleChain(locale), fallback)
    ensures fallback != "" ==> r != ""
  {
    var chain := LocaleChain(locale);
    assert chain[1..][1..][1..] == [];
    assert FirstFilled(m, chain[1..][1..], fallback) == OrString(Entry(m, EnGb), fallback);
    OrString(Entry(m, locale), OrString(Entry(m, EnUs), OrString(Entry(m, EnGb), fallback)))
  }

  // ---------------------------------------------------------------- assembly

  /** The `ProductData` built from the first search result. */
  function Normalize(p: RawProduct, sku: string, locale: string): (d: ProductData)
    ensures d.id == p.id && d.sku == sku
    ensures d.name != ""
    ensures d.name == FirstFilled(p.name, LocaleChain(locale), NameFallback)
    ensures d.description == FirstFilled(p.description, LocaleChain(locale), DescriptionFallback)
    ensures d.imageUrl == SelectImageUrl(SelectVariant(p, sku))
    ensures d.currency != ""
    ensures var price := SelectPrice(SelectVariant(p, sku).prices);
            d.price * 100.0 == CentAmount(price) as real && d.currency == Currency(price)
  {
    var variant := SelectVariant(p, sku);
    var price := SelectPrice(variant.prices);
    ProductData(
      id := p.id,
      name := Localized(p.name, locale, NameFallback),
      description := Localized(p.description, locale, DescriptionFallback),
      imageUrl := SelectImageUrl(variant),
      price := ToMajorUnits(CentAmount(price)),
      currency := Currency(price),
      sku := sku)
  }

  // ---------------------------------------------------------------- properties

  /** A product looked up by an alternate variant's SKU uses that variant (the
      first one carrying the SKU), not the master variant. */
  lemma AlternateVariantSelected(p: RawProduct, sku: string, i: int)
    requires p.masterVariant.sku != sku
    requires FirstWithSku(p.variants, sku, i)
    ensures SelectVariant(p, sku) == p.variants[i]
  {
  }

  /** The chosen price entry is the first USD entry whenever there is one. */
  lemma FirstUsdEntrySelected(ps: seq<Price>, i: int)
    requires FirstUsd(ps, i)
    ensures SelectPrice(Some(ps)) == Some(ps[i])
  {
  }

  /** The currency never comes from the `discounted` block. */
  lemma CurrencyIgnoresDiscount(p: Price, discounted: Option<Discounted>)
    ensures Currency(Some(p.(discounted := discounted))) == Currency(Some(p))
  {
  }

  /** A zero discounted amount falls through to the regular amount. */
  lemma ZeroDiscountFallsThrough(value: Money, currencyCode: string)
    ensures CentAmount(Some(Price(value, Some(Discounted(Some(Money(currencyCode, 0))))))) == value.centAmount
  {
  }

  /** Prices `[EUR 500, USD 999]` resolve to 9.99 USD. */
  lemma UsdPreferredExample(id: string, sku: string)
    ensures var prices := [Price(Money("EUR", 500), None), Price(Money("USD", 999), None)];
            var p := RawProduct(id, Variant(sku, None, Some(prices)), [], None, None);
            var d := Normalize(p, sku, EnUs);
            d.price == 9.99 && d.currency == "USD"
  {
  }

  /** A regular amount of 999 with a discounted amount of 799 resolves to 7.99. */
  lemma DiscountOverrideExample(id: string, sku: string)
    ensures var price := Price(Money("USD", 999), Some(Discounted(Some(Money("USD", 799)))));
            var p := RawProduct(id, Variant(sku, None, Some([price])), [], None, None);
            Normalize(p, sku, EnUs).price == 7.99
  {
  }

  /** A German request with only an American name gets that name; no name at all gives "Product". */
  lemma LocaleFallbackExample()
    ensures Localized(Some(map["en-US" := "Widget"]), "de-DE", NameFallback) == "Widget"
    ensures Localized(Some(map[]), "de-DE", NameFallback) == "Product"
  {
  }

  /** A complete lookup of one chair product. */
  lemma ChairExample()
    ensures var master := Variant("SKU-1", Some([Image("https://img/1.jpg")]), Some([Price(Money("USD", 2500), None)]));
            var p := RawProduct("prod_1", master, [], Some(map["en-US" := "Chair"]), None);
            Normalize(p, "SKU-1", EnUs)
              == ProductData("prod_1", "Chair", "", "https://img/1.jpg", 25.0, "USD", "SKU-1")
  {
  }
}
