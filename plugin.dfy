/**
 * The wallet's plugin interface as the providers fill it in: events with their preview
 * (images, a formatted amount, complementary fields) and assets.
 */
module Plugin {
  import opened Wrappers

  /** `CurrencyTextFormattingOptions`: the sign the wallet shows in front of an amount. */
  datatype CurrencyOptions = Positive | Negative

  datatype Currency = Currency(abbreviation: string, options: Option<CurrencyOptions>)

  /** A formatted text: a value, its currency when it is an amount, whether it can be copied. */
  datatype Text = Text(value: string, currency: Option<Currency>, copyable: bool)

  /** A named line under an event or an asset. */
  datatype Field = Field(name: string, text: Text)

  /** An image, by URL. */
  datatype Image = Image(url: string)

  /** `EventStatus`. */
  datatype Status = Pending | Success | Error | Failed

  /**
   * An event as the wallet lists it, dated in seconds. `kind` is the event's type (`income-transaction`,
   * `outcome-transaction`, or a free-form title); the preview's images, text and
   * complementary fields are inlined.
   */
  datatype Event = Event(hash: string, date: real, status: Status, kind: string, malicious: bool,
                         incomplete: bool, asset: string, images: seq<Image>, text: Text,
                         complementary: seq<Field>)

  /**
   * An asset as the wallet lists it: a token with its balance as decimal text. `kind` is
   * the asset's type (`fungible`); the pricing numbers are not part of the model.
   */
  datatype Asset = Asset(name: string, icon: Option<Image>, quantity: string, decimals: int,
                         address: string, kind: string, malicious: bool, complementary: seq<Field>)

  /** An event object the wallet hands to `update`, which changes it in place. */
  class EventRecord {
    var event: Event

    constructor (event: Event)
      ensures this.event == event
    {
      this.event := event;
    }
  }

  /** A formatted amount that copies as plain text: no currency. */
  function Plain(value: string): Text {
    Text(value, None, true)
  }

  /** A formatted amount in a currency with a sign. */
  function Amount(value: string, abbreviation: string, options: CurrencyOptions): Text {
    Text(value, Some(Currency(abbreviation, Some(options))), false)
  }

  const Income: string := "income-transaction"
  const Outcome: string := "outcome-transaction"
}
