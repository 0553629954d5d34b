/** The two record shapes of the quote editor (types.ts) and the JavaScript
    values they are made of. */
module Types {

  datatype Option<T> = None | Some(value: T)

  /** A JavaScript number as the editor can hold one: a finite value or NaN.
      Finite values are modelled exactly, without floating-point rounding. */
  datatype Number = Num(value: real) | NaN

  /** `n || 0`: the falsy numbers (0 and NaN) become 0. */
  function OrZero(n: Number): real
  {
    if n.Num? then n.value else 0.0
  }

  /** `s || fallback` on a string: only the empty string is falsy. */
  function OrElse(s: string, fallback: string): string
  {
    if s == "" then fallback else s
  }

  /** One line item of a quote. */
  datatype ServiceItem = ServiceItem(id: string, description: string, price: Number)

  /** The whole editable quote: four text fields and the ordered line items. */
  datatype QuoteData = QuoteData(
    providerName: string,
    providerWhatsApp: string,
    pixKey: string,
    clientName: string,
    services: seq<ServiceItem>)

  /** The field of a line item an update replaces, with its new value. */
  datatype FieldValue = Description(text: string) | Price(amount: Number)
}
