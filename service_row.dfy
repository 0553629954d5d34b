/** One editable line item (components/ServiceRow.tsx): every input event of a
    row becomes a call of `onUpdate(id, field, value)` or `onRemove(id)`. */
module ServiceRow {
  import opened Types

  /** The calls a row makes on its parent. */
  datatype RowEvent = Update(id: string, value: FieldValue) | Remove(id: string)

  /** What the price input shows: `item.price || ''`. */
  datatype Shown = Blank | Shows(amount: real)

  /** `parseFloat(text) || 0`, given the number `parseFloat` produced:
      NaN and 0 both become 0, any other value is kept. */
  function CoercePrice(parsed: Number): (r: real)
    ensures parsed.Num? && parsed.value != 0.0 ==> r == parsed.value
    ensures parsed.NaN? || parsed == Num(0.0) ==> r == 0.0
  {
    OrZero(parsed)
  }

  /** Typing in the description input sends the raw text for this row. */
  function OnDescriptionChange(item: ServiceItem, text: string): RowEvent
  {
    Update(item.id, Description(text))
  }

  /** Typing in the price input sends the coerced number for this row. */
  function OnPriceChange(item: ServiceItem, parsed: Number): RowEvent
  {
    Update(item.id, Price(Num(CoercePrice(parsed))))
  }

  /** The remove button asks to remove this row. */
  function OnRemoveClick(item: ServiceItem): RowEvent
  {
    Remove(item.id)
  }

  /** The price input is blank exactly when the price is falsy. */
  function ShownPrice(price: Number): (r: Shown)
    ensures r.Blank? <==> (price.NaN? || price == Num(0.0))
    ensures r.Shows? ==> price == Num(r.amount)
  {
    if price.Num? && price.value != 0.0 then Shows(price.value) else Blank
  }

  /** Every event a row raises names that row and no other. */
  lemma EventsCarryRowId(item: ServiceItem, text: string, parsed: Number, e: RowEvent)
    requires e == OnDescriptionChange(item, text) || e == OnPriceChange(item, parsed)
             || e == OnRemoveClick(item)
    ensures e.id == item.id
  {
  }

  /** A price entry never sends NaN, and showing the price it sends gives
      back what was typed, except that a NaN or zero entry shows as a blank
      field. */
  lemma PriceRoundTrip(item: ServiceItem, parsed: Number)
    ensures var e := OnPriceChange(item, parsed);
            e.Update? && e.value.Price? && e.value.amount.Num? &&
            ShownPrice(e.value.amount) == (if parsed.Num? && parsed.value != 0.0 then Shows(parsed.value) else Blank)
  {
  }
}
