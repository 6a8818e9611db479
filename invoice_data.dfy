/**
 * Line items: quantity and unit price in integer cents (invoice-data.go).
 */
module InvoiceData {
  import opened Wrappers
  import opened Int64

  /** One line of an invoice. `totalAmount` exists in the record but nothing writes it. */
  datatype InvoiceData = InvoiceData(title: string, quantity: int64, price: int64, totalAmount: int64)

  /**
   * The dynamically typed price argument of `NewInvoiceData`, one variant per
   * arm of its type switch. The float arms carry `int64(v * 100)` as the
   * floating-point unit computes it; that computation is not modelled.
   */
  datatype PriceValue =
    | Int64Price(v: int64)
    | IntPrice(v: int64)
    | Float32Price(scaled: int64)
    | Float64Price(scaled: int64)
    | OtherPrice

  datatype DataError = TypeNotPermitted

  /** The line total in cents: quantity times unit price, as Go's int64 product. */
  function CalculateTotalAmount(d: InvoiceData): (r: int64)
    ensures InRange(d.quantity as int * d.price as int) ==> r as int == d.quantity as int * d.price as int
    ensures Congruent(r as int, d.quantity as int * d.price as int)
  {
    Wrap(d.quantity as int * d.price as int)
  }

  /** Display value of the line total: its cents over 100 (exact, where Go uses float64). */
  function ReturnItemTotalAmount(d: InvoiceData): (r: real)
    ensures r * 100.0 == CalculateTotalAmount(d) as real
  {
    CalculateTotalAmount(d) as real / 100.0
  }

  /** Display value of the unit price: its cents over 100. */
  function ReturnItemPrice(d: InvoiceData): (r: real)
    ensures r * 100.0 == d.price as real
  {
    d.price as real / 100.0
  }

  /** The cents a supported price becomes; every arm scales by 100 exactly once. */
  function ScaledPrice(price: PriceValue): (cents: int64)
    requires !price.OtherPrice?
    ensures (price.Int64Price? || price.IntPrice?) ==>
      Congruent(cents as int, price.v as int * 100)
      && (InRange(price.v as int * 100) ==> cents as int == price.v as int * 100)
    ensures (price.Float32Price? || price.Float64Price?) ==> cents == price.scaled
  {
    match price
    case Int64Price(v) => Wrap(v as int * 100)
    case IntPrice(v) => Wrap(v as int * 100)
    case Float32Price(scaled) => scaled
    case Float64Price(scaled) => scaled
  }

  /** Builds a line item, scaling the price to cents; any other price type is refused. */
  function NewInvoiceData(title: string, qty: int64, price: PriceValue): (r: Result<InvoiceData, DataError>)
    ensures r.Err? <==> price.OtherPrice?
    ensures r.Err? ==> r.error == TypeNotPermitted
    ensures r.Ok? ==> r.value.title == title && r.value.quantity == qty && r.value.totalAmount == 0
    ensures r.Ok? && (price.Int64Price? || price.IntPrice?) ==>
      Congruent(r.value.price as int, price.v as int * 100)
      && (InRange(price.v as int * 100) ==> r.value.price as int == price.v as int * 100)
    ensures r.Ok? && (price.Float32Price? || price.Float64Price?) ==> r.value.price == price.scaled
  {
    if price.OtherPrice? then Err(TypeNotPermitted)
    else Ok(InvoiceData(title, qty, ScaledPrice(price), 0))
  }
}
