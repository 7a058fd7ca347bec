/** The framework records the add-on reads and writes, reduced to the fields it
    uses. Relational fields become `Option` (an empty many-to-one) or `seq`
    (a one-to-many, in record order); `Char` fields are `Base.Char`; `Float`
    fields are `real`; datetimes are abstract clock readings (`int`). */
module Records {
  import opened Base

  /** The delivery type the add-on registers on `delivery.carrier`. */
  const BobgoType: string := "bobgo"

  /** A `delivery.carrier` with the fields this add-on adds to it. */
  datatype Carrier = Carrier(
    name: string,
    deliveryType: string,
    apiKey: Char,
    testMode: bool,
    handlingTime: int)

  /** A `res.partner`: an address and a contact. `stateCode` and `countryCode`
      are the codes of the related state and country, `False` when unset. */
  datatype Partner = Partner(
    name: Char,
    street: Char,
    street2: Char,
    city: Char,
    stateCode: Char,
    countryCode: Char,
    zip: Char,
    mobile: Char,
    phone: Char,
    email: Char)

  /** The default of each product dimension field, which is also the fallback
      for a missing dimension in a shipment request, in cm. */
  const DefaultDimensionCm: real := 10.0

  /** A `product.product` with the dimension fields the add-on adds (cm) and the
      standard weight (kg). */
  datatype Product = Product(
    displayName: string,
    lengthCm: real,
    widthCm: real,
    heightCm: real,
    weight: real)

  /** A `sale.order.line`. */
  datatype OrderLine = OrderLine(
    isDelivery: bool,
    product: Option<Product>,
    priceUnit: real,
    quantity: real)

  /** A `stock.move` of a picking. */
  datatype StockMove = StockMove(product: Option<Product>)

  /** The selection `bobgo_shipment_status` of a picking. */
  datatype ShipmentStatus = Draft | Booked | InTransit | Delivered | Cancelled

  /** The three fields the add-on declares on `stock.picking`. */
  datatype BobgoState = BobgoState(
    shipmentId: Char,
    shipmentStatus: ShipmentStatus,
    lastSync: Option<int>)

  /** A `stock.picking` (delivery transfer). */
  datatype Picking = Picking(
    name: string,
    carrier: Option<Carrier>,
    trackingRef: Char,
    bobgo: BobgoState)

  /** The part of a window action dictionary the model keeps: closing the
      dialog, opening a URL, or showing a notification. */
  datatype Action =
    | CloseWindow
    | OpenUrl(url: string, target: string)
    | Notification(title: string, message: string, kind: string, sticky: bool)
}
