/** Payload shaping in `delivery_bobgo/models/delivery_bobgo.py`: tolerant float
    conversion, the rate items and declared value of a sales order, and the
    parcels, addresses and contacts of a picking's shipment request. */
module Payload {
  import opened Base
  import opened Records

  const DefaultWeightKg: real := 0.2
  const DefaultQuantity: real := 1.0
  const MinDimensionCm: real := 0.1
  const MinWeightKg: real := 0.01
  const MaxDescriptionLength: nat := 100
  const DefaultCountry: string := "ZA"

  /** What `_safe_float` may be handed: `None`, a value `float()` converts, or
      one it rejects with `TypeError` or `ValueError`. */
  datatype RawValue = Missing | Number(x: real) | Unconvertible

  /** `_safe_float`: the value itself when it converts to a positive number,
      and the default otherwise. */
  function SafeFloat(v: RawValue, default: real): (r: real)
    ensures v.Number? && v.x > 0.0 ==> r == v.x
    ensures !(v.Number? && v.x > 0.0) ==> r == default
    ensures default > 0.0 ==> r > 0.0
    ensures default >= 0.0 ==> r >= 0.0
  {
    match v
    case Missing => default
    case Unconvertible => default
    case Number(x) => if x <= 0.0 then default else x
  }

  /** Feeding the result back in changes nothing, whatever the default. */
  lemma SafeFloatIdempotent(v: RawValue, default: real)
    ensures SafeFloat(Number(SafeFloat(v, default)), default) == SafeFloat(v, default)
  {
  }

  /** Python's `int()` on a float: truncation toward zero. */
  function TruncToInt(x: real): (n: int)
    ensures x >= 0.0 ==> n as real <= x < n as real + 1.0
    ensures x < 0.0 ==> n as real - 1.0 < x <= n as real
  {
    if x >= 0.0 then x.Floor else -((-x).Floor)
  }

  function MaxReal(a: real, b: real): real
  {
    if a >= b then a else b
  }

  /** One entry of the `items` list of a checkout rate request. */
  datatype RateItem = RateItem(
    description: string,
    price: real,
    quantity: int,
    lengthCm: real,
    widthCm: real,
    heightCm: real,
    weightKg: real)

  /** The lines `_prepare_order_items` turns into items. */
  predicate Shippable(l: OrderLine) {
    !l.isDelivery && l.product.Some?
  }

  /** The order lines kept by the filter, in order. */
  function ShippableLines(lines: seq<OrderLine>): (r: seq<OrderLine>)
    ensures |r| <= |lines|
    ensures forall i :: 0 <= i < |r| ==> Shippable(r[i])
  {
    if |lines| == 0 then []
    else
      var front := ShippableLines(lines[..|lines| - 1]);
      if Shippable(lines[|lines| - 1]) then front + [lines[|lines| - 1]] else front
  }

  /** The filter drops exactly the lines that are not shippable: its result is
      empty iff no line is shippable, every shippable line is kept, and each
      shippable line occurs in it as often as in the order. */
  lemma {:induction false} ShippableLinesComplete(lines: seq<OrderLine>)
    ensures ShippableLines(lines) == [] <==> forall i :: 0 <= i < |lines| ==> !Shippable(lines[i])
    ensures forall i :: 0 <= i < |lines| && Shippable(lines[i]) ==> lines[i] in ShippableLines(lines)
    ensures forall l :: l in ShippableLines(lines) ==> l in lines
    ensures forall l :: multiset(ShippableLines(lines))[l] == if Shippable(l) then multiset(lines)[l] else 0
  {
    if |lines| > 0 {
      var front := lines[..|lines| - 1];
      ShippableLinesComplete(front);
      forall i | 0 <= i < |lines| - 1
        ensures lines[i] == front[i]
      {
      }
      assert lines == front + [lines[|lines| - 1]];
    }
  }

  /** The positive quantity the declared value is computed from. */
  function SafeQuantity(l: OrderLine): real
  {
    SafeFloat(Number(l.quantity), DefaultQuantity)
  }

  /** The price an item is sent with: the unit price, or zero when not positive. */
  function SafePrice(l: OrderLine): real
  {
    SafeFloat(Number(l.priceUnit), 0.0)
  }

  /** A dimension as sent: a non-positive value is replaced by the default and
      the result is raised to the minimum. */
  function ItemDimension(x: real): (r: real)
    ensures r >= MinDimensionCm
    ensures x >= MinDimensionCm ==> r == x
    ensures 0.0 < x < MinDimensionCm ==> r == MinDimensionCm
    ensures x <= 0.0 ==> r == DefaultDimensionCm
  {
    MaxReal(MinDimensionCm, SafeFloat(Number(x), DefaultDimensionCm))
  }

  /** The item built for one shippable order line. */
  function ItemOf(l: OrderLine): (it: RateItem)
    requires Shippable(l)
    ensures it.quantity >= 1
    ensures l.quantity >= 1.0 ==> it.quantity as real <= l.quantity < it.quantity as real + 1.0
    ensures l.quantity < 2.0 ==> it.quantity == 1
    ensures l.priceUnit > 0.0 ==> it.price == l.priceUnit
    ensures l.priceUnit <= 0.0 ==> it.price == 0.0
    ensures it.lengthCm >= MinDimensionCm && it.widthCm >= MinDimensionCm && it.heightCm >= MinDimensionCm
    ensures it.lengthCm == ItemDimension(l.product.value.lengthCm)
    ensures it.widthCm == ItemDimension(l.product.value.widthCm)
    ensures it.heightCm == ItemDimension(l.product.value.heightCm)
    ensures it.weightKg >= MinWeightKg
    ensures l.product.value.weight >= MinWeightKg ==> it.weightKg == l.product.value.weight
    ensures 0.0 < l.product.value.weight < MinWeightKg ==> it.weightKg == MinWeightKg
    ensures l.product.value.weight <= 0.0 ==> it.weightKg == DefaultWeightKg
    ensures |it.description| <= MaxDescriptionLength
    ensures l.product.value.displayName != "" ==> it.description == Take(l.product.value.displayName, MaxDescriptionLength)
    ensures l.product.value.displayName == "" ==> it.description == "Product"
  {
    var p := l.product.value;
    RateItem(
      Take(if p.displayName != "" then p.displayName else "Product", MaxDescriptionLength),
      SafePrice(l),
      if 1 >= TruncToInt(SafeQuantity(l)) then 1 else TruncToInt(SafeQuantity(l)),
      ItemDimension(p.lengthCm),
      ItemDimension(p.widthCm),
      ItemDimension(p.heightCm),
      MaxReal(MinWeightKg, SafeFloat(Number(p.weight), DefaultWeightKg)))
  }

  /** The items built for a list of shippable lines, one per line, in order. */
  function ItemsOf(lines: seq<OrderLine>): (r: seq<RateItem>)
    requires forall i :: 0 <= i < |lines| ==> Shippable(lines[i])
    ensures |r| == |lines|
  {
    if |lines| == 0 then []
    else ItemsOf(lines[..|lines| - 1]) + [ItemOf(lines[|lines| - 1])]
  }

  /** Each item is built from the line at the same position. */
  lemma {:induction false} ItemsOfPointwise(lines: seq<OrderLine>)
    requires forall i :: 0 <= i < |lines| ==> Shippable(lines[i])
    ensures forall i :: 0 <= i < |lines| ==> ItemsOf(lines)[i] == ItemOf(lines[i])
  {
    if |lines| > 0 {
      ItemsOfPointwise(lines[..|lines| - 1]);
    }
  }

  /** What one line adds to the declared value: price times the quantity before
      it is truncated and clamped. */
  function LineValue(l: OrderLine): (v: real)
    ensures v >= 0.0
  {
    SafePrice(l) * SafeQuantity(l)
  }

  /** The declared value of the given lines (all assumed shippable). */
  function SumValues(lines: seq<OrderLine>): (v: real)
    ensures v >= 0.0
  {
    if |lines| == 0 then 0.0 else SumValues(lines[..|lines| - 1]) + LineValue(lines[|lines| - 1])
  }

  /** Filtering one more line appends it exactly when it is shippable. */
  lemma ShippableLinesStep(lines: seq<OrderLine>, k: nat)
    requires k < |lines|
    ensures ShippableLines(lines[..k + 1])
            == if Shippable(lines[k]) then ShippableLines(lines[..k]) + [lines[k]] else ShippableLines(lines[..k])
  {
    assert lines[..k + 1][..k] == lines[..k];
  }

  /** One more shippable line adds its item at the end and its value to the sum. */
  lemma AppendShippable(ls: seq<OrderLine>, l: OrderLine)
    requires forall i :: 0 <= i < |ls| ==> Shippable(ls[i])
    requires Shippable(l)
    ensures ItemsOf(ls + [l]) == ItemsOf(ls) + [ItemOf(l)]
    ensures SumValues(ls + [l]) == SumValues(ls) + LineValue(l)
  {
    assert (ls + [l])[..|ls|] == ls;
  }

  /** `_prepare_order_items`: one item per shippable line, in order, and the
      sum of price times unclamped quantity over those lines. */
  method PrepareOrderItems(lines: seq<OrderLine>) returns (items: seq<RateItem>, declared: real)
    ensures items == ItemsOf(ShippableLines(lines))
    ensures declared == SumValues(ShippableLines(lines))
    ensures declared >= 0.0
    ensures |items| == 0 <==> forall i :: 0 <= i < |lines| ==> !Shippable(lines[i])
  {
    items := [];
    declared := 0.0;
    var k := 0;
    while k < |lines|
      invariant 0 <= k <= |lines|
      invariant items == ItemsOf(ShippableLines(lines[..k]))
      invariant declared == SumValues(ShippableLines(lines[..k]))
    {
      var line := lines[k];
      ShippableLinesStep(lines, k);
      if Shippable(line) {
        AppendShippable(ShippableLines(lines[..k]), line);
        items := items + [ItemOf(line)];
        declared := declared + LineValue(line);
      }
      k := k + 1;
    }
    assert lines[..k] == lines;
    ShippableLinesComplete(lines);
    assert |items| == |ShippableLines(lines)|;
  }

  /** The declared value counts a fractional quantity as it is, while the item
      sent for the same line carries the clamped quantity one. */
  lemma DeclaredValueUsesUnclampedQuantity(p: Product)
    ensures var l := OrderLine(false, Some(p), 10.0, 0.5);
            ItemOf(l).quantity == 1 && SumValues([l]) == 5.0
  {
  }

  /** One entry of the `parcels` list of a shipment request. */
  datatype Parcel = Parcel(
    description: string,
    lengthCm: real,
    widthCm: real,
    heightCm: real,
    weightKg: real)

  /** The parcel sent when no move carries a product. */
  const DefaultParcel: Parcel := Parcel("Default Package", 10.0, 10.0, 10.0, 0.2)

  /** Python's `x or fallback` on a float: zero is falsy. */
  function OrFloat(x: real, fallback: real): (r: real)
    ensures x != 0.0 ==> r == x
    ensures x == 0.0 ==> r == fallback
  {
    if x != 0.0 then x else fallback
  }

  /** The parcel sent for one product: zero measurements become the defaults,
      every other value (negative ones included) is sent as it is. */
  function ParcelOf(p: Product): (r: Parcel)
    ensures |r.description| <= MaxDescriptionLength
    ensures r.description == Take(p.displayName, MaxDescriptionLength)
    ensures r.lengthCm != 0.0 && r.widthCm != 0.0 && r.heightCm != 0.0 && r.weightKg != 0.0
    ensures p.lengthCm != 0.0 ==> r.lengthCm == p.lengthCm
    ensures p.widthCm != 0.0 ==> r.widthCm == p.widthCm
    ensures p.heightCm != 0.0 ==> r.heightCm == p.heightCm
    ensures p.weight != 0.0 ==> r.weightKg == p.weight
    ensures p.lengthCm == 0.0 ==> r.lengthCm == DefaultDimensionCm
    ensures p.widthCm == 0.0 ==> r.widthCm == DefaultDimensionCm
    ensures p.heightCm == 0.0 ==> r.heightCm == DefaultDimensionCm
    ensures p.weight == 0.0 ==> r.weightKg == DefaultWeightKg
  {
    Parcel(
      Take(p.displayName, MaxDescriptionLength),
      OrFloat(p.lengthCm, DefaultDimensionCm),
      OrFloat(p.widthCm, DefaultDimensionCm),
      OrFloat(p.heightCm, DefaultDimensionCm),
      OrFloat(p.weight, DefaultWeightKg))
  }

  /** The products of the moves that have one, in order: each product as
      often as a move carries it. */
  function MovedProducts(moves: seq<StockMove>): (r: seq<Product>)
    ensures |r| <= |moves|
    ensures r == [] <==> forall i :: 0 <= i < |moves| ==> moves[i].product.None?
    ensures forall p :: multiset(r)[p] == multiset(moves)[StockMove(Some(p))]
  {
    if |moves| == 0 then []
    else
      var front := MovedProducts(moves[..|moves| - 1]);
      assert forall i :: 0 <= i < |moves| - 1 ==> moves[..|moves| - 1][i] == moves[i];
      assert moves == moves[..|moves| - 1] + [moves[|moves| - 1]];
      match moves[|moves| - 1].product
      case Some(p) => front + [p]
      case None => front
  }

  /** The `parcels` of `_prepare_shipment_rate_payload`: never empty; one per
      move with a product, in order, or else the single default parcel. */
  function ShipmentParcels(moves: seq<StockMove>): (r: seq<Parcel>)
    ensures |r| >= 1
    ensures (forall i :: 0 <= i < |moves| ==> moves[i].product.None?) ==> r == [DefaultParcel]
    ensures (exists i :: 0 <= i < |moves| && moves[i].product.Some?) ==>
              |r| == |MovedProducts(moves)| && forall i :: 0 <= i < |r| ==> r[i] == ParcelOf(MovedProducts(moves)[i])
  {
    var products := MovedProducts(moves);
    if |products| == 0 then [DefaultParcel]
    else seq(|products|, i requires 0 <= i < |products| => ParcelOf(products[i]))
  }

  /** One postal address of a shipment request. */
  datatype Address = Address(
    company: string,
    streetAddress: string,
    localArea: string,
    city: string,
    zone: string,
    country: string,
    code: string)

  /** The address sent for a partner; unset fields become empty strings, the
      company falls back to `companyFallback` and the country to South Africa. */
  function AddressOf(p: Partner, companyFallback: string): (a: Address)
    ensures a.company == OrElse(p.name, companyFallback)
    ensures Truthy(p.countryCode) ==> a.country == p.countryCode.value
    ensures !Truthy(p.countryCode) ==> a.country == DefaultCountry
    ensures a.streetAddress == OrElse(p.street, "") && a.localArea == OrElse(p.street2, "")
    ensures a.city == OrElse(p.city, "") && a.zone == OrElse(p.stateCode, "") && a.code == OrElse(p.zip, "")
  {
    Address(
      OrElse(p.name, companyFallback),
      OrElse(p.street, ""),
      OrElse(p.street2, ""),
      OrElse(p.city, ""),
      OrElse(p.stateCode, ""),
      OrElse(p.countryCode, DefaultCountry),
      OrElse(p.zip, ""))
  }

  /** A contact of a shipment request. */
  datatype Contact = Contact(name: string, phone: string, email: string)

  /** `_get_collection_contact` / `_get_delivery_contact`: the phone is the
      mobile number, else the landline, else the empty string. */
  function ContactOf(p: Partner): (c: Contact)
    ensures Truthy(p.mobile) ==> c.phone == p.mobile.value
    ensures !Truthy(p.mobile) && Truthy(p.phone) ==> c.phone == p.phone.value
    ensures c.phone == "" <==> !Truthy(p.mobile) && !Truthy(p.phone)
    ensures c.name == OrElse(p.name, "") && c.email == OrElse(p.email, "")
  {
    Contact(
      OrElse(p.name, ""),
      if Truthy(p.mobile) then p.mobile.value else OrElse(p.phone, ""),
      OrElse(p.email, ""))
  }

  /** The address, parcel and contact part of a shipment rate request. */
  datatype ShipmentParties = ShipmentParties(
    collection: Address,
    delivery: Address,
    parcels: seq<Parcel>,
    collectionContact: Contact,
    deliveryContact: Contact)

  const NoWarehousePartner: string := "No warehouse partner configured for this picking."
  const NoDeliveryPartner: string := "No delivery partner configured for this picking."

  /** `_prepare_shipment_rate_payload` without the declared value: fails when
      the warehouse or the destination partner is missing (the warehouse is
      checked first), and otherwise addresses and contacts come from the two
      partners and the parcel list is never empty. */
  function ShipmentRateParties(warehouse: Option<Partner>, destination: Option<Partner>, moves: seq<StockMove>)
    : (r: Result<ShipmentParties>)
    ensures warehouse.None? ==> r == Err(UserError(NoWarehousePartner))
    ensures warehouse.Some? && destination.None? ==> r == Err(UserError(NoDeliveryPartner))
    ensures r.Ok? <==> warehouse.Some? && destination.Some?
    ensures r.Ok? ==> |r.value.parcels| >= 1 && r.value.parcels == ShipmentParcels(moves)
    ensures r.Ok? ==> (r.value.collection == AddressOf(warehouse.value, "Warehouse")
                       && r.value.delivery == AddressOf(destination.value, ""))
    ensures r.Ok? ==> (r.value.collectionContact == ContactOf(warehouse.value)
                       && r.value.deliveryContact == ContactOf(destination.value))
  {
    match (warehouse, destination)
    case (None, _) => Err(UserError(NoWarehousePartner))
    case (Some(_), None) => Err(UserError(NoDeliveryPartner))
    case (Some(w), Some(d)) =>
      Ok(ShipmentParties(AddressOf(w, "Warehouse"), AddressOf(d, ""), ShipmentParcels(moves), ContactOf(w), ContactOf(d)))
  }
}
