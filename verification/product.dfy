/** The product extension of `delivery_bobgo/models/product_product.py`: the
    default dimensions, the dimension constraint and the shipping volume.

    The file never imports the translation function `_`, so every error
    branch of the constraint raises `NameError` before the intended
    `ValidationError` is built. The constraint comes in two versions: as
    written and as evidently intended. */
module ProductDimensions {
  import opened Base
  import opened Records

  const NegativeLength: string := "Product length cannot be negative."
  const NegativeWidth: string := "Product width cannot be negative."
  const NegativeHeight: string := "Product height cannot be negative."
  const AllZero: string := "Product dimensions cannot all be zero."

  /** The dimensions the constraint accepts: none negative and not all zero. */
  predicate ValidDimensions(p: Product) {
    p.lengthCm >= 0.0 && p.widthCm >= 0.0 && p.heightCm >= 0.0
    && !(p.lengthCm == 0.0 && p.widthCm == 0.0 && p.heightCm == 0.0)
  }

  /** `_check_dimensions` for one product, as intended: length, width and
      height are checked in that order and the first negative one is
      reported; non-negative dimensions that are all zero are rejected. */
  function CheckDimensions(p: Product): (r: Outcome)
    ensures r.Pass? <==> ValidDimensions(p)
    ensures p.lengthCm < 0.0 ==> r == Fail(ValidationError(NegativeLength))
    ensures p.lengthCm >= 0.0 && p.widthCm < 0.0 ==> r == Fail(ValidationError(NegativeWidth))
    ensures p.lengthCm >= 0.0 && p.widthCm >= 0.0 && p.heightCm < 0.0 ==> r == Fail(ValidationError(NegativeHeight))
    ensures p.lengthCm == 0.0 && p.widthCm == 0.0 && p.heightCm == 0.0 ==> r == Fail(ValidationError(AllZero))
  {
    if p.lengthCm < 0.0 then Fail(ValidationError(NegativeLength))
    else if p.widthCm < 0.0 then Fail(ValidationError(NegativeWidth))
    else if p.heightCm < 0.0 then Fail(ValidationError(NegativeHeight))
    else if p.lengthCm == 0.0 && p.widthCm == 0.0 && p.heightCm == 0.0 then Fail(ValidationError(AllZero))
    else Pass
  }

  /** `_check_dimensions` for one product, as written: every rejection raises
      `NameError`. */
  function CheckDimensionsAsWritten(p: Product): (r: Outcome)
    ensures r.Pass? <==> ValidDimensions(p)
    ensures r.Fail? ==> r.error == NameError(MissingTranslation)
  {
    if p.lengthCm < 0.0 || p.widthCm < 0.0 || p.heightCm < 0.0
       || (p.lengthCm == 0.0 && p.widthCm == 0.0 && p.heightCm == 0.0)
    then Fail(NameError(MissingTranslation))
    else Pass
  }

  /** Both versions accept the same products; on a rejected product the
      written one raises `NameError` where the intended one reports which
      dimension is wrong. */
  lemma CheckDimensionsDiscrepancy(p: Product)
    ensures CheckDimensionsAsWritten(p).Pass? <==> CheckDimensions(p).Pass?
    ensures CheckDimensions(p).Fail? ==>
              CheckDimensions(p).error.ValidationError? && CheckDimensionsAsWritten(p).error == NameError(MissingTranslation)
  {
  }

  /** A negative length is reported as such even when the other dimensions
      are negative too, but only by the intended version. */
  lemma NegativeLengthReportedFirst(name: string, w: real, h: real, kg: real)
    ensures CheckDimensions(Product(name, -1.0, w, h, kg)) == Fail(ValidationError(NegativeLength))
    ensures CheckDimensionsAsWritten(Product(name, -1.0, w, h, kg)) == Fail(NameError(MissingTranslation))
  {
  }

  /** The constraint over a recordset: passes iff every product is valid. */
  lemma CheckProductsAll(ps: seq<Product>)
    ensures CheckEach(ps, CheckDimensions).Pass? <==> forall i :: 0 <= i < |ps| ==> ValidDimensions(ps[i])
  {
    CheckEachFirstFailure(ps, CheckDimensions);
  }

  /** A product with the default dimensions. */
  function DefaultProduct(name: string, weight: real): (p: Product)
    ensures p.lengthCm == DefaultDimensionCm && p.widthCm == DefaultDimensionCm && p.heightCm == DefaultDimensionCm
  {
    Product(name, DefaultDimensionCm, DefaultDimensionCm, DefaultDimensionCm, weight)
  }

  /** The default dimensions satisfy the constraint. */
  lemma DefaultDimensionsValid(name: string, weight: real)
    ensures CheckDimensions(DefaultProduct(name, weight)).Pass?
    ensures ShippingVolume(DefaultProduct(name, weight)) == 1000.0
  {
  }

  /** `get_shipping_volume`, in cubic centimetres: zero exactly when one
      dimension is zero, and never negative when no dimension is. */
  function ShippingVolume(p: Product): (v: real)
    ensures v == 0.0 <==> p.lengthCm == 0.0 || p.widthCm == 0.0 || p.heightCm == 0.0
    ensures p.lengthCm >= 0.0 && p.widthCm >= 0.0 && p.heightCm >= 0.0 ==> v >= 0.0
  {
    var lw := p.lengthCm * p.widthCm;
    assert lw == 0.0 <==> p.lengthCm == 0.0 || p.widthCm == 0.0;
    assert p.lengthCm >= 0.0 && p.widthCm >= 0.0 ==> lw >= 0.0;
    lw * p.heightCm
  }

  /** The volume of a product the constraint accepts is never negative, and
      it is zero exactly when one of the dimensions is zero. */
  lemma ValidVolume(p: Product)
    requires ValidDimensions(p)
    ensures ShippingVolume(p) >= 0.0
    ensures ShippingVolume(p) == 0.0 <==> p.lengthCm == 0.0 || p.widthCm == 0.0 || p.heightCm == 0.0
  {
  }

  /** Accepted products may still have zero volume: a flat product passes. */
  lemma FlatProductAccepted(name: string, weight: real)
    ensures CheckDimensions(Product(name, 10.0, 10.0, 0.0, weight)).Pass?
    ensures ShippingVolume(Product(name, 10.0, 10.0, 0.0, weight)) == 0.0
  {
  }
}
