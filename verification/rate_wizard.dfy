/** The rate-selection wizard of `delivery_bobgo/wizard/choose_bobgo_rate.py`:
    its constraint, the order of its lines, applying a chosen rate to the
    sales order, and the service-details notification. */
module RateWizard {
  import opened Base
  import opened Records

  /** One offered rate (`choose.bobgo.rate.line`). `currencySymbol` is the
      symbol of the order's currency. */
  datatype RateLine = RateLine(
    serviceName: Char,
    serviceCode: Char,
    providerSlug: Char,
    totalPrice: real,
    deliveryDateMin: Char,
    deliveryDateMax: Char,
    description: Char,
    currencySymbol: Char)

  /** A `sale.order.line` as the wizard sees it. */
  datatype SaleLine = SaleLine(name: string, isDelivery: bool, priceUnit: real)

  /** A `sale.order`. */
  datatype SaleOrder = SaleOrder(name: string, lines: seq<SaleLine>)

  /** The wizard (`choose.bobgo.rate`). */
  datatype Wizard = Wizard(order: Option<SaleOrder>, carrier: Option<Carrier>, lines: seq<RateLine>)

  const NoRatesToChoose: string := "No shipping rates available to choose from."

  /** `_check_has_rates` for one wizard. */
  function CheckHasRates(w: Wizard): (r: Outcome)
    ensures r.Fail? <==> |w.lines| == 0
    ensures r.Fail? ==> r.error == ValidationError(NoRatesToChoose)
  {
    if |w.lines| == 0 then Fail(ValidationError(NoRatesToChoose)) else Pass
  }

  /** A recordset of wizards is accepted iff every wizard offers a rate, and
      otherwise raises the no-rates error. */
  lemma WizardsNeedRates(ws: seq<Wizard>)
    ensures CheckEach(ws, CheckHasRates).Pass? <==> forall i :: 0 <= i < |ws| ==> |ws[i].lines| > 0
    ensures CheckEach(ws, CheckHasRates).Fail? ==> CheckEach(ws, CheckHasRates).error == ValidationError(NoRatesToChoose)
  {
    CheckEachFirstFailure(ws, CheckHasRates);
  }

  /** Lines in ascending order of total price. */
  predicate SortedByPrice(ls: seq<RateLine>) {
    forall i, j :: 0 <= i < j < |ls| ==> ls[i].totalPrice <= ls[j].totalPrice
  }

  /** A line no dearer than the head of a sorted list can go in front of it. */
  lemma SortedCons(a: RateLine, rest: seq<RateLine>)
    requires SortedByPrice(rest)
    requires |rest| > 0 ==> a.totalPrice <= rest[0].totalPrice
    ensures SortedByPrice([a] + rest)
  {
    var r := [a] + rest;
    forall i, j | 0 <= i < j < |r|
      ensures r[i].totalPrice <= r[j].totalPrice
    {
      if i == 0 && j > 1 {
        assert rest[0].totalPrice <= rest[j - 1].totalPrice;
      }
    }
  }

  /** Inserts `l` into sorted `ls` after every line that is not dearer. */
  function InsertByPrice(l: RateLine, ls: seq<RateLine>): (r: seq<RateLine>)
    requires SortedByPrice(ls)
    ensures SortedByPrice(r)
    ensures multiset(r) == multiset(ls) + multiset{l}
    ensures |r| == |ls| + 1
    ensures r[0] == l || (|ls| > 0 && r[0] == ls[0])
  {
    if |ls| == 0 then [l]
    else if l.totalPrice < ls[0].totalPrice then
      SortedCons(l, ls);
      [l] + ls
    else
      var rest := InsertByPrice(l, ls[1..]);
      assert ls == [ls[0]] + ls[1..];
      SortedCons(ls[0], rest);
      [ls[0]] + rest
  }

  /** `_order = 'total_price asc'`: the lines as the wizard lists them, a
      reordering of the offered rates by ascending price. */
  function OrderByPrice(ls: seq<RateLine>): (r: seq<RateLine>)
    ensures SortedByPrice(r)
    ensures multiset(r) == multiset(ls)
    ensures |r| == |ls|
  {
    if |ls| == 0 then []
    else
      assert ls == ls[..|ls| - 1] + [ls[|ls| - 1]];
      InsertByPrice(ls[|ls| - 1], OrderByPrice(ls[..|ls| - 1]))
  }

  /** The first line listed is a cheapest offer. */
  lemma {:induction false} CheapestListedFirst(ls: seq<RateLine>)
    requires |ls| > 0
    ensures forall i :: 0 <= i < |ls| ==> OrderByPrice(ls)[0].totalPrice <= ls[i].totalPrice
  {
    var r := OrderByPrice(ls);
    forall i | 0 <= i < |ls|
      ensures r[0].totalPrice <= ls[i].totalPrice
    {
      assert ls[i] in multiset(r);
      var k :| 0 <= k < |r| && r[k] == ls[i];
    }
  }

  /** The service label shown in the delivery line. */
  const UnknownService: string := "Unknown Service"

  /** The service name is appended to the carrier name when it is set and is
      not the placeholder. */
  predicate ShowsService(service: Char) {
    Truthy(service) && service.value != UnknownService
  }

  /** The name given to the delivery line for a chosen rate. */
  function ServiceDescription(carrierName: string, service: Char): (d: string)
    ensures StartsWith(d, carrierName)
    ensures ShowsService(service) ==> d == carrierName + " - " + service.value
    ensures !ShowsService(service) ==> d == carrierName
  {
    if ShowsService(service) then carrierName + " - " + service.value else carrierName
  }

  /** The delivery line is named after the carrier alone exactly when the
      service name is missing or the placeholder. */
  lemma ServiceDescriptionIsCarrierNameIff(carrierName: string, service: Char)
    ensures ServiceDescription(carrierName, service) == carrierName <==> !ShowsService(service)
  {
    if ShowsService(service) {
      assert |ServiceDescription(carrierName, service)| > |carrierName|;
    }
  }

  /** What `set_delivery_line` did: returned a falsy value, raised, or set
      the delivery line, leaving the order with `lines`. */
  datatype DeliverySetting = NotSet | SetRaised(message: string) | Set(lines: seq<SaleLine>)

  const InvalidSelection: string := "Invalid rate selection data."
  const ApplyErrorPrefix: string := "Error applying shipping rate: "
  const ApplyFailed: string := "Failed to apply shipping rate to the order."

  /** The write on the delivery lines: name and unit price from the chosen
      rate; the other lines are unchanged. */
  function RenameDeliveryLines(lines: seq<SaleLine>, name: string, price: real): (r: seq<SaleLine>)
    ensures |r| == |lines|
    ensures forall i :: 0 <= i < |lines| && lines[i].isDelivery ==>
              r[i] == lines[i].(name := name, priceUnit := price)
    ensures forall i :: 0 <= i < |lines| && !lines[i].isDelivery ==> r[i] == lines[i]
  {
    seq(|lines|, i requires 0 <= i < |lines| =>
      if lines[i].isDelivery then lines[i].(name := name, priceUnit := price) else lines[i])
  }

  /** `action_apply_rate`: fails without an order or a carrier; every failure
      of setting the delivery line surfaces as an "Error applying shipping
      rate" user error; on success the delivery lines carry the service
      description and the chosen total price, and the dialog closes. */
  function ApplyRate(w: Wizard, line: RateLine, setting: DeliverySetting): (r: Result<(Action, seq<SaleLine>)>)
    ensures w.order.None? || w.carrier.None? ==> r == Err(UserError(InvalidSelection))
    ensures r.Ok? <==> w.order.Some? && w.carrier.Some? && setting.Set?
    ensures w.order.Some? && w.carrier.Some? && setting.NotSet? ==>
              r == Err(UserError(ApplyErrorPrefix + ApplyFailed))
    ensures w.order.Some? && w.carrier.Some? && r.Err? ==>
              r.error.UserError? && StartsWith(r.error.message, ApplyErrorPrefix)
    ensures r.Ok? ==> r.value.0 == CloseWindow
    ensures r.Ok? ==> |r.value.1| == |setting.lines|
    ensures r.Ok? ==> forall i :: 0 <= i < |setting.lines| && setting.lines[i].isDelivery ==>
              r.value.1[i].priceUnit == line.totalPrice
              && r.value.1[i].name == ServiceDescription(w.carrier.value.name, line.serviceName)
    ensures r.Ok? ==> forall i :: 0 <= i < |setting.lines| && !setting.lines[i].isDelivery ==>
              r.value.1[i] == setting.lines[i]
  {
    if w.order.None? || w.carrier.None? then Err(UserError(InvalidSelection))
    else
      match setting
      case NotSet => Err(UserError(ApplyErrorPrefix + ApplyFailed))
      case SetRaised(m) => Err(UserError(ApplyErrorPrefix + m))
      case Set(after) =>
        var name := ServiceDescription(w.carrier.value.name, line.serviceName);
        Ok((CloseWindow, RenameDeliveryLines(after, name, line.totalPrice)))
  }

  /** The placeholder for a missing value in the details message. */
  const NotAvailable: string := "N/A"

  /** The values the details message shows. */
  datatype ShownDetails = ShownDetails(
    service: string,
    description: string,
    currency: string,
    dateMin: string,
    dateMax: string,
    provider: string)

  /** What the details message shows for each field of a line: its value,
      or 'N/A' when it is missing (the currency symbol is left blank). */
  function DetailsOf(l: RateLine): (d: ShownDetails)
    ensures !Truthy(l.serviceName) ==> d.service == NotAvailable
    ensures Truthy(l.serviceName) ==> d.service == l.serviceName.value
    ensures !Truthy(l.description) ==> d.description == NotAvailable
    ensures Truthy(l.description) ==> d.description == l.description.value
    ensures !Truthy(l.deliveryDateMin) ==> d.dateMin == NotAvailable
    ensures Truthy(l.deliveryDateMin) ==> d.dateMin == l.deliveryDateMin.value
    ensures !Truthy(l.deliveryDateMax) ==> d.dateMax == NotAvailable
    ensures Truthy(l.deliveryDateMax) ==> d.dateMax == l.deliveryDateMax.value
    ensures !Truthy(l.providerSlug) ==> d.provider == NotAvailable
    ensures Truthy(l.providerSlug) ==> d.provider == l.providerSlug.value
    ensures !Truthy(l.currencySymbol) ==> d.currency == ""
  {
    ShownDetails(
      OrElse(l.serviceName, NotAvailable),
      OrElse(l.description, NotAvailable),
      OrElse(l.currencySymbol, ""),
      OrElse(l.deliveryDateMin, NotAvailable),
      OrElse(l.deliveryDateMax, NotAvailable),
      OrElse(l.providerSlug, NotAvailable))
  }

  const DetailsHeader: string := "\n        <b>Service Details:</b><br/>\n        <b>Service:</b> "

  /** The message body; `priceText` is Python's `str()` of the total price. */
  function DetailsMessage(d: ShownDetails, priceText: string): string
  {
    DetailsHeader + d.service + "<br/>" + DetailsTail(d, priceText)
  }

  /** The lines of the message after the service line. */
  function DetailsTail(d: ShownDetails, priceText: string): string
  {
    "\n        <b>Description:</b> " + d.description + "<br/>"
    + "\n        <b>Price:</b> " + priceText + " " + d.currency + "<br/>"
    + "\n        <b>Estimated Delivery:</b> " + d.dateMin + " to " + d.dateMax + "<br/>"
    + "\n        <b>Provider:</b> " + d.provider + "<br/>"
    + "\n        "
  }

  /** `action_view_service_details`: a sticky information notification whose
      message begins with the service name, or 'N/A' when it is missing. */
  function ViewServiceDetails(l: RateLine, priceText: string): (a: Action)
    ensures a.Notification? && a.title == "Service Details" && a.kind == "info" && a.sticky
    ensures a.message == DetailsMessage(DetailsOf(l), priceText)
    ensures !Truthy(l.serviceName) ==> StartsWith(a.message, DetailsHeader + NotAvailable + "<br/>")
    ensures Truthy(l.serviceName) ==> StartsWith(a.message, DetailsHeader + l.serviceName.value + "<br/>")
  {
    var d := DetailsOf(l);
    var m := DetailsMessage(d, priceText);
    var head := DetailsHeader + d.service + "<br/>";
    assert m == head + DetailsTail(d, priceText);
    assert m[..|head|] == head;
    Notification("Service Details", m, "info", true)
  }
}
