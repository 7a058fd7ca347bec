# Bobgo shipping connector — a Dafny model of its decision logic

The `delivery_bobgo` add-on connects a business application's sales orders
and delivery pickings to the Bobgo shipping aggregator. Most of it is ORM
field declarations and HTTP calls. This project models the pure decisions
inside that glue, stated over plain immutable records:

- carrier configuration: the API-key and handling-time constraints, API-key
  normalisation, and the choice between the sandbox and production services;
- payload shaping: `_safe_float`, the rate items and declared value of a sales
  order, and the parcels, addresses and contacts of a shipment request;
- response interpretation: picking the error detail out of a response, and
  formatting an HTTP error message;
- batch cancellation of shipments, with the service's answers as inputs;
- the rate-selection wizard: its constraint, the price order of its lines,
  applying a chosen rate, and the service-details message;
- the picking's status fields, the tracking action and the status sync;
- the product dimension constraint and the shipping volume.

Files, one module each:

| file | module | source |
|---|---|---|
| `base.dfy` | `Base` | Python built-ins the add-on relies on: `or`, `strip()`, `startswith`, slicing, and the `@api.constrains` loop |
| `records.dfy` | `Records` | the framework records: carrier, partner, product, order line, stock move, picking, action |
| `carrier.dfy` | `CarrierConfig` | `delivery_bobgo/models/delivery_bobgo.py` (configuration) |
| `payload.dfy` | `Payload` | `delivery_bobgo/models/delivery_bobgo.py` (payloads) |
| `api_errors.dfy` | `ApiErrors` | `delivery_bobgo/models/delivery_bobgo.py` (error responses) |
| `cancellation.dfy` | `Cancellation` | `delivery_bobgo/models/delivery_bobgo.py` (cancellation) |
| `rate_wizard.dfy` | `RateWizard` | `delivery_bobgo/wizard/choose_bobgo_rate.py` |
| `picking.dfy` | `PickingActions` | `delivery_bobgo/models/stock_picking.py` |
| `product.dfy` | `ProductDimensions` | `delivery_bobgo/models/product_product.py` |

Conventions:

- A `Char` field is `Option<string>`: `None` stands for `False`. It is truthy
  when it is set and non-empty.
- `Float` fields are `real`, and a many-to-one is an `Option`.
- A raised exception is an `Err` or `Fail` value carrying an `Error`.
- Python's `strip()` removes every character `str.isspace()` accepts.
- `int()` on a float truncates toward zero.
- An `@api.constrains` method runs on a create, and on a write that includes
  the field it names. `CarrierConfig.CheckCarriers` runs both carrier
  constraints, as on a create or on a write of both fields. A write of one
  of the two fields runs only that field's check. A write of
  `delivery_type` alone runs neither, so a stored key can break the key
  constraint. The key write inside `bobgo_validate_configuration` runs the
  key check again, and `CarrierConfig.ValidateConfiguration` models that.

`stock_picking.py` holds two concatenated class bodies. Only the second one
(lines 13-73) is modelled, because it is the one in effect. That file and
`product_product.py` call `_` without importing it, so the model gives each
affected operation in two versions: as written and as intended (see
"## Findings").

## Model

| member | source | states |
|---|---|---|
| Base.CheckEachFirstFailure | delivery_bobgo/models/delivery_bobgo.py:49-52 | a constraint over a recordset passes iff every record passes; otherwise the error raised is that of the first failing record |
| Base.Strip | delivery_bobgo/models/delivery_bobgo.py:51 | `str.strip()` returns an infix `s[a..b]` of the key with only whitespace before `a` and after `b`; the infix neither starts nor ends with whitespace; a key without whitespace is unchanged |
| CarrierConfig.CheckApiKey | delivery_bobgo/models/delivery_bobgo.py:46-52 | a carrier is rejected iff it is of type bobgo, has a key, and the stripped key is shorter than 20 characters; the error is the "too short" validation error |
| CarrierConfig.CheckHandlingTime | delivery_bobgo/models/delivery_bobgo.py:54-59 | a carrier is rejected iff it is of type bobgo with a negative handling time |
| CarrierConfig.CheckCarriers | delivery_bobgo/models/delivery_bobgo.py:46-59 | on a create or a write of both fields, a recordset passes iff every carrier passes both checks; a short key anywhere is reported before any negative handling time |
| CarrierConfig.CarrierConstraints | delivery_bobgo/models/delivery_bobgo.py:46-59 | carriers of other types are never rejected; a bobgo carrier with a short key or a negative handling time makes the recordset fail; the recordset passes iff every carrier passes both checks |
| CarrierConfig.NormalizeKey | delivery_bobgo/models/delivery_bobgo.py:76-77 | a key not starting with "Bearer " whose stripped length exceeds 10 becomes "Bearer " + the stripped key; every other key is left unchanged; a non-empty key stays non-empty |
| CarrierConfig.ValidateConfiguration | delivery_bobgo/models/delivery_bobgo.py:46-82 | fails with the "not configured" user error iff no key is set; fails with the "too short" validation error iff the carrier is of type bobgo and the key is rewritten with a stripped length of 11 or 12, because the write re-runs the key constraint; otherwise only the key changes, to its normalised form, and a rewritten key passes the constraint |
| CarrierConfig.WrittenKeyChecked | delivery_bobgo/models/delivery_bobgo.py:46-77 | the key constraint rejects the rewritten key iff the carrier is of type bobgo and the stripped key is shorter than 13 characters |
| CarrierConfig.ElevenCharacterKeyRejected | delivery_bobgo/models/delivery_bobgo.py:46-82 | validating a bobgo carrier with key "abcdefghijk" raises the "too short" validation error |
| CarrierConfig.ThirteenCharacterKeyAccepted | delivery_bobgo/models/delivery_bobgo.py:46-82 | a bobgo carrier with key "abcdefghijklm" is validated with key "Bearer abcdefghijklm" |
| CarrierConfig.NormalizeKeyIdempotent | delivery_bobgo/models/delivery_bobgo.py:76-77 | normalising twice gives the same key as normalising once |
| CarrierConfig.ValidateConfigurationIdempotent | delivery_bobgo/models/delivery_bobgo.py:68-82 | validating an already validated carrier returns it unchanged |
| CarrierConfig.AcceptedKeyGetsBearerPrefix | delivery_bobgo/models/delivery_bobgo.py:46-82 | a bobgo key that passes the length constraint always carries the "Bearer " prefix after validation |
| CarrierConfig.LeadingSpaceGetsSecondPrefix | delivery_bobgo/models/delivery_bobgo.py:76-77 | the prefix test runs before stripping, so a prefixed key preceded by a space gets the prefix twice |
| CarrierConfig.ApiBaseUrl | delivery_bobgo/models/delivery_bobgo.py:61-66 | the sandbox flag selects the sandbox API URL; otherwise the production URL is used |
| CarrierConfig.TrackingLink | delivery_bobgo/models/delivery_bobgo.py:680-688 | no link (False) iff there is no tracking reference; otherwise the link is the deployment's tracking page followed by the reference |
| CarrierConfig.ApiUrlEnvironment | delivery_bobgo/models/delivery_bobgo.py:61-66 | the API base URL names the sandbox deployment iff the carrier's sandbox flag is set |
| CarrierConfig.TrackingLinkEnvironment | delivery_bobgo/models/delivery_bobgo.py:683-684 | a tracking link names the deployment whose host it was built with, whatever the reference |
| CarrierConfig.SameEnvironmentForApiAndTracking | delivery_bobgo/models/delivery_bobgo.py:680-688 | the API base URL and the tracking link always point at the same deployment, the one the sandbox flag selects |
| CarrierConfig.TrackingLinkRecoversReference | delivery_bobgo/models/delivery_bobgo.py:682-684 | the tracking reference can be read back from the link, so distinct references give distinct links |
| Payload.SafeFloat | delivery_bobgo/models/delivery_bobgo.py:406-418 | a value that converts to a positive number is returned as is; None, unconvertible and non-positive values give the default; so the result is positive when the default is |
| Payload.SafeFloatIdempotent | delivery_bobgo/models/delivery_bobgo.py:406-418 | for any default, the price default 0 included, converting a converted value again changes nothing |
| Payload.TruncToInt | delivery_bobgo/models/delivery_bobgo.py:360 | `int()` of a float truncates toward zero |
| Payload.ShippableLines | delivery_bobgo/models/delivery_bobgo.py:346 | the filter keeps only lines that are not delivery lines and have a product |
| Payload.ShippableLinesComplete | delivery_bobgo/models/delivery_bobgo.py:346 | the filter keeps every such line and nothing else; its result is empty iff no line qualifies; each qualifying line occurs in it as often as in the order, and any other line not at all |
| Payload.ItemDimension | delivery_bobgo/models/delivery_bobgo.py:350-363 | a dimension is at least 0.1; a non-positive dimension becomes 10; a positive one below 0.1 becomes 0.1; otherwise it is kept |
| Payload.ItemOf | delivery_bobgo/models/delivery_bobgo.py:347-365 | quantity ≥ 1 and equal to the truncated quantity when that is at least 1; each dimension is `ItemDimension` of the product's own dimension, so ≥ 0.1; weight ≥ 0.01, the product weight when at least 0.01, 0.01 when between 0 and 0.01, and 0.2 when not positive; price is the unit price or 0; description is at most 100 characters of the name, or "Product" |
| Payload.ItemsOf | delivery_bobgo/models/delivery_bobgo.py:346-367 | the items of a list of shippable lines: exactly one per line |
| Payload.ItemsOfPointwise | delivery_bobgo/models/delivery_bobgo.py:346-367 | the item at each position is built from the line at the same position, so the order of the lines is kept |
| Payload.LineValue | delivery_bobgo/models/delivery_bobgo.py:368 | a line adds a non-negative amount to the declared value |
| Payload.SumValues | delivery_bobgo/models/delivery_bobgo.py:344-368 | the declared value is never negative |
| Payload.PrepareOrderItems | delivery_bobgo/models/delivery_bobgo.py:341-372 | exactly one item per shippable line, in order; the declared value is the sum of safe price × unclamped safe quantity; no items iff no line is shippable |
| Payload.DeclaredValueUsesUnclampedQuantity | delivery_bobgo/models/delivery_bobgo.py:355-368 | a line of quantity 0.5 is sent as quantity 1 but contributes half its price to the declared value |
| Payload.OrFloat | delivery_bobgo/models/delivery_bobgo.py:551-554 | `x or fallback` on a float replaces exactly zero |
| Payload.ParcelOf | delivery_bobgo/models/delivery_bobgo.py:547-555 | a parcel has the first 100 characters of the name; zero measurements become 10 cm or 0.2 kg; every other value, negatives included, is kept |
| Payload.MovedProducts | delivery_bobgo/models/delivery_bobgo.py:547 | the products of the moves that have one; empty iff no move has a product; each product occurs in it as often as a move carries it |
| Payload.ShipmentParcels | delivery_bobgo/models/delivery_bobgo.py:546-564 | never empty: one parcel per move with a product, in order, or else the single 10×10×10 cm, 0.2 kg "Default Package" |
| Payload.AddressOf | delivery_bobgo/models/delivery_bobgo.py:521-543 | unset fields become empty strings; the company falls back to the given name and the country to "ZA" |
| Payload.ContactOf | delivery_bobgo/models/delivery_bobgo.py:608-624 | the phone is the mobile number, else the landline, else ""; it is empty iff both are unset |
| Payload.ShipmentRateParties | delivery_bobgo/models/delivery_bobgo.py:514-568 | fails when the warehouse partner is missing (checked first) or the destination partner is missing; otherwise the addresses and contacts come from the two partners and the parcel list is never empty |
| ApiErrors.FirstPresentIsEarliest | delivery_bobgo/models/delivery_bobgo.py:424-426 | the key search finds a value iff some key is present, and that value belongs to the earliest present key |
| ApiErrors.ExtractErrorDetail | delivery_bobgo/models/delivery_bobgo.py:420-429 | the detail is the value of the first present key among detail, error, message and description; else the whole JSON object; for a body that is not JSON, the response text or "No error details available" |
| ApiErrors.DetailOutranksMessage | delivery_bobgo/models/delivery_bobgo.py:424-426 | when both "detail" and "message" are present, "detail" is reported |
| ApiErrors.DecimalString | delivery_bobgo/models/delivery_bobgo.py:443 | the status code renders as a non-empty string of decimal digits |
| ApiErrors.DecimalRoundTrip | delivery_bobgo/models/delivery_bobgo.py:443 | the rendered status code reads back as the same number |
| ApiErrors.FormatHttpError | delivery_bobgo/models/delivery_bobgo.py:431-443 | as written: raises TypeError iff the status is one of the seven listed codes; otherwise gives the generic "returned error (HTTP …)" message |
| ApiErrors.FormatHttpErrorIntended | delivery_bobgo/models/delivery_bobgo.py:433-443 | as intended: 400 reports the detail after "Bad request to Bobgo API: "; unlisted codes get the generic message with their code and detail |
| ApiErrors.FormatHttpErrorDiscrepancy | delivery_bobgo/models/delivery_bobgo.py:443 | where the written formatter returns, it agrees with the intended one; it raises on every listed code |
| ApiErrors.BadRequestRaises | delivery_bobgo/models/delivery_bobgo.py:434-443 | a 400 response raises instead of reporting the bad request |
| ApiErrors.GenericErrorRoundTrip | delivery_bobgo/models/delivery_bobgo.py:443 | status code and detail can be read back from the generic message |
| Cancellation.Cleared | delivery_bobgo/models/delivery_bobgo.py:658-661 | a cancelled picking loses its tracking reference and shipment id, and keeps every other field |
| Cancellation.SentRefs | delivery_bobgo/models/delivery_bobgo.py:633-654 | the references sent are never empty and number at most the pickings |
| Cancellation.SentRefsCount | delivery_bobgo/models/delivery_bobgo.py:633-654 | a non-empty reference is sent as often as pickings hold it; the empty reference is never sent |
| Cancellation.SentRefsExactly | delivery_bobgo/models/delivery_bobgo.py:633-654 | a request is sent for every picking with a tracking reference and for no other |
| Cancellation.CancelShipments | delivery_bobgo/models/delivery_bobgo.py:626-678 | returns True iff every picking has a reference answered with 200; only those pickings are cleared; all others are unchanged |
| Cancellation.MissingReferenceFailsBatch | delivery_bobgo/models/delivery_bobgo.py:634-637 | a picking without a tracking reference fails the batch whatever the service answers, and stays unchanged |
| Cancellation.CancelTwiceFails | delivery_bobgo/models/delivery_bobgo.py:626-678 | cancelling a fully cancelled batch again sends nothing and returns False |
| RateWizard.CheckHasRates | delivery_bobgo/wizard/choose_bobgo_rate.py:30-35 | a wizard is rejected iff it has no rate lines |
| RateWizard.WizardsNeedRates | delivery_bobgo/wizard/choose_bobgo_rate.py:30-35 | a recordset of wizards passes iff every wizard has a rate line; otherwise the "no rates" error is raised |
| RateWizard.InsertByPrice | delivery_bobgo/wizard/choose_bobgo_rate.py:40 | inserting into a price-sorted list keeps it sorted and adds exactly the new line |
| RateWizard.OrderByPrice | delivery_bobgo/wizard/choose_bobgo_rate.py:40 | the listed lines are a permutation of the offered lines, in ascending total price |
| RateWizard.CheapestListedFirst | delivery_bobgo/wizard/choose_bobgo_rate.py:40 | the first listed line is no dearer than any offered line |
| RateWizard.ServiceDescription | delivery_bobgo/wizard/choose_bobgo_rate.py:104-106 | the name is the carrier name, followed by " - <service>" when the service is set and is not "Unknown Service" |
| RateWizard.ServiceDescriptionIsCarrierNameIff | delivery_bobgo/wizard/choose_bobgo_rate.py:104-106 | the name is the bare carrier name iff the service is missing or "Unknown Service" |
| RateWizard.RenameDeliveryLines | delivery_bobgo/wizard/choose_bobgo_rate.py:102-111 | the delivery lines get the new name and price; other lines are unchanged |
| RateWizard.ApplyRate | delivery_bobgo/wizard/choose_bobgo_rate.py:86-128 | fails without an order or a carrier; otherwise every failure of setting the delivery line is an "Error applying shipping rate: …" user error; on success the delivery lines carry the composed name and the chosen total price, and the window closes |
| RateWizard.DetailsOf | delivery_bobgo/wizard/choose_bobgo_rate.py:134-141 | a missing service, description, delivery date or provider is shown as 'N/A'; a present one is shown as is |
| RateWizard.ViewServiceDetails | delivery_bobgo/wizard/choose_bobgo_rate.py:130-152 | a sticky "info" notification titled "Service Details" whose message opens with the service name, or 'N/A' |
| PickingActions.NewBobgoState | delivery_bobgo/models/stock_picking.py:16-39 | a new picking has status draft, no shipment id and no sync time |
| PickingActions.CopyBobgoState | delivery_bobgo/models/stock_picking.py:16-39 | a duplicate has status draft, no shipment id and no sync time |
| PickingActions.CopyForgetsOriginal | delivery_bobgo/models/stock_picking.py:16-39 | the duplicate's Bobgo fields do not depend on the original's |
| PickingActions.OpenTracking | delivery_bobgo/models/stock_picking.py:41-55 | as intended: fails without a bobgo carrier or without a tracking link; otherwise a URL action for exactly the carrier's tracking link, with target 'new' |
| PickingActions.OpenTrackingAsWritten | delivery_bobgo/models/stock_picking.py:41-55 | as written: succeeds on the same pickings; every failure is a NameError |
| PickingActions.OpenTrackingDiscrepancy | delivery_bobgo/models/stock_picking.py:44-55 | both versions succeed on the same pickings with the same action; on failure the written one raises NameError where the intended one raises a user error |
| PickingActions.OpenTrackingFollowsSandboxFlag | delivery_bobgo/models/stock_picking.py:47-53 | the opened link is on the deployment the carrier's sandbox flag selects |
| PickingActions.SyncStatus | delivery_bobgo/models/stock_picking.py:57-73 | as intended: only the last-sync time is written; status, shipment id and the other fields are unchanged; the result is a success notification |
| PickingActions.SyncStatusIdempotent | delivery_bobgo/models/stock_picking.py:57-63 | syncing twice at the same instant equals syncing once |
| PickingActions.SyncStatusAsWritten | delivery_bobgo/models/stock_picking.py:57-73 | as written: every call raises NameError on `_`, so the write is rolled back |
| PickingActions.SyncStatusDiscrepancy | delivery_bobgo/models/stock_picking.py:57-73 | as written the action always raises NameError, while the intended one changes every picking not already synced at that instant |
| ProductDimensions.CheckDimensions | delivery_bobgo/models/product_product.py:32-43 | as intended: passes iff no dimension is negative and not all are zero; the first negative one in the order length, width, height is reported; all-zero is reported |
| ProductDimensions.CheckDimensionsAsWritten | delivery_bobgo/models/product_product.py:32-43 | as written: accepts the same products; every rejection is a NameError |
| ProductDimensions.CheckDimensionsDiscrepancy | delivery_bobgo/models/product_product.py:35-43 | both versions accept the same products; on rejection the written one loses the validation message |
| ProductDimensions.NegativeLengthReportedFirst | delivery_bobgo/models/product_product.py:35-41 | a negative length is reported ahead of the other dimensions (intended), while the written version raises NameError |
| ProductDimensions.CheckProductsAll | delivery_bobgo/models/product_product.py:33-43 | a recordset of products passes iff every product has valid dimensions |
| ProductDimensions.DefaultProduct | delivery_bobgo/models/product_product.py:13-30 | the default dimensions are 10 cm each |
| ProductDimensions.DefaultDimensionsValid | delivery_bobgo/models/product_product.py:13-43 | the default dimensions pass the constraint, with volume 1000 cm³ |
| ProductDimensions.ShippingVolume | delivery_bobgo/models/product_product.py:45-48 | the volume is zero iff one dimension is zero, and never negative when no dimension is negative |
| ProductDimensions.ValidVolume | delivery_bobgo/models/product_product.py:45-48 | the volume of a valid product is non-negative, and it is zero iff one dimension is zero |
| ProductDimensions.FlatProductAccepted | delivery_bobgo/models/product_product.py:42-48 | a product with a zero height passes the constraint and has zero volume |

## Findings

| source | as written | input that shows it | evidently intended | confidence | as-written member | corrected member |
|---|---|---|---|---|---|---|
| delivery_bobgo/models/stock_picking.py:41-73 | `_` is used but never imported (line 10), so both error branches of the tracking action raise NameError, and so does every status sync (the notification title on lines 68-69) | a picking whose carrier is not of type bobgo; any call to the sync action | user errors "This delivery is not using Bobgo shipping." / "No tracking information available for this shipment."; the sync writes the time and returns the notification | medium, not executed | PickingActions.OpenTrackingAsWritten, PickingActions.SyncStatusAsWritten | PickingActions.OpenTracking, PickingActions.SyncStatus |
| delivery_bobgo/models/product_product.py:32-43 | `_` is never imported (line 3), so every rejection raises NameError and no dimension is named | a product with length -1 | a validation error naming the first negative dimension, or the all-zero error | medium, not executed | ProductDimensions.CheckDimensionsAsWritten | ProductDimensions.CheckDimensions |
| delivery_bobgo/models/delivery_bobgo.py:431-443 | every template is `%`-applied to the pair (status, detail); the listed templates have one placeholder or none, so Python raises TypeError | status 400 with any detail | the listed code's own message, the one for 400 followed by the detail | high, not executed | ApiErrors.FormatHttpError | ApiErrors.FormatHttpErrorIntended |

The "medium" confidence in the first two rows reflects one assumption: that
the host framework does not place `_` among Python's built-ins.

## Left out

- HTTP calls, timeouts, `raise_for_status` and status branching on live responses (`bobgo_test_connection`, `rate_shipment`, `bobgo_rate_shipment`, `bobgo_send_shipping`): network I/O. Cancellation takes the service's answers as an input instead.
- The framework cache in `rate_shipment`, wizard creation (`_create_rate_selection_wizard`), `ir.logging` records, logging and timing: framework plumbing.
- `_prepare_collection_address` / `_prepare_delivery_address`: they repeat the picking-side address mapping that `Payload.AddressOf` models, and they are only reached through the network-bound rate request.
- The constant test-connection payload, the `max(0, int(handling_time))` of the rate request, and `_prepare_shipment_payload`: the first is constant data, and the other two only re-key values into a request that is never sent here.
- Payload.ShipmentRateParties: does not include the declared value (`sum(price_total …) or 0`) or the fixed `timeout` of the shipment request, because only the parcel, address and contact parts are modelled.
- ApiErrors.ExtractErrorDetail: models a JSON body that is an object or that does not parse. A JSON array, string, number or null would hit Python's `in` on a non-dict. `str()` of values and of the whole object is taken as given text rather than computed.
- Payload.SafeFloat: does not model NaN or infinities, because floats are modelled as `real`.
- RateWizard.ViewServiceDetails: takes `str(total_price)` as a parameter, because float formatting is not modelled.
- RateWizard.OrderByPrice: does not prove how lines of equal price are ordered, because the database leaves that order open.
- The framework's `set_delivery_line` is an input to `RateWizard.ApplyRate`: its outcome and the order lines it leaves behind.
- PickingActions.CopyBobgoState: covers only the three fields this add-on declares on the picking; other fields follow their own declarations elsewhere.
- Rounding of the declared value and of the volume, and Python float arithmetic in general: prices and dimensions are exact `real`s.
- `_init_bobgo_defaults`: it only logs.
- The second API-key field declaration in `custom_addons/delivery_bobgo/models/delivery_carrier.py`: a superseded scaffold whose methods return constants or always raise.
- Both `__manifest__.py` files: declarative metadata.
- Requests are sent with `urljoin(base, "/path")`. Because the path is absolute, `urljoin` drops the base URL's `/v2` segment. The model does not build request URLs, because no request is sent here.
