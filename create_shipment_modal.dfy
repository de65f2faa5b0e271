/** The client's "Create New Shipment" dialog: its form schema, its default
    values, the request it sends and the error toast it picks. */
module CreateShipmentModal {
  import opened Wrappers
  import opened Text
  import opened Failures
  import ShipmentModel
  import ShipmentsRoute

  datatype CreateForm = CreateForm(
    description: string, currentLocation: string, weight: string, dimensions: string,
    status: string, senderName: string, senderContact: string, senderAddress: string,
    recipientName: string, recipientContact: string, recipientAddress: string,
    pickupDate: string, expectedDate: string)

  const StatusValues: seq<string> := ["pending", "in-transit", "out-for-delivery", "delivered"]

  /** `[path]` when the field's check fails, else nothing. */
  function Flag(path: string, ok: bool): seq<string> {
    if ok then [] else [path]
  }

  /** The paths of the fields `createShipmentSchema` rejects, in declaration
      order: each text field must be non-empty and the status one of the
      four values. */
  function Issues(d: CreateForm): seq<string> {
    Flag("description", d.description != []) + Flag("currentLocation", d.currentLocation != [])
    + Flag("weight", d.weight != []) + Flag("dimensions", d.dimensions != [])
    + Flag("status", d.status in StatusValues) + Flag("senderName", d.senderName != [])
    + Flag("senderContact", d.senderContact != []) + Flag("senderAddress", d.senderAddress != [])
    + Flag("recipientName", d.recipientName != []) + Flag("recipientContact", d.recipientContact != [])
    + Flag("recipientAddress", d.recipientAddress != []) + Flag("pickupDate", d.pickupDate != [])
    + Flag("expectedDate", d.expectedDate != [])
  }

  predicate Accepts(d: CreateForm) {
    Issues(d) == []
  }

  /** The schema accepts exactly the forms with all twelve text fields filled
      and a known status; it reports at most one issue per field. */
  lemma AcceptsMeaning(d: CreateForm)
    ensures Accepts(d) <==>
              d.description != [] && d.currentLocation != [] && d.weight != [] && d.dimensions != []
              && d.status in StatusValues && d.senderName != [] && d.senderContact != []
              && d.senderAddress != [] && d.recipientName != [] && d.recipientContact != []
              && d.recipientAddress != [] && d.pickupDate != [] && d.expectedDate != []
    ensures |Issues(d)| <= 13
  {
    assert |Issues(d)| ==
      |Flag("description", d.description != [])| + |Flag("currentLocation", d.currentLocation != [])|
      + |Flag("weight", d.weight != [])| + |Flag("dimensions", d.dimensions != [])|
      + |Flag("status", d.status in StatusValues)| + |Flag("senderName", d.senderName != [])|
      + |Flag("senderContact", d.senderContact != [])| + |Flag("senderAddress", d.senderAddress != [])|
      + |Flag("recipientName", d.recipientName != [])| + |Flag("recipientContact", d.recipientContact != [])|
      + |Flag("recipientAddress", d.recipientAddress != [])| + |Flag("pickupDate", d.pickupDate != [])|
      + |Flag("expectedDate", d.expectedDate != [])|;
  }

  /** `defaultValues`, given today's and next week's dates as `YYYY-MM-DD`. */
  function Defaults(today: string, nextWeek: string): CreateForm {
    CreateForm("", "", "", "", "pending", "", "", "", "", "", "", today, nextWeek)
  }

  /** Untouched defaults fail on the ten empty text fields and nothing else. */
  lemma DefaultsIssues(today: string, nextWeek: string)
    requires today != [] && nextWeek != []
    ensures Issues(Defaults(today, nextWeek)) ==
              ["description", "currentLocation", "weight", "dimensions", "senderName", "senderContact",
               "senderAddress", "recipientName", "recipientContact", "recipientAddress"]
  {
  }

  /** `{...data, weight: parseFloat(data.weight)}` as the server reads it.
      `parseFloat` gives None for NaN, which `JSON.stringify` sends as null.
      There is no tracking id and no warehouse in it. */
  function Payload(d: CreateForm, parseFloat: string -> Option<real>): (b: ShipmentsRoute.ShipmentBody)
    ensures b.warehouse.None?
    ensures b.weight == parseFloat(d.weight)
  {
    ShipmentsRoute.ShipmentBody(
      Some(d.description), Some(d.currentLocation), parseFloat(d.weight), Some(d.dimensions),
      Some(d.status), None, Some(d.senderName), Some(d.senderContact), Some(d.senderAddress),
      Some(d.recipientName), Some(d.recipientContact), Some(d.recipientAddress),
      Some(d.pickupDate), Some(d.expectedDate))
  }

  /** A form the schema accepts never meets the server's missing-field 400,
      its status is one the server's schema knows, and the warehouse is
      left for the server to choose. */
  lemma AcceptedFormPassesServerCheck(d: CreateForm, parseFloat: string -> Option<real>, trackingId: string,
                                      warehouse: ObjectId, now: int, parseDate: string -> ShipmentModel.DateValue)
    requires Accepts(d)
    ensures var n := ShipmentsRoute.Normalise(Payload(d, parseFloat), trackingId, warehouse, now, parseDate);
            ShipmentsRoute.MissingFields(n) == []
            && n.status.Some? && ShipmentModel.ParseStatus(n.status.value).Some?
            && n.isDelivered == Some(d.status == "delivered")
  {
    AcceptsMeaning(d);
    FilledFormPassesServerCheck(d, parseFloat, trackingId, warehouse, now, parseDate);
  }

  lemma FilledFormPassesServerCheck(d: CreateForm, parseFloat: string -> Option<real>, trackingId: string,
                                    warehouse: ObjectId, now: int, parseDate: string -> ShipmentModel.DateValue)
    requires d.senderName != [] && d.recipientName != [] && d.senderAddress != [] && d.recipientAddress != []
    requires d.status in StatusValues
    ensures var n := ShipmentsRoute.Normalise(Payload(d, parseFloat), trackingId, warehouse, now, parseDate);
            ShipmentsRoute.MissingFields(n) == []
            && n.status.Some? && ShipmentModel.ParseStatus(n.status.value).Some?
            && n.isDelivered == Some(d.status == "delivered")
  {
    var b := Payload(d, parseFloat);
    var n := ShipmentsRoute.Normalise(b, trackingId, warehouse, now, parseDate);
    assert b.senderName == Some(d.senderName) && b.recipientName == Some(d.recipientName);
    assert b.senderAddress == Some(d.senderAddress) && b.recipientAddress == Some(d.recipientAddress);
    assert n.senderName == d.senderName && n.recipientName == d.recipientName;
    assert n.senderAddress == d.senderAddress && n.recipientAddress == d.recipientAddress;
    ShipmentsRoute.MissingFieldsMeaning(n);
  }

  /** The parsed error body of a non-ok answer. */
  datatype ErrorJson = ErrorJson(error: Option<string>, message: Option<string>, missingFields: Option<seq<string>>)

  /** An error body the server routes produce, as the browser parses it. */
  function FromServer(b: ErrorBody): ErrorJson {
    ErrorJson(Some(b.error), b.message, b.missingFields)
  }

  /** The first toast for a rejected request: a message mentioning
      "validation" wins, then a missing-field list, then `error`. */
  function RejectionToast(e: ErrorJson): string {
    if e.message.Some? && Contains(e.message.value, "validation") then "Validation Error: " + e.message.value
    else if e.missingFields.Some? then "Missing required fields: " + Join(e.missingFields.value, ", ")
    else Or(e.error, "Failed to create shipment")
  }

  /** What the server's own rejections turn into. */
  lemma ToastsForServerErrors(fields: seq<string>, msg: string)
    ensures RejectionToast(FromServer(ErrorBody("Missing required fields", None, Some(fields))))
            == "Missing required fields: " + Join(fields, ", ")
    ensures Contains(msg, "validation") ==>
              RejectionToast(FromServer(ErrorBody("Validation failed", Some(msg), None))) == "Validation Error: " + msg
    ensures !Contains(msg, "validation") ==>
              RejectionToast(FromServer(ErrorBody("Validation failed", Some(msg), None))) == "Validation failed"
  {
  }

  /** The answer to the POST: created (with the server's tracking id), a
      non-ok status with a JSON body, or a body that is not JSON. */
  datatype CreateReply = Created(trackingId: string) | Rejected(body: ErrorJson) | Unreadable(message: string)

  class Modal {
    const defaults: CreateForm
    var form: CreateForm
    var open: bool
    var isLoading: bool
    var toasts: seq<string>
    /** Calls of `onShipmentCreated`. */
    var notified: nat

    constructor(today: string, nextWeek: string)
      ensures defaults == Defaults(today, nextWeek) && form == defaults
      ensures !open && !isLoading && toasts == [] && notified == 0
    {
      defaults := Defaults(today, nextWeek);
      form := Defaults(today, nextWeek);
      open := false;
      isLoading := false;
      toasts := [];
      notified := 0;
    }

    /** `form.handleSubmit(onSubmit)`: the schema runs first and only an
        accepted form is sent; `isLoading` is cleared on every path. */
    method Submit(data: CreateForm, parseFloat: string -> Option<real>, reply: CreateReply)
      returns (sent: Option<ShipmentsRoute.ShipmentBody>)
      modifies this`form, this`open, this`isLoading, this`toasts, this`notified
      ensures sent.Some? <==> Accepts(data)
      ensures sent.Some? ==> sent.value == Payload(data, parseFloat) && !isLoading
      ensures sent.None? ==> form == old(form) && open == old(open) && isLoading == old(isLoading)
                             && toasts == old(toasts) && notified == old(notified)
      ensures sent.Some? && reply.Created? ==>
                form == defaults && !open && notified == old(notified) + 1
                && toasts == old(toasts) + ["Shipment created successfully! Tracking ID: " + reply.trackingId]
      ensures sent.Some? && reply.Rejected? ==>
                form == old(form) && open == old(open) && notified == old(notified)
                && toasts == old(toasts) + [RejectionToast(reply.body), Or(reply.body.error, "Failed to create shipment")]
      ensures sent.Some? && reply.Unreadable? ==>
                form == old(form) && open == old(open) && notified == old(notified)
                && toasts == old(toasts) + [reply.message]
    {
      if !Accepts(data) {
        return None;
      }
      sent := Some(Payload(data, parseFloat));
      isLoading := true;
      match reply {
        case Created(trackingId) =>
          toasts := toasts + ["Shipment created successfully! Tracking ID: " + trackingId];
          form := defaults;
          open := false;
          notified := notified + 1;
        case Rejected(body) =>
          toasts := toasts + [RejectionToast(body)];
          toasts := toasts + [Or(body.error, "Failed to create shipment")];
        case Unreadable(message) =>
          toasts := toasts + [message];
      }
      isLoading := false;
    }
  }
}
