/** The client's Shipments page: the list, the add/edit dialog with its
    form schema, and deletion. */
module ShipmentsPage {
  import opened Wrappers
  import opened Text

  /** The form's values: fifteen text fields and the delivered flag. */
  datatype ShipmentForm = ShipmentForm(
    trackingId: string, description: string, currentLocation: string, weight: string,
    dimensions: string, status: string, warehouse: string, senderName: string,
    senderContact: string, senderAddress: string, recipientName: string,
    recipientContact: string, recipientAddress: string, pickupDate: string,
    expectedDate: string, isDelivered: bool)

  /** A listed shipment: its id, the fields the form edits, and when it was made. */
  datatype ListedShipment = ListedShipment(id: string, fields: ShipmentForm, createdAt: string)

  function Flag(path: string, ok: bool): seq<string> {
    if ok then [] else [path]
  }

  /** The paths `shipmentSchema` rejects, in declaration order: every text
      field must be non-empty (the flag is a boolean by construction). */
  function Issues(d: ShipmentForm): seq<string> {
    Flag("trackingId", d.trackingId != []) + Flag("description", d.description != [])
    + Flag("currentLocation", d.currentLocation != []) + Flag("weight", d.weight != [])
    + Flag("dimensions", d.dimensions != []) + Flag("status", d.status != [])
    + Flag("warehouse", d.warehouse != []) + Flag("senderName", d.senderName != [])
    + Flag("senderContact", d.senderContact != []) + Flag("senderAddress", d.senderAddress != [])
    + Flag("recipientName", d.recipientName != []) + Flag("recipientContact", d.recipientContact != [])
    + Flag("recipientAddress", d.recipientAddress != []) + Flag("pickupDate", d.pickupDate != [])
    + Flag("expectedDate", d.expectedDate != [])
  }

  predicate Accepts(d: ShipmentForm) {
    Issues(d) == []
  }

  lemma AcceptsMeaning(d: ShipmentForm)
    ensures Accepts(d) <==>
              d.trackingId != [] && d.description != [] && d.currentLocation != [] && d.weight != []
              && d.dimensions != [] && d.status != [] && d.warehouse != [] && d.senderName != []
              && d.senderContact != [] && d.senderAddress != [] && d.recipientName != []
              && d.recipientContact != [] && d.recipientAddress != [] && d.pickupDate != []
              && d.expectedDate != []
  {
    assert |Issues(d)| ==
      |Flag("trackingId", d.trackingId != [])| + |Flag("description", d.description != [])|
      + |Flag("currentLocation", d.currentLocation != [])| + |Flag("weight", d.weight != [])|
      + |Flag("dimensions", d.dimensions != [])| + |Flag("status", d.status != [])|
      + |Flag("warehouse", d.warehouse != [])| + |Flag("senderName", d.senderName != [])|
      + |Flag("senderContact", d.senderContact != [])| + |Flag("senderAddress", d.senderAddress != [])|
      + |Flag("recipientName", d.recipientName != [])| + |Flag("recipientContact", d.recipientContact != [])|
      + |Flag("recipientAddress", d.recipientAddress != [])| + |Flag("pickupDate", d.pickupDate != [])|
      + |Flag("expectedDate", d.expectedDate != [])|;
  }

  /** `defaultValues`: a generated tracking id and everything else empty. */
  function Defaults(trackingId: string): ShipmentForm {
    ShipmentForm(trackingId, "", "", "", "", "", "", "", "", "", "", "", "", "", "", false)
  }

  /** The untouched form cannot be submitted. */
  lemma DefaultsRejected(trackingId: string)
    ensures !Accepts(Defaults(trackingId))
    ensures "description" in Issues(Defaults(trackingId))
  {
    AcceptsMeaning(Defaults(trackingId));
  }

  /** `getStatusBadgeColor` */
  function StatusBadgeColor(status: string): string {
    if status == "delivered" then "bg-green-100 text-green-800"
    else if status == "in-transit" then "bg-blue-100 text-blue-800"
    else if status == "out-for-delivery" then "bg-yellow-100 text-yellow-800"
    else "bg-gray-100 text-gray-800"
  }

  /** A pending shipment's badge looks like an unknown status's. */
  lemma PendingLooksUnknown(status: string)
    ensures StatusBadgeColor(status) == StatusBadgeColor("pending")
            <==> status != "delivered" && status != "in-transit" && status != "out-for-delivery"
  {
  }

  datatype Request = Request(verb: string, url: string)

  /** The method and url `onSubmit` picks. */
  function SubmitTarget(editing: Option<ListedShipment>): (r: Request)
    ensures editing.Some? <==> r.verb == "PUT"
    ensures editing.Some? ==> r.url == "/api/shipments/" + editing.value.id
    ensures editing.None? ==> r == Request("POST", "/api/shipments")
  {
    match editing
    case Some(s) => Request("PUT", "/api/shipments/" + s.id)
    case None => Request("POST", "/api/shipments")
  }

  /** The answer to the save: ok, a non-ok status with the body's `error`
      field, or a thrown value (an `Error` with its message, or not). */
  datatype SaveReply = Saved | Refused(error: Option<string>) | ThrewError(message: string) | ThrewOther

  datatype DeleteReply = Deleted | NotDeleted | DeleteThrew

  class Page {
    /** The form's default values: what a bare `form.reset()` restores. They
        start as the mount-time defaults, and `form.reset(values)` replaces
        them with `values`, as react-hook-form does unless told to keep them. */
    var defaults: ShipmentForm
    var shipments: seq<ListedShipment>
    var form: ShipmentForm
    var editing: Option<ListedShipment>
    var dialogOpen: bool
    var isLoading: bool
    var toasts: seq<string>
    /** Calls of `fetchShipments` after mount. */
    var refetches: nat

    constructor(trackingId: string)
      ensures defaults == Defaults(trackingId) && form == defaults
      ensures shipments == [] && editing.None? && !dialogOpen && !isLoading && toasts == [] && refetches == 0
    {
      defaults := Defaults(trackingId);
      form := Defaults(trackingId);
      shipments := [];
      editing := None;
      dialogOpen := false;
      isLoading := false;
      toasts := [];
      refetches := 0;
    }

    /** `fetchShipments`: only an ok answer replaces the list. */
    method FetchShipments(reply: Option<seq<ListedShipment>>)
      modifies this`shipments
      ensures reply.Some? ==> shipments == reply.value
      ensures reply.None? ==> shipments == old(shipments)
    {
      if reply.Some? {
        shipments := reply.value;
      }
    }

    /** `handleEdit`: load the shipment's fields and open the dialog. The
        reset also makes those fields the new defaults, so every later bare
        reset (closing the dialog, a successful save) restores this shipment,
        tracking id included, rather than a blank form. */
    method HandleEdit(s: ListedShipment)
      modifies this`editing, this`form, this`dialogOpen, this`defaults
      ensures editing == Some(s) && form == s.fields && dialogOpen
      ensures defaults == s.fields
      ensures SubmitTarget(editing) == Request("PUT", "/api/shipments/" + s.id)
    {
      editing := Some(s);
      form := s.fields;
      defaults := s.fields;
      dialogOpen := true;
    }

    /** The dialog's `onOpenChange`: closing it also forgets the edit. */
    method OnOpenChange(open: bool)
      modifies this`dialogOpen, this`editing, this`form
      ensures dialogOpen == open
      ensures !open ==> editing.None? && form == defaults
      ensures open ==> editing == old(editing) && form == old(form)
    {
      dialogOpen := open;
      if !open {
        editing := None;
        form := defaults;
      }
    }

    /** `form.handleSubmit(onSubmit)`: the schema runs first; an accepted
        form is sent to the target `SubmitTarget` picks. */
    method Submit(data: ShipmentForm, reply: SaveReply) returns (sent: Option<Request>)
      modifies this`form, this`editing, this`dialogOpen, this`isLoading, this`toasts, this`refetches
      ensures sent.Some? <==> Accepts(data)
      ensures sent.Some? ==> sent.value == SubmitTarget(old(editing)) && !isLoading
      ensures sent.None? ==> form == old(form) && editing == old(editing) && dialogOpen == old(dialogOpen)
                             && isLoading == old(isLoading) && toasts == old(toasts) && refetches == old(refetches)
      ensures sent.Some? && reply.Saved? ==>
                form == defaults && editing.None? && !dialogOpen && refetches == old(refetches) + 1
                && toasts == old(toasts) + ["Shipment " + (if old(editing).Some? then "updated" else "created") + " successfully."]
      ensures sent.Some? && !reply.Saved? ==>
                form == old(form) && editing == old(editing) && dialogOpen == old(dialogOpen)
                && refetches == old(refetches) && |toasts| == |old(toasts)| + 1
      ensures sent.Some? && reply.Refused? ==>
                toasts[|toasts| - 1] == "Error: " + Or(reply.error, "Failed to " + (if old(editing).Some? then "update" else "create") + " shipment")
      ensures sent.Some? && reply.ThrewError? ==> toasts[|toasts| - 1] == "Error: " + reply.message
      ensures sent.Some? && reply.ThrewOther? ==> toasts[|toasts| - 1] == "Error: Something went wrong"
    {
      if !Accepts(data) {
        return None;
      }
      isLoading := true;
      sent := Some(SubmitTarget(editing));
      var action := if editing.Some? then "update" else "create";
      match reply {
        case Saved =>
          toasts := toasts + ["Shipment " + (if editing.Some? then "updated" else "created") + " successfully."];
          form := defaults;
          editing := None;
          dialogOpen := false;
          refetches := refetches + 1;
        case Refused(error) =>
          toasts := toasts + ["Error: " + Or(error, "Failed to " + action + " shipment")];
        case ThrewError(message) =>
          toasts := toasts + ["Error: " + message];
        case ThrewOther =>
          toasts := toasts + ["Error: Something went wrong"];
      }
      isLoading := false;
    }

    /** `handleDelete`: nothing is sent unless the user confirms. */
    method HandleDelete(id: string, confirmed: bool, reply: DeleteReply) returns (sent: Option<Request>)
      modifies this`toasts, this`refetches
      ensures sent.Some? <==> confirmed
      ensures confirmed ==> sent.value == Request("DELETE", "/api/shipments/" + id)
      ensures !confirmed ==> toasts == old(toasts) && refetches == old(refetches)
      ensures confirmed && reply.Deleted? ==>
                toasts == old(toasts) + ["Shipment deleted successfully"] && refetches == old(refetches) + 1
      ensures confirmed && reply.NotDeleted? ==>
                toasts == old(toasts) + ["Failed to delete shipment"] && refetches == old(refetches)
      ensures confirmed && reply.DeleteThrew? ==>
                toasts == old(toasts) + ["Error deleting shipment"] && refetches == old(refetches)
    {
      if !confirmed {
        return None;
      }
      sent := Some(Request("DELETE", "/api/shipments/" + id));
      match reply {
        case Deleted =>
          toasts := toasts + ["Shipment deleted successfully"];
          refetches := refetches + 1;
        case NotDeleted =>
          toasts := toasts + ["Failed to delete shipment"];
        case DeleteThrew =>
          toasts := toasts + ["Error deleting shipment"];
      }
    }
  }
}
