/** The root app's Inventory page: the add-item form and its schema, the
    warehouse list fetch with its error messages, and the stock badge. */
module InventoryPage {
  import opened Wrappers
  import opened Text
  import opened Failures
  import InventoryItemModel
  import InventoryRoute

  /** The form's values; the number inputs hold `Number(e.target.value)`. */
  datatype ItemForm = ItemForm(name: string, quantity: int, threshold: int, warehouse: string)

  function Flag(path: string, ok: bool): seq<string> {
    if ok then [] else [path]
  }

  /** The paths `itemSchema` rejects, in declaration order. */
  function Issues(d: ItemForm): seq<string> {
    Flag("name", d.name != []) + Flag("quantity", d.quantity >= 0)
    + Flag("threshold", d.threshold >= 1) + Flag("warehouse", d.warehouse != [])
  }

  predicate Accepts(d: ItemForm) {
    Issues(d) == []
  }

  lemma AcceptsMeaning(d: ItemForm)
    ensures Accepts(d) <==> d.name != [] && d.quantity >= 0 && d.threshold >= 1 && d.warehouse != []
    ensures "threshold" in Issues(d) <==> d.threshold < 1
  {
  }

  /** `defaultValues` */
  const Defaults := ItemForm("", 0, 10, "")

  /** The default numbers pass; only the name and warehouse need filling. */
  lemma DefaultsIssues()
    ensures Issues(Defaults) == ["name", "warehouse"]
  {
  }

  /** `JSON.stringify(data)` as the server reads it; `idOf` is the id the
      chosen `<option>` value names. */
  function Payload(d: ItemForm, idOf: string -> ObjectId): (b: InventoryItemModel.ItemInput)
    ensures b.name == Some(d.name) && b.quantity == Some(d.quantity) && b.threshold == Some(d.threshold)
    ensures b.warehouse.Some? <==> d.warehouse != []
  {
    InventoryItemModel.ItemInput(Some(d.name), Some(d.quantity), Some(d.threshold),
                                 if d.warehouse == [] then None else Some(idOf(d.warehouse)))
  }

  /** An accepted form passes the server's warehouse check and its schema,
      and is stored with the typed numbers, so a stored item from this form
      has a non-negative quantity and a positive threshold. */
  lemma AcceptedFormIsStored(d: ItemForm, idOf: string -> ObjectId, id: ObjectId, now: int)
    requires Accepts(d)
    ensures Payload(d, idOf).warehouse.Some?
    ensures var r := InventoryItemModel.Build(Payload(d, idOf), id, now);
            r.Success? && r.value.name == d.name && r.value.quantity == d.quantity
            && r.value.threshold == d.threshold && r.value.quantity >= 0 && r.value.threshold >= 1
  {
    AcceptsMeaning(d);
  }

  /** Decimal digits of `n`, as template literals print a status code. */
  function DecimalString(n: nat): (s: string)
    ensures s != [] && forall i :: 0 <= i < |s| ==> '0' <= s[i] <= '9'
  {
    if n < 10 then ["0123456789"[n]] else DecimalString(n / 10) + ["0123456789"[n % 10]]
  }

  /** The number a string of decimal digits denotes. */
  function DecimalValue(s: string): nat
    requires forall i :: 0 <= i < |s| ==> '0' <= s[i] <= '9'
  {
    if s == [] then 0
    else 10 * DecimalValue(s[..|s| - 1]) + (s[|s| - 1] as int - '0' as int)
  }

  /** The printed status reads back as the status, so distinct statuses print
      differently. */
  lemma {:induction false} DecimalRoundTrip(n: nat)
    ensures DecimalValue(DecimalString(n)) == n
  {
    var s := DecimalString(n);
    if n >= 10 {
      DecimalRoundTrip(n / 10);
      assert s[..|s| - 1] == DecimalString(n / 10);
    }
  }

  /** The message `fetchWarehouses` throws for a non-ok answer. */
  function WarehouseFetchError(status: nat, statusText: string): string {
    if status == 401 then "Authentication failed. Please log in again."
    else if status == 403 then "Access denied. Insufficient permissions."
    else "Failed to fetch warehouses: " + DecimalString(status) + " " + statusText
  }

  /** The three kinds of failure read differently. */
  lemma WarehouseErrorsDiffer(status: nat, statusText: string)
    ensures WarehouseFetchError(401, statusText) != WarehouseFetchError(403, statusText)
    ensures status != 401 && status != 403 ==>
              WarehouseFetchError(status, statusText) != WarehouseFetchError(401, statusText)
              && WarehouseFetchError(status, statusText) != WarehouseFetchError(403, statusText)
  {
    var m := WarehouseFetchError(status, statusText);
    if status != 401 && status != 403 {
      assert m[0] == 'F';
    }
  }

  /** The row badge. */
  function StockBadge(lowStock: bool): string {
    if lowStock then "Low Stock" else "In Stock"
  }

  /** With the list the inventory GET sends, a row reads "Low Stock" exactly
      when its quantity is below its threshold. */
  lemma BadgeFollowsStock(items: seq<InventoryItemModel.InventoryItem>, i: nat)
    requires i < |items|
    ensures StockBadge(InventoryRoute.WithAlerts(items)[i].lowStock) == "Low Stock"
            <==> items[i].quantity < items[i].threshold
  {
  }

  datatype WarehouseRow = WarehouseRow(id: string, name: string, location: string)

  /** The answer to `fetch("/api/warehouses")`: a list, a non-ok status, or
      an exception's message. */
  datatype WarehousesReply = Listed(data: seq<WarehouseRow>) | NotOk(status: nat, statusText: string)
                           | FetchThrew(message: string)

  /** A non-ok answer to the add: its body's `error` field when the body is
      JSON, `NotJson` when it is not. */
  datatype ErrorField = NotJson | ErrorText(error: Option<string>)

  datatype AddReply = Added | AddRefused(status: nat, statusText: string, body: ErrorField) | AddThrew(message: string)

  /** The message the add throws for a refused request. */
  function AddError(status: nat, statusText: string, body: ErrorField): string {
    match body
    case NotJson => "Unknown error"
    case ErrorText(error) => Or(error, "HTTP " + DecimalString(status) + ": " + statusText)
  }

  class Page {
    var warehouses: seq<WarehouseRow>
    var form: ItemForm
    var loading: bool
    var isModalOpen: bool
    var toasts: seq<string>
    /** Calls of `fetchItems` after mount. */
    var refetches: nat

    constructor()
      ensures warehouses == [] && form == Defaults && !loading && !isModalOpen && toasts == [] && refetches == 0
    {
      warehouses := [];
      form := Defaults;
      loading := false;
      isModalOpen := false;
      toasts := [];
      refetches := 0;
    }

    /** `fetchWarehouses` */
    method FetchWarehouses(reply: WarehousesReply)
      modifies this`warehouses, this`toasts
      ensures reply.Listed? ==> warehouses == reply.data && toasts == old(toasts)
      ensures reply.NotOk? ==> warehouses == old(warehouses)
                               && toasts == old(toasts) + ["Error fetching warehouses: " + WarehouseFetchError(reply.status, reply.statusText)]
      ensures reply.FetchThrew? ==> warehouses == old(warehouses)
                                    && toasts == old(toasts) + ["Error fetching warehouses: " + reply.message]
    {
      match reply {
        case Listed(data) =>
          warehouses := data;
        case NotOk(status, statusText) =>
          toasts := toasts + ["Error fetching warehouses: " + WarehouseFetchError(status, statusText)];
        case FetchThrew(message) =>
          toasts := toasts + ["Error fetching warehouses: " + message];
      }
    }

    /** `form.handleSubmit(onSubmit)`: only an accepted form is sent; success
        resets the form, refetches and closes the dialog, failure leaves it
        open; `loading` ends false either way. */
    method Submit(data: ItemForm, idOf: string -> ObjectId, reply: AddReply)
      returns (sent: Option<InventoryItemModel.ItemInput>)
      modifies this`form, this`loading, this`isModalOpen, this`toasts, this`refetches
      ensures sent.Some? <==> Accepts(data)
      ensures sent.Some? ==> sent.value == Payload(data, idOf) && !loading
      ensures sent.None? ==> form == old(form) && loading == old(loading) && isModalOpen == old(isModalOpen)
                             && toasts == old(toasts) && refetches == old(refetches)
      ensures sent.Some? && reply.Added? ==>
                form == Defaults && !isModalOpen && refetches == old(refetches) + 1
                && toasts == old(toasts) + [data.name + " added successfully"]
      ensures sent.Some? && reply.AddRefused? ==>
                form == old(form) && isModalOpen == old(isModalOpen) && refetches == old(refetches)
                && toasts == old(toasts) + ["Error: " + AddError(reply.status, reply.statusText, reply.body)]
      ensures sent.Some? && reply.AddThrew? ==>
                form == old(form) && isModalOpen == old(isModalOpen) && refetches == old(refetches)
                && toasts == old(toasts) + ["Error: " + reply.message]
    {
      if !Accepts(data) {
        return None;
      }
      loading := true;
      sent := Some(Payload(data, idOf));
      match reply {
        case Added =>
          toasts := toasts + [data.name + " added successfully"];
          form := Defaults;
          refetches := refetches + 1;
          isModalOpen := false;
        case AddRefused(status, statusText, body) =>
          toasts := toasts + ["Error: " + AddError(status, statusText, body)];
        case AddThrew(message) =>
          toasts := toasts + ["Error: " + message];
      }
      loading := false;
    }
  }
}
