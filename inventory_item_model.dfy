/** The `InventoryItem` collection's schema. */
module InventoryItemModel {
  import opened Wrappers
  import opened Text
  import opened Failures

  datatype InventoryItem = InventoryItem(id: ObjectId, name: string, quantity: int, threshold: int,
                                         warehouse: ObjectId, createdAt: int, updatedAt: int)

  predicate Valid(item: InventoryItem) {
    item.name != []
  }

  datatype ItemInput = ItemInput(name: Option<string>, quantity: Option<int>, threshold: Option<int>,
                                 warehouse: Option<ObjectId>)

  const DefaultQuantity: int := 0
  const DefaultThreshold: int := 10

  /** What `InventoryItem.create` stores for `input`, or its validation error:
      name and warehouse are required, quantity defaults to 0 and threshold to
      10, and no bound relates or restricts the two numbers. */
  function Build(input: ItemInput, id: ObjectId, now: int): (r: Result<InventoryItem, Failure>)
    ensures r.Success? <==> Filled(input.name) && input.warehouse.Some?
    ensures r.Success? ==> Valid(r.value) && r.value.id == id && r.value.name == input.name.value
                           && r.value.quantity == input.quantity.GetOr(DefaultQuantity)
                           && r.value.threshold == input.threshold.GetOr(DefaultThreshold)
                           && r.value.warehouse == input.warehouse.value
                           && r.value.createdAt == now && r.value.updatedAt == now
    ensures r.Failure? ==> r.error.Thrown? && r.error.name == ValidationError
  {
    if !Filled(input.name) then Failure(Invalid("name"))
    else if input.warehouse.None? then Failure(Invalid("warehouse"))
    else Success(InventoryItem(id, input.name.value, input.quantity.GetOr(DefaultQuantity),
                               input.threshold.GetOr(DefaultThreshold), input.warehouse.value, now, now))
  }
}
