/** The `Warehouse` collection's schema. */
module WarehouseModel {
  import opened Wrappers
  import opened Text
  import opened Failures

  datatype Warehouse = Warehouse(id: ObjectId, name: string, location: string, capacity: int,
                                 currentCapacity: int, createdAt: int, updatedAt: int)

  predicate Valid(w: Warehouse) {
    w.name != [] && w.location != []
  }

  datatype WarehouseInput = WarehouseInput(name: Option<string>, location: Option<string>,
                                           capacity: Option<int>, currentCapacity: Option<int>)

  const DefaultCurrentCapacity: int := 0

  /** What `Warehouse.create` stores for `input`, or its validation error:
      name, location and capacity are required, currentCapacity defaults to 0. */
  function Build(input: WarehouseInput, id: ObjectId, now: int): (r: Result<Warehouse, Failure>)
    ensures r.Success? <==> Filled(input.name) && Filled(input.location) && input.capacity.Some?
    ensures r.Success? ==> Valid(r.value) && r.value.id == id
                           && r.value.name == input.name.value && r.value.location == input.location.value
                           && r.value.capacity == input.capacity.value
                           && r.value.currentCapacity == input.currentCapacity.GetOr(DefaultCurrentCapacity)
                           && r.value.createdAt == now && r.value.updatedAt == now
    ensures r.Failure? ==> r.error.Thrown? && r.error.name == ValidationError
  {
    if !Filled(input.name) then Failure(Invalid("name"))
    else if !Filled(input.location) then Failure(Invalid("location"))
    else if input.capacity.None? then Failure(Invalid("capacity"))
    else Success(Warehouse(id, input.name.value, input.location.value, input.capacity.value,
                           input.currentCapacity.GetOr(DefaultCurrentCapacity), now, now))
  }

  /** The schema puts no bound on the load: any capacity and any current
      load, one beyond the capacity or below zero included, are stored as
      given. */
  lemma CapacityNotEnforced(name: string, location: string, capacity: int, load: int, id: ObjectId, now: int)
    requires name != [] && location != []
    ensures var r := Build(WarehouseInput(Some(name), Some(location), Some(capacity), Some(load)), id, now);
            r.Success? && r.value.capacity == capacity && r.value.currentCapacity == load
  {
  }
}
