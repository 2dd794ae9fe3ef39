/**
 * The demonstration item store: a list of item records and a counter that
 * hands out ids, with lookup, partial update and delete of the first record
 * carrying an id.
 */
module Sample {
  import opened Wrappers
  import opened Text

  /**
   * A stored record. `price` is kept in cents. A partial update may write
   * `None` into any field it names, so every field but `id` and `createdAt`
   * is optional here.
   */
  datatype StoredItem = StoredItem(
    id: int, name: Option<string>, description: Option<string>, price: Option<int>,
    isAvailable: Option<bool>, createdAt: int)

  /** The body of a create request. */
  datatype ItemCreate = ItemCreate(name: string, description: Option<string>, price: int, isAvailable: bool)

  /** A field of an update request: left unset, or given a value (which may be `None`). */
  datatype Patch<T> = Unset | Given(value: T)

  /** The body of an update request. */
  datatype ItemUpdate = ItemUpdate(
    name: Patch<Option<string>>, description: Patch<Option<string>>, price: Patch<Option<int>>,
    isAvailable: Patch<Option<bool>>)

  datatype HttpError = HttpError(statusCode: int, detail: string)

  const NOT_FOUND: HttpError := HttpError(404, "Item not found")

  function Apply<T>(old_: T, p: Patch<T>): T
  {
    if p.Given? then p.value else old_
  }

  /** The record after an update: the fields the request sets are overwritten, the others kept. */
  function Updated(it: StoredItem, u: ItemUpdate): (r: StoredItem)
    ensures r.id == it.id && r.createdAt == it.createdAt
    ensures u.name.Unset? ==> r.name == it.name
    ensures u.name.Given? ==> r.name == u.name.value
    ensures u.description.Unset? ==> r.description == it.description
    ensures u.description.Given? ==> r.description == u.description.value
    ensures u.price.Unset? ==> r.price == it.price
    ensures u.price.Given? ==> r.price == u.price.value
    ensures u.isAvailable.Unset? ==> r.isAvailable == it.isAvailable
    ensures u.isAvailable.Given? ==> r.isAvailable == u.isAvailable.value
  {
    it.(name := Apply(it.name, u.name), description := Apply(it.description, u.description),
        price := Apply(it.price, u.price), isAvailable := Apply(it.isAvailable, u.isAvailable))
  }

  /** An update that sets nothing leaves the record as it was. */
  lemma EmptyUpdateKeeps(it: StoredItem)
    ensures Updated(it, ItemUpdate(Unset, Unset, Unset, Unset)) == it
  {
  }

  /** The record `create_item` stores for a request under a given id. */
  function NewItem(id: int, c: ItemCreate, now: int): StoredItem
  {
    StoredItem(id, Some(c.name), c.description, Some(c.price), Some(c.isAvailable), now)
  }

  /** The position of the first record with `id`, if any. */
  function FirstIndexOf(items: seq<StoredItem>, id: int): (r: Option<nat>)
    ensures r.Some? ==> r.value < |items| && items[r.value].id == id
                        && forall j :: 0 <= j < r.value ==> items[j].id != id
    ensures r.None? <==> forall j :: 0 <= j < |items| ==> items[j].id != id
  {
    if |items| == 0 then None
    else if items[0].id == id then Some(0)
    else
      var r := FirstIndexOf(items[1..], id);
      if r.None? then None else Some(r.value + 1)
  }

  /** Ids strictly increase along the list and never exceed the counter. */
  predicate IdsOrdered(items: seq<StoredItem>, counter: int)
  {
    (forall i, j :: 0 <= i < j < |items| ==> items[i].id < items[j].id)
    && (forall i :: 0 <= i < |items| ==> items[i].id <= counter)
  }

  /** With ordered ids, every id names at most one record. */
  lemma OrderedIdsUnique(items: seq<StoredItem>, counter: int, i: nat, j: nat)
    requires IdsOrdered(items, counter)
    requires i < |items| && j < |items| && items[i].id == items[j].id
    ensures i == j
  {
  }

  /** Removing one record keeps the ids ordered. */
  lemma RemovePreservesOrder(items: seq<StoredItem>, counter: int, k: nat)
    requires IdsOrdered(items, counter) && k < |items|
    ensures IdsOrdered(items[..k] + items[k + 1..], counter)
  {
    var rest := items[..k] + items[k + 1..];
    forall i, j | 0 <= i < j < |rest| ensures rest[i].id < rest[j].id {
      var i' := if i < k then i else i + 1;
      var j' := if j < k then j else j + 1;
      assert rest[i] == items[i'] && rest[j] == items[j'];
    }
    forall i | 0 <= i < |rest| ensures rest[i].id <= counter {
      assert rest[i] == items[if i < k then i else i + 1];
    }
  }

  /** The three records the seed endpoint adds, prices in cents. */
  function SampleItems(): (r: seq<ItemCreate>)
    ensures |r| == 3
  {
    [ItemCreate("Laptop", Some("High-performance laptop for development"), 129999, true),
     ItemCreate("Mouse", Some("Wireless optical mouse"), 2999, true),
     ItemCreate("Keyboard", Some("Mechanical keyboard with RGB lighting"), 14999, false)]
  }

  /** The in-memory store: the module-level list and counter of the router. */
  class ItemStore {
    var items: seq<StoredItem>
    var counter: int

    ghost predicate Valid()
      reads this
    {
      IdsOrdered(items, counter)
    }

    /** The store as the module starts it: empty, with the counter at 0. */
    constructor ()
      ensures items == [] && counter == 0 && Valid()
    {
      items := [];
      counter := 0;
    }

    /** `get_items`: the list itself, in insertion order. */
    function GetItems(): (r: seq<StoredItem>)
      reads this
      ensures |r| == |items| && forall k :: 0 <= k < |r| ==> r[k] == items[k]
    {
      items
    }

    /** `get_item`: the first record with the id, or 404. */
    method GetItem(id: int) returns (r: Result<StoredItem, HttpError>)
      ensures r.Failure? <==> forall j :: 0 <= j < |items| ==> items[j].id != id
      ensures r.Failure? ==> r.error == NOT_FOUND
      ensures r.Success? ==> FirstIndexOf(items, id).Some? && r.value == items[FirstIndexOf(items, id).value]
    {
      for i := 0 to |items|
        invariant forall j :: 0 <= j < i ==> items[j].id != id
      {
        if items[i].id == id {
          return Success(items[i]);
        }
      }
      return Failure(NOT_FOUND);
    }

    /** `create_item`: the counter moves on by one and the new record, carrying it as id, goes last. */
    method CreateItem(c: ItemCreate, now: int) returns (created: StoredItem)
      requires Valid()
      modifies this
      ensures Valid()
      ensures counter == old(counter) + 1
      ensures created == NewItem(counter, c, now)
      ensures items == old(items) + [created]
      ensures forall j :: 0 <= j < |old(items)| ==> old(items)[j].id < created.id
    {
      counter := counter + 1;
      created := NewItem(counter, c, now);
      items := items + [created];
    }

    /** `update_item`: overwrites only the given fields of the first record with the id; 404 when there is none. */
    method UpdateItem(id: int, u: ItemUpdate) returns (r: Result<StoredItem, HttpError>)
      requires Valid()
      modifies this
      ensures Valid() && counter == old(counter)
      ensures FirstIndexOf(old(items), id).None? ==> r == Failure(NOT_FOUND) && items == old(items)
      ensures FirstIndexOf(old(items), id).Some? ==>
                var k := FirstIndexOf(old(items), id).value;
                items == old(items)[k := Updated(old(items)[k], u)] && r == Success(items[k])
    {
      for i := 0 to |items|
        invariant forall j :: 0 <= j < i ==> items[j].id != id
        invariant items == old(items)
      {
        if items[i].id == id {
          items := items[i := Updated(items[i], u)];
          assert items[i].id == old(items)[i].id;
          return Success(items[i]);
        }
      }
      return Failure(NOT_FOUND);
    }

    /** `delete_item`: removes the first record with the id, keeping the others in order; 404 when there is none. */
    method DeleteItem(id: int) returns (r: Result<string, HttpError>)
      requires Valid()
      modifies this
      ensures Valid() && counter == old(counter)
      ensures FirstIndexOf(old(items), id).None? ==> r == Failure(NOT_FOUND) && items == old(items)
      ensures FirstIndexOf(old(items), id).Some? ==>
                var k := FirstIndexOf(old(items), id).value;
                items == old(items)[..k] + old(items)[k + 1..]
                && r == Success("Item '" + ShowName(old(items)[k].name) + "' deleted successfully")
    {
      for i := 0 to |items|
        invariant forall j :: 0 <= j < i ==> items[j].id != id
        invariant items == old(items)
      {
        if items[i].id == id {
          var deleted := items[i];
          RemovePreservesOrder(items, counter, i);
          items := items[..i] + items[i + 1..];
          return Success("Item '" + ShowName(deleted.name) + "' deleted successfully");
        }
      }
      return Failure(NOT_FOUND);
    }

    /** `seed_sample_data`: appends the three sample records under the next three ids. */
    method SeedSampleData(now: int) returns (created: seq<StoredItem>, message: string)
      requires Valid()
      modifies this
      ensures Valid()
      ensures counter == old(counter) + 3
      ensures |created| == 3 && items == old(items) + created
      ensures forall k :: 0 <= k < 3 ==> created[k] == NewItem(old(counter) + k + 1, SampleItems()[k], now)
      ensures message == "Created 3 sample items"
    {
      var samples := SampleItems();
      created := [];
      for i := 0 to |samples|
        invariant Valid()
        invariant counter == old(counter) + i && |created| == i
        invariant items == old(items) + created
        invariant forall k :: 0 <= k < i ==> created[k] == NewItem(old(counter) + k + 1, samples[k], now)
      {
        counter := counter + 1;
        var item := NewItem(counter, samples[i], now);
        items := items + [item];
        created := created + [item];
      }
      message := "Created " + IntToString(|created|) + " sample items";
      assert IntToString(3) == "3";
    }
  }

  /** Python's rendering of a stored name inside the message. */
  function ShowName(n: Option<string>): string
  {
    if n.Some? then n.value else "None"
  }

  /** Creating twice hands out consecutive ids, the later one larger, and keeps them unique. */
  lemma CreatedIdsIncrease(items: seq<StoredItem>, counter: int, c1: ItemCreate, c2: ItemCreate, now: int)
    requires IdsOrdered(items, counter)
    ensures var a := NewItem(counter + 1, c1, now);
            var b := NewItem(counter + 2, c2, now);
            IdsOrdered(items + [a] + [b], counter + 2) && a.id < b.id
  {
  }
}
