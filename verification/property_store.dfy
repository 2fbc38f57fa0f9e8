/**
 * The process-local property table behind `addProperty`: a record gets the
 * id "number of keys + 1", is stored under that id and is handed back. The
 * table is not the database; nothing here is persisted.
 */
module PropertyStore {
  import opened Wrappers

  /** A property record. Its `id` is absent until `addProperty` sets it. */
  class Property {
    var id: Option<nat>
    const details: map<string, string>

    constructor (details: map<string, string>)
      ensures this.details == details && id == None
    {
      this.details := details;
      id := None;
    }
  }

  /** The id the next insertion uses: the number of keys plus one. */
  function NextId<T>(store: map<nat, T>): (id: nat)
    ensures id >= 1 && (DenseKeys(store) ==> id !in store)
  {
    |store| + 1
  }

  /** The table after storing `record` under the next id (replacing whatever was there). */
  function Insert<T>(store: map<nat, T>, record: T): map<nat, T> {
    store[NextId(store) := record]
  }

  /** The table after inserting `records` one after the other. */
  function InsertAll<T>(store: map<nat, T>, records: seq<T>): map<nat, T>
    decreases |records|
  {
    if records == [] then store else InsertAll(Insert(store, records[0]), records[1..])
  }

  /** The keys are exactly 1 .. number of keys, as in a table filled only by insertions. */
  ghost predicate DenseKeys<T>(store: map<nat, T>) {
    forall k :: k in store <==> 1 <= k <= |store|
  }

  /** On a dense table the next id is unused, and the table stays dense with one more entry. */
  lemma InsertIntoDense<T>(store: map<nat, T>, record: T)
    requires DenseKeys(store)
    ensures NextId(store) !in store
    ensures |Insert(store, record)| == |store| + 1 && DenseKeys(Insert(store, record))
  {
  }

  /**
   * Inserting records one after the other into a dense table keeps every
   * existing entry and gives the i-th record the id |store| + 1 + i.
   */
  lemma {:induction false} InsertAllIntoDense<T>(store: map<nat, T>, records: seq<T>)
    requires DenseKeys(store)
    ensures var result := InsertAll(store, records);
      && DenseKeys(result) && |result| == |store| + |records|
      && (forall k :: k in store ==> result[k] == store[k])
      && (forall i :: 0 <= i < |records| ==> result[|store| + 1 + i] == records[i])
    decreases |records|
  {
    if records != [] {
      var next := Insert(store, records[0]);
      InsertIntoDense(store, records[0]);
      InsertAllIntoDense(next, records[1..]);
      var result := InsertAll(store, records);
      assert result == InsertAll(next, records[1..]);
      forall i | 0 <= i < |records|
        ensures result[|store| + 1 + i] == records[i]
      {
        if i > 0 {
          assert records[1..][i - 1] == records[i];
        }
      }
    }
  }

  /** Two insertions into an empty table give the ids 1 and 2. */
  lemma InsertTwiceIntoEmpty<T>(a: T, b: T)
    ensures Insert(Insert(map[], a), b) == map[1 := a, 2 := b]
  {
  }

  /**
   * On a table whose keys are not 1 .. n the next id can already be taken:
   * with only key 2 present, inserting replaces that entry and the table
   * does not grow.
   */
  lemma SparseTableCollision<T>(previous: T, record: T)
    requires previous != record
    ensures var store := map[2 := previous];
      && NextId(store) in store
      && |Insert(store, record)| == |store|
      && previous !in Insert(store, record).Values
  {
  }

  /** The table shared by all calls (`properties` in the data-access module). */
  class Listings {
    var properties: map<nat, Property>

    constructor (initial: map<nat, Property>)
      ensures properties == initial
    {
      properties := initial;
    }

    ghost predicate Dense()
      reads this
    {
      DenseKeys(properties)
    }

    /** Every stored record carries its own key as its id. */
    ghost predicate IdsMatchKeys()
      reads this, properties.Values
    {
      forall k :: k in properties ==> properties[k].id == Some(k)
    }

    /**
     * `addProperty(property)`: set the record's id to the number of keys plus
     * one, store the record under that id and return the same record.
     */
    method AddProperty(property: Property) returns (stored: Property)
      modifies this`properties, property`id
      ensures stored == property
      ensures property.id == Some(NextId(old(properties)))
      ensures properties == Insert(old(properties), property)
      ensures old(Dense()) ==> Dense() && |properties| == old(|properties|) + 1
      ensures old(IdsMatchKeys()) && property !in old(properties).Values ==> IdsMatchKeys()
    {
      var propertyId := |properties| + 1;
      property.id := Some(propertyId);
      properties := properties[propertyId := property];
      stored := property;
      if old(Dense()) {
        InsertIntoDense(old(properties), property);
      }
    }
  }
}
