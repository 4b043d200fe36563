/** The list transforms behind the three list screens (medications,
    emergency contacts, appointments): a save either replaces the record
    being edited (`list.map(r => r.id === editingId ? saved : r)`) or appends
    a new one (`[...list, saved]`); a delete keeps every record whose id
    differs (`list.filter(r => r.id !== id)`). */
module RecordList {
  import opened Wrappers
  import opened Sequences
  import opened Entities

  /** JavaScript truthiness of `editingId`: null and "" are both false. */
  predicate Truthy(editingId: Option<string>)
  {
    editingId.Some? && editingId.value != ""
  }

  /** `editingId || Date.now().toString()`, the fresh id a parameter. */
  function SavedId(editingId: Option<string>, freshId: string): (id: string)
    ensures Truthy(editingId) ==> id == editingId.value
    ensures !Truthy(editingId) ==> id == freshId
  {
    if Truthy(editingId) then editingId.value else freshId
  }

  /** `list.map(r => r.id === id ? e : r)`: the length is kept, and every
      record of the result is the new one or a record of the list that does
      not carry the id. */
  function ReplaceById<F>(list: seq<Entry<F>>, id: string, e: Entry<F>): (r: seq<Entry<F>>)
    ensures |r| == |list|
    ensures forall x :: x in r ==> x == e || (x in list && x.id != id)
  {
    if list == [] then []
    else [if list[0].id == id then e else list[0]] + ReplaceById(list[1..], id, e)
  }

  /** Position by position, the replacement touches exactly the records
      carrying the id. */
  lemma {:induction false} ReplaceByIdAt<F>(list: seq<Entry<F>>, id: string, e: Entry<F>, i: nat)
    requires i < |list|
    ensures ReplaceById(list, id, e)[i] == if list[i].id == id then e else list[i]
  {
    if i > 0 {
      ReplaceByIdAt(list[1..], id, e, i - 1);
    }
  }

  /** Replacing an id no record carries changes nothing. */
  lemma {:induction false} ReplaceAbsent<F>(list: seq<Entry<F>>, id: string, e: Entry<F>)
    requires forall x :: x in list ==> x.id != id
    ensures ReplaceById(list, id, e) == list
  {
    if list != [] {
      assert forall x :: x in list[1..] ==> x in list;
      ReplaceAbsent(list[1..], id, e);
      assert list == [list[0]] + list[1..];
    }
  }

  /** The list a save produces: an edit replaces, an add appends. */
  function Upsert<F>(list: seq<Entry<F>>, editingId: Option<string>, e: Entry<F>): (r: seq<Entry<F>>)
    ensures !Truthy(editingId) ==> |r| == |list| + 1 && r[..|list|] == list && r[|list|] == e
    ensures Truthy(editingId) ==>
      && |r| == |list|
      && forall i :: 0 <= i < |list| ==> r[i] == if list[i].id == editingId.value then e else list[i]
    ensures Truthy(editingId) && e.id == editingId.value ==>
      forall i :: 0 <= i < |list| ==> r[i].id == list[i].id
  {
    if Truthy(editingId) then
      var r := ReplaceById(list, editingId.value, e);
      assert forall i :: 0 <= i < |list| ==> r[i] == if list[i].id == editingId.value then e else list[i] by {
        forall i | 0 <= i < |list| ensures r[i] == if list[i].id == editingId.value then e else list[i] {
          ReplaceByIdAt(list, editingId.value, e, i);
        }
      }
      r
    else
      list + [e]
  }

  /** `list.filter(r => r.id !== id)`. */
  function RemoveById<F>(list: seq<Entry<F>>, id: string): (r: seq<Entry<F>>)
    ensures forall x :: x in r ==> x in list && x.id != id
    ensures forall x :: x in list && x.id != id ==> x in r
  {
    Filter(list, (x: Entry<F>) => x.id != id)
  }

  /** Deleting an id no record carries leaves the list as it was. */
  lemma RemoveAbsent<F>(list: seq<Entry<F>>, id: string)
    requires forall x :: x in list ==> x.id != id
    ensures RemoveById(list, id) == list
  {
    FilterKeepsAll(list, (x: Entry<F>) => x.id != id);
  }

  /** Delete preserves the order of the records it keeps: deleting from a
      concatenation deletes from each part. */
  lemma RemoveKeepsOrder<F>(a: seq<Entry<F>>, b: seq<Entry<F>>, id: string)
    ensures RemoveById(a + b, id) == RemoveById(a, id) + RemoveById(b, id)
  {
    FilterAppend(a, b, (x: Entry<F>) => x.id != id);
  }

  /** Delete drops every copy of a record with the id and keeps every copy
      of every other record. */
  lemma RemoveCount<F>(list: seq<Entry<F>>, id: string, x: Entry<F>)
    ensures multiset(RemoveById(list, id))[x] == if x.id == id then 0 else multiset(list)[x]
  {
    FilterCount(list, (y: Entry<F>) => y.id != id, x);
  }

  /** Deleting twice is deleting once. */
  lemma RemoveIdempotent<F>(list: seq<Entry<F>>, id: string)
    ensures RemoveById(RemoveById(list, id), id) == RemoveById(list, id)
  {
    RemoveAbsent(RemoveById(list, id), id);
  }
}
