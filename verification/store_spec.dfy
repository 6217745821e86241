/**
 * What the three resource stores (applications, candidates, job offers) have
 * in common: the error text a failed call records, and the collection
 * rewrites their successful calls perform, with the properties proved once
 * for every entity type.
 */
module StoreSpec {
  import opened Wrappers
  import opened Seqs

  /** The text recorded when the thrown value is not an `Error`. */
  const DefaultError: string := "Une erreur est survenue"

  /** `error instanceof Error ? error.message : 'Une erreur est survenue'`. */
  function ErrorText(message: Option<string>): string
  {
    if message.Some? then message.value else DefaultError
  }

  /** The predicate `x => x.id !== id`. */
  function KeyIsNot<T>(key: T -> string, id: string): T -> bool
  {
    (x: T) => key(x) != id
  }

  /** `items.filter(x => x.id !== id)`: what a successful remove leaves. */
  function Removed<T>(items: seq<T>, key: T -> string, id: string): seq<T>
  {
    Filter(items, KeyIsNot(key, id))
  }

  /**
   * Remove deletes every item with the id, keeps every other item, keeps the
   * survivors in their order, and leaves the list as it was when the id is absent.
   */
  lemma RemovedSpec<T>(items: seq<T>, key: T -> string, id: string)
    ensures forall x :: x in Removed(items, key, id) <==> x in items && key(x) != id
    ensures forall x :: multiset(Removed(items, key, id))[x] == if key(x) != id then multiset(items)[x] else 0
    ensures IsSubsequence(Removed(items, key, id), items)
    ensures (forall x :: x in items ==> key(x) != id) ==> Removed(items, key, id) == items
  {
    FilterMembers(items, KeyIsNot(key, id));
    FilterMultiset(items, KeyIsNot(key, id));
    FilterIsSubsequence(items, KeyIsNot(key, id));
    if forall x :: x in items ==> key(x) != id {
      FilterKeepsAll(items, KeyIsNot(key, id));
    }
  }

  /** Removing the same id twice is removing it once. */
  lemma RemovedIdempotent<T>(items: seq<T>, key: T -> string, id: string)
    ensures Removed(Removed(items, key, id), key, id) == Removed(items, key, id)
  {
    FilterIdempotent(items, KeyIsNot(key, id));
  }

  /**
   * An update rewrites exactly the items with the id: the length is kept,
   * every other item is untouched, and an absent id changes nothing.
   */
  lemma {:induction false} UpdatedSpec<T>(items: seq<T>, key: T -> string, id: string, f: T -> T)
    ensures |UpdateWhere(items, key, id, f)| == |items|
    ensures forall i :: 0 <= i < |items| && key(items[i]) != id ==> UpdateWhere(items, key, id, f)[i] == items[i]
    ensures forall i :: 0 <= i < |items| && key(items[i]) == id ==> UpdateWhere(items, key, id, f)[i] == f(items[i])
    ensures (forall x :: x in items ==> key(x) != id) ==> UpdateWhere(items, key, id, f) == items
  {
  }
}
