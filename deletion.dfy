/** Removing a deleted record from a list held in component state:
    `list.filter((x) => x._id !== id)`, for records of any kind. */
module Deletion {
  import opened Seqs

  /** `(x) => x._id !== id`. */
  function OtherThan<T>(idOf: T -> string, id: string): T -> bool {
    (x: T) => idOf(x) != id
  }

  /** The list after the delete. */
  function Without<T>(s: seq<T>, idOf: T -> string, id: string): seq<T> {
    Filter(s, OtherThan(idOf, id))
  }

  /** After a delete no record with that id is left, every other record is
      kept, and the records kept before an index stay before those kept
      after it. */
  lemma WithoutRemovesId<T>(s: seq<T>, idOf: T -> string, id: string, k: nat)
    requires k <= |s|
    ensures forall i :: 0 <= i < |Without(s, idOf, id)| ==> idOf(Without(s, idOf, id)[i]) != id
    ensures forall x :: x in s && idOf(x) != id ==> x in Without(s, idOf, id)
    ensures Without(s, idOf, id) == Without(s[..k], idOf, id) + Without(s[k..], idOf, id)
  {
    FilterSplit(s, OtherThan(idOf, id), k);
  }

  /** With ids unique, deleting the record at index `k` removes exactly that
      record and keeps the others in their order. */
  lemma WithoutOne<T>(s: seq<T>, idOf: T -> string, k: nat)
    requires k < |s|
    requires forall i, j :: 0 <= i < j < |s| ==> idOf(s[i]) != idOf(s[j])
    ensures Without(s, idOf, idOf(s[k])) == s[..k] + s[k + 1..]
  {
    FilterDropsOne(s, OtherThan(idOf, idOf(s[k])), k);
  }

  /** Deleting an id that is not there changes nothing, and deleting twice is
      deleting once. */
  lemma WithoutAbsentAndTwice<T>(s: seq<T>, idOf: T -> string, id: string)
    ensures (forall i :: 0 <= i < |s| ==> idOf(s[i]) != id) ==> Without(s, idOf, id) == s
    ensures Without(Without(s, idOf, id), idOf, id) == Without(s, idOf, id)
  {
    if forall i :: 0 <= i < |s| ==> idOf(s[i]) != id {
      FilterAll(s, OtherThan(idOf, id));
    }
    FilterIdempotent(s, OtherThan(idOf, id));
  }

  /** Two deletes whose handlers both captured `s` and whose answers overlap:
      the second answer filters `s` again, so the record the first one
      removed comes back. Had the second handler seen the first one's
      result, the record would stay gone. */
  lemma OverlappingDeletes<T>(s: seq<T>, idOf: T -> string, i: nat, j: nat)
    requires i < |s| && j < |s| && idOf(s[i]) != idOf(s[j])
    ensures s[i] in Without(s, idOf, idOf(s[j]))
    ensures s[i] !in Without(Without(s, idOf, idOf(s[i])), idOf, idOf(s[j]))
  {
  }
}
