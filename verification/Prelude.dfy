/** Small shared datatypes. */
module Prelude {
  datatype Option<+T> = None | Some(value: T)

  // How one call of save_storage ends.  An exception may come before or after the file
  // was replaced.
  datatype Save = Saved | NotWritten | WrittenButFailed

  // Where a message stands in one of the recovery records.
  datatype Status = Pending | Preparing | Sending | Sent | Failed | Unknown

  // There is always an id that nobody uses.
  lemma UnusedId(used: set<nat>) returns (id: nat)
    ensures id !in used
  {
    id := 0;
    var seen: set<nat> := {};
    while id in used
      invariant seen <= used && id !in seen && forall u <- seen :: u < id
      decreases |used - seen|
    {
      seen := seen + {id};
      id := id + 1;
    }
  }
}
