/** Event ids: a default-constructed id is the one invalid value, every other
    one remembers the enum type it came from and its number. */
module EventIds {
  datatype EventId = NoEvent | EventId(kind: nat, number: nat)

  predicate IsValid(id: EventId) {
    id != NoEvent
  }

  predicate AllValid(ids: seq<EventId>) {
    forall id | id in ids :: IsValid(id)
  }
}
