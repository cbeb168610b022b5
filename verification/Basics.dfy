/** What everything shares: optional values, the scopes of the voice hierarchy, and how sequences are put together. */
module Basics {
  datatype Option<+T> = None | Some(value: T)

  /** The three hierarchy levels a transmission can address, lowest first. */
  datatype VoiceScope = Team | Specialization | Group

  const UINT64_SIZE: nat := 0x1_0000_0000_0000_0000

  lemma Regroup<T>(a: seq<T>, b: seq<T>, c: seq<T>)
    ensures a + (b + c) == a + b + c
  {}

  lemma TakeFirst<T>(sofar: seq<T>, more: seq<T>)
    requires more != []
    ensures sofar + [more[0]] + more[1..] == sofar + more
  {}
}
