/**
  The session-id allocator `get_id` / `get_id_with_count` of
  server/src/connections/manager.rs.

  Each call of the random generator is one element of `draws`: the i-th
  attempt uses `draws[i]`. The ids already handed out are the static `IDS`;
  in the source it is an empty vector that nothing ever writes, modelled by
  the constant `IDS` below. `GetIdWithCount` takes it as a parameter so that
  its contract can say what the retry loop would do with a non-empty list.
*/
module IdAllocator {
  import opened Messages

  newtype u8 = x: int | 0 <= x < 0x100

  /** Attempts allowed before the allocator panics. */
  const RetryLimit: u8 := 100

  /** The static `IDS`: empty, and never written. */
  const IDS: seq<u32> := []

  /** `Exhausted` is the panic raised once the retry limit is reached. */
  datatype IdOutcome = Drawn(id: u32) | Exhausted

  /**
    Attempt number `iteration` draws `draws[0]`; a draw found in `ids` is
    retried with the next draw. The result is the first draw not in `ids`
    among the attempts left before the limit, or the panic when every one of
    them collides.
  */
  function GetIdWithCount(ids: seq<u32>, iteration: u8, draws: seq<u32>): (r: IdOutcome)
    requires |draws| >= RetryLimit as int - iteration as int
    ensures r.Exhausted? <==>
      forall j :: 0 <= j < RetryLimit as int - iteration as int ==> draws[j] in ids
    ensures r.Drawn? ==> r.id !in ids
    ensures r.Drawn? ==>
      exists k :: 0 <= k < RetryLimit as int - iteration as int && draws[k] == r.id &&
        forall j :: 0 <= j < k ==> draws[j] in ids
    decreases RetryLimit as int - iteration as int
  {
    if iteration >= RetryLimit then
      Exhausted
    else if draws[0] in ids then
      var r := GetIdWithCount(ids, iteration + 1, draws[1..]);
      assert forall j :: 0 <= j < |draws| - 1 ==> draws[1..][j] == draws[j + 1];
      r
    else
      Drawn(draws[0])
  }

  /**
    `get_id`: because `IDS` is empty, the first draw is always accepted and
    the allocator never panics. Nothing checks the id against the sessions
    that are alive.
  */
  function GetId(draws: seq<u32>): (r: IdOutcome)
    requires |draws| >= RetryLimit as int
    ensures r == Drawn(draws[0])
  {
    GetIdWithCount(IDS, 0, draws)
  }
}
