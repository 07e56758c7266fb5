/** The wait callback of a distributed execute or cleanup: one answer made of
    the replies of all the pipelines. */
module FanOut {
  import opened Words

  /** A RequestResult<int32_t>. */
  datatype Reply = Reply(success: bool, value: int)

  datatype Result = Value(value: int) | Thrown(code: int)

  /** `initial` is what the value field of a default-constructed result holds:
      the program never sets it. */
  method Collect(replies: seq<Reply>, initial: int) returns (result: Result)
    ensures result.Value? <==> forall i :: 0 <= i < |replies| ==> replies[i].success
    ensures result.Value? ==> result.value == initial
    ensures result.Thrown? ==> exists i :: IsLastFailure(replies, i) && result.code == replies[i].value
  {
    var response := Reply(true, initial);
    for i := 0 to |replies|
      invariant response.success <==> forall j :: 0 <= j < i ==> replies[j].success
      invariant response.success ==> response.value == initial
      invariant !response.success ==>
                  exists j :: IsLastFailure(replies[..i], j) && response == replies[j]
    {
      if response.success || replies[i].success {
        assert forall j :: 0 <= j < i ==> replies[..i + 1][j] == replies[..i][j];
      }
      if !replies[i].success {
        response := replies[i];
        assert IsLastFailure(replies[..i + 1], i);
      } else if !response.success {
        ghost var j :| IsLastFailure(replies[..i], j) && response == replies[j];
        assert IsLastFailure(replies[..i + 1], j);
      }
    }
    assert replies[..|replies|] == replies;
    result := if response.success then Value(response.value) else Thrown(response.value);
  }

  ghost predicate IsLastFailure(replies: seq<Reply>, i: int) {
    0 <= i < |replies| && !replies[i].success && forall j :: i < j < |replies| ==> replies[j].success
  }
}
