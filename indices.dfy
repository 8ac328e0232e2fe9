/** Index lists over the conversation buffer: where the user questions are, and where
    the turn that answers each of them ends. */
module Indices {
  import opened Messages

  predicate StrictlyIncreasing(s: seq<int>)
  {
    forall i, j :: 0 <= i < j < |s| ==> s[i] < s[j]
  }

  /** Positions of the user messages in a buffer, in the order a forward scan finds them. */
  function UserPositions(b: seq<Msg>): seq<nat>
  {
    if b == [] then []
    else UserPositions(b[..|b| - 1]) + (if IsUser(b[|b| - 1]) then [|b| - 1] else [])
  }

  /** The user positions are ascending and are exactly the positions whose role is user. */
  lemma {:induction false} UserPositionsExact(b: seq<Msg>)
    ensures StrictlyIncreasing(UserPositions(b))
    ensures forall k :: 0 <= k < |UserPositions(b)| ==> UserPositions(b)[k] < |b|
    ensures forall j :: 0 <= j < |b| ==> (IsUser(b[j]) <==> j in UserPositions(b))
  {
    if b != [] {
      var n := |b| - 1;
      var init := b[..n];
      var u := UserPositions(init);
      var last: seq<nat> := if IsUser(b[n]) then [n] else [];
      UserPositionsExact(init);
      assert UserPositions(b) == u + last;
      forall j | 0 <= j < |b|
        ensures IsUser(b[j]) <==> j in u + last
      {
        if j < n {
          assert init[j] == b[j];
        }
      }
    }
  }

  /** The forward scan of the buffer that collects the user positions. */
  method GetUserIdx(buffer: seq<Msg>) returns (result: seq<nat>)
    ensures result == UserPositions(buffer)
  {
    result := [];
    for i := 0 to |buffer|
      invariant result == UserPositions(buffer[..i])
    {
      assert buffer[..i + 1][..i] == buffer[..i];
      if IsUser(buffer[i]) {
        result := result + [i];
      }
    }
    assert buffer[..|buffer|] == buffer;
  }

  /** Python's `s[1:]`: everything after the first element, and nothing for an empty list. */
  function Tail(s: seq<int>): (r: seq<int>)
    ensures |r| == if s == [] then 0 else |s| - 1
    ensures forall k :: 0 <= k < |r| ==> r[k] == s[k + 1]
  {
    if s == [] then [] else s[1..]
  }

  function Decrement(s: seq<int>): (r: seq<int>)
    ensures |r| == |s| && forall k :: 0 <= k < |s| ==> r[k] == s[k] - 1
  {
    seq(|s|, k requires 0 <= k < |s| => s[k] - 1)
  }

  /** The turn-end positions: one before each user question after the first, and the
      last position of the buffer (-1 for an empty buffer). */
  function GetAssiIdx(userIdx: seq<int>, n: int): (r: seq<int>)
    ensures |r| == if |userIdx| <= 1 then 1 else |userIdx|
    ensures r[|r| - 1] == n - 1
    ensures forall j :: 0 <= j < |r| - 1 ==> r[j] == userIdx[j + 1] - 1
  {
    Decrement((if |userIdx| != 1 then Tail(userIdx) else []) + [n])
  }

  /** The single-question guard changes nothing: the tail of a one-element list is
      already empty. */
  lemma AssiGuardRedundant(userIdx: seq<int>, n: int)
    ensures GetAssiIdx(userIdx, n) == Decrement(Tail(userIdx) + [n])
  {
  }

  /** Over a buffer's own user positions, turn end j closes the turn of question j:
      it is at or after that question, no user message lies between the two, and the
      next question (if any) follows it directly. */
  lemma TurnEndClosesQuestion(b: seq<Msg>, j: nat)
    requires j < |UserPositions(b)|
    ensures UserPositions(b)[j] <= GetAssiIdx(UserPositions(b), |b|)[j] < |b|
    ensures forall p :: UserPositions(b)[j] < p <= GetAssiIdx(UserPositions(b), |b|)[j] ==> !IsUser(b[p])
    ensures j + 1 < |UserPositions(b)| ==> GetAssiIdx(UserPositions(b), |b|)[j] + 1 == UserPositions(b)[j + 1]
  {
    var u := UserPositions(b);
    var r := GetAssiIdx(u, |b|);
    UserPositionsExact(b);
    assert u[j] <= r[j] < |b| by {
      if j + 1 < |u| {
        assert u[j] < u[j + 1];
      }
    }
    forall p | u[j] < p <= r[j]
      ensures !IsUser(b[p])
    {
      forall m | 0 <= m < |u|
        ensures u[m] != p
      {
        if m < j {
          assert u[m] < u[j];
        } else if j + 1 < m {
          assert u[j + 1] < u[m];
        }
      }
    }
  }
}
