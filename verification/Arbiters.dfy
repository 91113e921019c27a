/** The round-robin arbiter (switch policy `SP_CE`) used by the multiplexer's choosers and by the crossbar. */
module Arbiters {

  function Next(i: nat, n: nat): (r: nat)
    requires i < n
    ensures r < n
  {
    if i + 1 == n then 0 else i + 1
  }

  /** First requester among the `left` positions from `i` on, cyclically; `|requests|` when there is none. */
  function Scan(requests: seq<bool>, i: nat, left: nat): (r: nat)
    requires i < |requests|
    ensures r <= |requests| && (r < |requests| ==> requests[r])
    decreases left
  {
    if left == 0 then |requests|
    else if requests[i] then i
    else Scan(requests, Next(i, |requests|), left - 1)
  }

  /** The next grant: the first other requester after the current one, which keeps the grant when there is none. */
  function NextGrant(requests: seq<bool>, grant: nat): (r: nat)
    requires grant < |requests|
    ensures r < |requests|
    ensures r == grant || requests[r]
  {
    var r := Scan(requests, Next(grant, |requests|), |requests| - 1);
    if r < |requests| then r else grant
  }

  lemma {:induction false} ScanNone(requests: seq<bool>, i: nat, left: nat, j: nat)
    requires i < |requests| && left <= |requests| && j < |requests|
    requires Scan(requests, i, left) == |requests|
    requires i <= j < i + left || j + |requests| < i + left
    ensures !requests[j]
    decreases left
  {
    if i != j {
      ScanNone(requests, Next(i, |requests|), left - 1, j);
    }
  }

  /** If anyone requests, whoever holds the grant next requests. */
  lemma GrantsRequester(requests: seq<bool>, grant: nat, j: nat)
    requires grant < |requests| && j < |requests| && requests[j]
    ensures requests[NextGrant(requests, grant)]
  {
    var n := |requests|;
    if Scan(requests, Next(grant, n), n - 1) == n && j != grant {
      ScanNone(requests, Next(grant, n), n - 1, j);
    }
  }
}
