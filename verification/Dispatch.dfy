/** How send_request spreads requests over the connections of a peer. */
module Dispatch {
  import opened Basics
  import opened FileGetModel

  /** `fileNames` requested from one peer, one after the other. */
  function SendAll(s: FileGetState, p: PeerId, fileNames: seq<string>): FileGetState
    decreases |fileNames|
  {
    if fileNames == [] then s else SendAll(SendRequest(s, p, fileNames[0]).0, p, fileNames[1..])
  }

  /** How many of the ids first, first + 1, ..., first + n - 1 leave remainder j modulo k. */
  function Share(first: nat, n: nat, k: nat, j: nat): nat
    requires k > 0
  {
    if n == 0 then 0 else Share(first, n - 1, k, j) + (if (first + n - 1) % k == j then 1 else 0)
  }

  /** Position of remainder j in a period of k ids that starts at `first`. */
  function Turn(first: nat, k: nat, j: nat): nat
    requires j < k
  {
    (j - first % k) % k
  }

  lemma LessTimes(a: int, b: int, k: nat)
    ensures a < b ==> a * k + k <= b * k
  {
    if a < b {
      var d: nat := b - a - 1;
      assert 0 <= d * k;
      assert b * k == (a + 1 + d) * k == a * k + k + d * k;
    }
  }

  lemma QuotientIs(x: int, q: int, k: nat)
    requires k > 0 && q * k <= x < q * k + k
    ensures x / k == q && x % k == x - q * k
  {
    assert x == (x / k) * k + x % k;
    LessTimes(x / k, q, k);
    LessTimes(q, x / k, k);
  }

  lemma RemainderHit(first: nat, m: nat, k: nat, j: nat)
    requires j < k && m < k
    ensures (first + m) % k == j <==> Turn(first, k, j) == m
  {
    var q, a := first / k, first % k;
    assert first == q * k + a;
    assert (q + 1) * k == q * k + k;
    QuotientIs(first + m, if a + m < k then q else q + 1, k);
    assert (-1) * k == 0 - k;
    QuotientIs(j - a, if a <= j then 0 else -1, k);
  }

  lemma {:induction false} ShareOfAPeriod(first: nat, n: nat, k: nat, j: nat)
    requires j < k && n <= k
    ensures Share(first, n, k, j) == if Turn(first, k, j) < n then 1 else 0
  {
    if n > 0 {
      ShareOfAPeriod(first, n - 1, k, j);
      RemainderHit(first, n - 1, k, j);
    }
  }

  lemma {:induction false} ShareSplits(first: nat, m: nat, n: nat, k: nat, j: nat)
    requires k > 0
    ensures Share(first, m + n, k, j) == Share(first, m, k, j) + Share(first + m, n, k, j)
    decreases n
  {
    if n > 0 {
      ShareSplits(first, m, n - 1, k, j);
    }
  }

  lemma TurnRepeats(first: nat, k: nat, j: nat)
    requires j < k
    ensures Turn(first + k, k, j) == Turn(first, k, j)
  {
    var q := first / k;
    assert first == q * k + first % k;
    assert (q + 1) * k == q * k + k;
    QuotientIs(first + k, q + 1, k);
  }

  /** q whole periods and r more ids. */
  lemma {:induction false} ShareIs(first: nat, n: nat, q: nat, r: nat, k: nat, j: nat)
    requires j < k && r < k && n == q * k + r
    ensures Share(first, n, k, j) == q + (if Turn(first, k, j) < r then 1 else 0)
    decreases q
  {
    if q == 0 {
      ShareOfAPeriod(first, r, k, j);
    } else {
      assert (q - 1) * k == q * k - k;
      assert 0 <= (q - 1) * k;
      ShareIs(first + k, n - k, q - 1, r, k, j);
      ShareSplits(first, k, n - k, k, j);
      ShareOfAPeriod(first, k, k, j);
      TurnRepeats(first, k, j);
    }
  }

  lemma ShareByDivision(first: nat, n: nat, k: nat, j: nat)
    requires j < k
    ensures Share(first, n, k, j) == n / k + (if Turn(first, k, j) < n % k then 1 else 0)
  {
    var q, r := n / k, n % k;
    assert n == q * k + r;
    ShareIs(first, n, q, r, k, j);
  }

  /** While a peer keeps its k connections, requesting n files adds floor(n/k) requests to every
      one of them and one more to the n % k connections whose turn comes first. */
  lemma DispatchIsBalanced(s: FileGetState, p: PeerId, fileNames: seq<string>, j: nat)
    requires Tidy(s) && j < |Conns(s, p)|
    requires s.nextId + |fileNames| < U64_SIZE
    requires forall d, id :: id in InIds(s, p, d) ==> id < s.nextId
    ensures var n, k, c := |fileNames|, |Conns(s, p)|, Conns(s, p)[j].id;
            |InIds(SendAll(s, p, fileNames), p, c)| ==
            |InIds(s, p, c)| + n / k + (if Turn(s.nextId, k, j) < n % k then 1 else 0)
  {
    SendAllShares(s, p, fileNames, j);
    ShareByDivision(s.nextId, |fileNames|, |Conns(s, p)|, j);
  }

  lemma {:induction false} SendAllShares(s: FileGetState, p: PeerId, fileNames: seq<string>, j: nat)
    requires Tidy(s) && j < |Conns(s, p)|
    requires s.nextId + |fileNames| < U64_SIZE
    requires forall d, id :: id in InIds(s, p, d) ==> id < s.nextId
    ensures var c := Conns(s, p)[j].id;
            |InIds(SendAll(s, p, fileNames), p, c)| ==
            |InIds(s, p, c)| + Share(s.nextId, |fileNames|, |Conns(s, p)|, j)
    decreases |fileNames|
  {
    hide Known, InIds, OutIds, Find, Tidy, SendRequest, Conns, Share;
    if fileNames == [] {
      ShareOfNone(s.nextId, |Conns(s, p)|, j);
    } else {
      var n, k := |fileNames|, |Conns(s, p)|;
      OneSend(s, p, fileNames[0], j);
      SendAllShares(SendRequest(s, p, fileNames[0]).0, p, fileNames[1..], j);
      ShareSplits(s.nextId, 1, n - 1, k, j);
      ShareOfOne(s.nextId, k, j);
    }
  }

  lemma ShareOfNone(first: nat, k: nat, j: nat)
    requires k > 0
    ensures Share(first, 0, k, j) == 0
  {
  }

  lemma ShareOfOne(first: nat, k: nat, j: nat)
    requires k > 0
    ensures Share(first, 1, k, j) == if first % k == j then 1 else 0
  {
    assert Share(first, 1, k, j) == Share(first, 0, k, j) + (if (first + 0) % k == j then 1 else 0);
  }

  /** One request adds one to the connection whose turn it is, and leaves the conditions for the next. */
  lemma OneSend(s: FileGetState, p: PeerId, fileName: string, j: nat)
    requires Tidy(s) && j < |Conns(s, p)| && s.nextId + 1 < U64_SIZE
    requires forall d, id :: id in InIds(s, p, d) ==> id < s.nextId
    ensures var u, k, c := SendRequest(s, p, fileName).0, |Conns(s, p)|, Conns(s, p)[j].id;
            && Tidy(u) && u.nextId == s.nextId + 1
            && |Conns(u, p)| == k && Conns(u, p)[j].id == c
            && (forall d, id :: id in InIds(u, p, d) ==> id < u.nextId)
            && |InIds(u, p, c)| == |InIds(s, p, c)| + (if s.nextId % k == j then 1 else 0)
  {
    hide Known, InIds, OutIds, Find, SendRequest;
    SendRequestEffect(s, p, fileName);
    SendKeepsConnections(s, p, fileName);
    TargetIs(s, p, s.nextId, j);
  }

  lemma TargetIs(s: FileGetState, p: PeerId, id: RequestId, j: nat)
    requires Tidy(s) && j < |Conns(s, p)|
    ensures Target(s, p, id) == Conns(s, p)[j].id <==> id % |Conns(s, p)| == j
  {
    FindAt(Conns(s, p), id % |Conns(s, p)|);
    FindAt(Conns(s, p), j);
  }

  lemma SendKeepsConnections(s: FileGetState, p: PeerId, fileName: string)
    requires Conns(s, p) != []
    ensures var u := SendRequest(s, p, fileName).0;
            |Conns(u, p)| == |Conns(s, p)| &&
            forall j :: 0 <= j < |Conns(s, p)| ==> Conns(u, p)[j].id == Conns(s, p)[j].id
  {
  }
}
