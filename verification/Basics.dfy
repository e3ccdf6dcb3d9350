/** Vocabulary shared by every component: identifiers, options and ordered sequences. */
module Basics {

  datatype Option<+T> = None | Some(value: T)

  type PeerId = nat
  type ConnectionId = nat
  type RequestId = nat

  /** The number of values of a u64, the width of every identifier generator. */
  const U64_SIZE: nat := 0x1_0000_0000_0000_0000

  /** What fetch_add leaves in the counter: it wraps around. */
  function NextCounter(n: nat): nat {
    (n + 1) % U64_SIZE
  }

  /** The identifier handed out by the k-th call of a generator that starts at `first`. */
  function DrawnId(first: nat, k: nat): nat
  {
    if k == 0 then first % U64_SIZE else NextCounter(DrawnId(first, k - 1))
  }

  lemma {:induction false} DrawnIdIs(first: nat, k: nat)
    ensures DrawnId(first, k) == (first + k) % U64_SIZE
  {
    if k > 0 {
      DrawnIdIs(first, k - 1);
    }
  }

  /** Two draws give the same identifier exactly when they are a multiple of 2^64 draws apart. */
  lemma DrawsCollideIff(first: nat, j: nat, k: nat)
    requires j <= k
    ensures DrawnId(first, j) == DrawnId(first, k) <==> (k - j) % U64_SIZE == 0
  {
    hide DrawnId;
    DrawnIdIs(first, j);
    DrawnIdIs(first, k);
    var a, b := (first + j) / U64_SIZE, (first + k) / U64_SIZE;
    assert k - j == (b - a) * U64_SIZE + ((first + k) % U64_SIZE - (first + j) % U64_SIZE);
  }

  /** `xs` lists the elements of `s`, each once, in some order: how a hash set is iterated. */
  ghost predicate IsListing<T>(xs: seq<T>, s: set<T>) {
    multiset(xs) == multiset(s)
  }

  ghost predicate Increasing(xs: seq<RequestId>) {
    forall i, j :: 0 <= i < j < |xs| ==> xs[i] < xs[j]
  }

  /** How often an id occurs. */
  function Times(xs: seq<RequestId>, id: RequestId): nat {
    if xs == [] then 0 else (if xs[0] == id then 1 else 0) + Times(xs[1..], id)
  }

  lemma {:induction false} TimesConcat(a: seq<RequestId>, b: seq<RequestId>, id: RequestId)
    ensures Times(a + b, id) == Times(a, id) + Times(b, id)
  {
    if a == [] {
      assert a + b == b;
    } else {
      TimesConcat(a[1..], b, id);
      assert (a + b)[1..] == a[1..] + b;
    }
  }

  lemma {:induction false} TimesPositive(xs: seq<RequestId>, id: RequestId)
    ensures Times(xs, id) > 0 <==> id in xs
  {
    if xs != [] {
      TimesPositive(xs[1..], id);
    }
  }

  /** A listing mentions the elements of its set once and nothing else. */
  lemma {:induction false} TimesIsMultiplicity(xs: seq<RequestId>, id: RequestId)
    ensures Times(xs, id) == multiset(xs)[id]
  {
    if xs != [] {
      TimesIsMultiplicity(xs[1..], id);
      assert xs == [xs[0]] + xs[1..];
    }
  }

  function Elements(xs: seq<RequestId>): set<RequestId> {
    set x | x in xs
  }

  lemma {:induction false} IncreasingIsListing(xs: seq<RequestId>)
    requires Increasing(xs)
    ensures IsListing(xs, Elements(xs))
  {
    if xs != [] {
      var front, last := xs[..|xs| - 1], xs[|xs| - 1];
      IncreasingIsListing(front);
      assert xs == front + [last];
      assert last !in front;
      assert Elements(xs) == Elements(front) + {last};
    }
  }

  /** Some order in which a hash set can be iterated. */
  lemma {:induction false} ListingExists<T>(s: set<T>) returns (xs: seq<T>)
    ensures IsListing(xs, s)
    decreases |s|
  {
    if s == {} {
      xs := [];
    } else {
      var x :| x in s;
      var rest := ListingExists(s - {x});
      xs := [x] + rest;
      assert s == (s - {x}) + {x};
    }
  }
}
