/** The singly linked FIFO that the work queue and the crew both keep in `first` and `last`. */
module LinkedFifo {

  class Node<T> {
    const data: T
    var next: Node?<T>

    constructor (data: T)
      ensures this.data == data && next == null
    {
      this.data := data;
      next := null;
    }
  }

  /** The i-th node, or null past the end. */
  ghost function Nth<T>(chain: seq<Node<T>>, i: nat): Node?<T>
  {
    if i < |chain| then chain[i] else null
  }

  predicate NoRepeats<T(==)>(s: seq<T>)
  {
    s == [] || (s[0] !in s[1..] && NoRepeats(s[1..]))
  }

  lemma {:induction false} OnlyAt<T>(s: seq<T>, i: nat)
    requires NoRepeats(s) && i < |s|
    ensures forall k | 0 <= k < |s| && k != i :: s[k] != s[i]
    decreases |s|
  {
    assert forall k | 1 <= k < |s| :: s[k] == s[1..][k - 1];
    if i > 0 { OnlyAt(s[1..], i - 1); }
  }

  lemma {:induction false} NoRepeatsInsert<T>(s: seq<T>, i: nat, x: T)
    requires NoRepeats(s) && i <= |s| && x !in s
    ensures NoRepeats(s[..i] + [x] + s[i..])
    decreases |s|
  {
    var r := s[..i] + [x] + s[i..];
    if i == 0 {
      assert r[1..] == s;
    } else {
      assert r[1..] == s[1..][..i - 1] + [x] + s[1..][i - 1..];
      assert forall y :: y in r[1..] ==> y in s[1..] || y == x;
      NoRepeatsInsert(s[1..], i - 1, x);
    }
  }

  /** `chain` lists, without repetition, the nodes that the links lead to from `first`. */
  ghost predicate IsList<T>(first: Node?<T>, chain: seq<Node<T>>)
    reads chain
  {
    && first == Nth(chain, 0)
    && (forall i | 0 <= i < |chain| :: chain[i].next == Nth(chain, i + 1))
    && NoRepeats(chain)
  }

  /** A list together with a pointer to its last node. */
  ghost predicate IsChain<T>(first: Node?<T>, last: Node?<T>, chain: seq<Node<T>>)
    reads chain
  {
    IsList(first, chain) && last == if chain == [] then null else chain[|chain| - 1]
  }

  ghost function Items<T>(chain: seq<Node<T>>): (r: seq<T>)
    ensures |r| == |chain|
  {
    seq(|chain|, i requires 0 <= i < |chain| => chain[i].data)
  }

  lemma ItemsSnoc<T>(chain: seq<Node<T>>, n: Node<T>)
    ensures Items(chain + [n]) == Items(chain) + [n.data]
  {
  }

  lemma ItemsRest<T>(chain: seq<Node<T>>)
    requires chain != []
    ensures Items(chain) == [chain[0].data] + Items(chain[1..])
  {
  }

  /** Unlinking the first node. */
  lemma ListRest<T>(first: Node?<T>, chain: seq<Node<T>>)
    requires IsList(first, chain) && chain != []
    ensures IsList(chain[0].next, chain[1..]) && chain[0] !in chain[1..]
  {
    var rest := chain[1..];
    assert forall i: nat :: Nth(rest, i) == Nth(chain, i + 1);
  }

  /** Unlinking the first node: both the queue's test and the crew's find the list empty. */
  lemma ChainRest<T>(first: Node?<T>, last: Node?<T>, chain: seq<Node<T>>)
    requires IsChain(first, last, chain) && chain != []
    ensures last == chain[0] <==> chain[0].next == null
    ensures IsChain(chain[0].next, if last == chain[0] then null else last, chain[1..])
  {
    ListRest(first, chain);
    OnlyAt(chain, 0);
  }

  /** Where the nodes are after one has been linked in before the i-th. */
  lemma NthInsert<T>(chain: seq<Node<T>>, i: nat, n: Node<T>, k: nat)
    requires i <= |chain|
    ensures Nth(chain[..i] + [n] + chain[i..], k) == if k < i then chain[k] else if k == i then n else Nth(chain, k - 1)
  {
  }

  /** Linking a node in before the i-th: its own link and one other have been set. */
  lemma LinkedIn<T>(first: Node?<T>, chain: seq<Node<T>>, i: nat, n: Node<T>)
    requires NoRepeats(chain) && i <= |chain| && n !in chain
    requires first == (if i == 0 then n else chain[0]) && n.next == Nth(chain, i)
    requires forall k | 0 <= k < |chain| :: chain[k].next == if k + 1 == i then n else Nth(chain, k + 1)
    ensures IsList(first, chain[..i] + [n] + chain[i..])
  {
    NoRepeatsInsert(chain, i, n);
    var longer := chain[..i] + [n] + chain[i..];
    NthInsert(chain, i, n, 0);
    forall k: nat | k < |longer| ensures longer[k].next == Nth(longer, k + 1) {
      NthInsert(chain, i, n, k);
      NthInsert(chain, i, n, k + 1);
    }
  }
}
