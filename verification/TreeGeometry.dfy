/**
 The tournament tree: powers of two, the bit-reversed leaf order and the leaf-to-root climb path of
 a peer (src/core/policy/successor_peterson_layout.hpp).

 A tree position is a 1-based heap index: the root is 1, the children of `c` are `2 * c` and
 `2 * c + 1`, the leaves are `[Pow2(depth), 2 * Pow2(depth))`. A position other than the root names one
 peer line: the slot of the node above it that a climber coming from below writes.
 */
module TreeGeometry {

  datatype Role = Peer0 | Peer1 {
    function Other(): Role {
      if Peer0? then Peer1 else Peer0
    }
  }

  /** One level of a climb: the 0-based node and the contender slot in it. */
  datatype ClimbStep = ClimbStep(node: nat, role: Role)

  function Pow2(n: nat): (r: nat)
    ensures r > 0
  {
    if n == 0 then 1 else 2 * Pow2(n - 1)
  }

  lemma {:induction false} Pow2Monotone(m: nat, n: nat)
    requires m <= n
    ensures Pow2(m) <= Pow2(n)
    decreases n
  {
    if m < n {
      Pow2Monotone(m, n - 1);
    }
  }

  // ---------- sizing ----------

  /** The number of levels a tree for `count` peers has: the least exponent that covers them. */
  function Depth(count: nat): nat {
    DepthFrom(count, 0)
  }

  function DepthFrom(count: nat, from: nat): (d: nat)
    requires forall e: nat | e < from :: Pow2(e) < count
    ensures from <= d && count <= Pow2(d)
    ensures forall e: nat | e < d :: Pow2(e) < count
    decreases count - Pow2(from)
  {
    if count <= Pow2(from) then from else DepthFrom(count, from + 1)
  }

  lemma DepthIsLeast(count: nat)
    ensures count <= Pow2(Depth(count))
    ensures forall e: nat | e < Depth(count) :: Pow2(e) < count
  {
  }

  function NumLeaves(maxPeers: nat): nat {
    Pow2(Depth(maxPeers))
  }

  method RoundUpPow2(count: nat) returns (rounded: nat)
    ensures rounded == NumLeaves(count)
    ensures count <= rounded && (rounded == 1 || rounded < 2 * count)
  {
    rounded := 1;
    DepthIsLeast(count);
    ghost var e := 0;
    while rounded < count
      invariant rounded == Pow2(e) && e <= Depth(count)
      invariant rounded == 1 || rounded < 2 * count
      decreases count - rounded
    {
      if e == Depth(count) { assert false; }
      rounded := rounded * 2;
      e := e + 1;
    }
    assert !(e < Depth(count));
  }

  /** The source's `__builtin_ctz`. */
  function TrailingZeros(n: nat): nat
    requires n > 0
  {
    if n % 2 == 1 then 0 else 1 + TrailingZeros(n / 2)
  }

  lemma {:induction false} TrailingZerosOfPow2(d: nat)
    ensures TrailingZeros(Pow2(d)) == d
  {
    if d > 0 {
      TrailingZerosOfPow2(d - 1);
    }
  }

  // ---------- the leaf permutation ----------

  /** The low `bits` bits of `value` in reverse order. */
  function Reversed(value: nat, bits: nat): (r: nat)
    ensures r < Pow2(bits)
  {
    if bits == 0 then 0
    else (if value % 2 == 1 then Pow2(bits - 1) else 0) + Reversed(value / 2, bits - 1)
  }

  /** `value` shifted left by `bits`. */
  function Shifted(value: nat, bits: nat): nat
    decreases bits
  {
    if bits == 0 then value else Shifted(2 * value, bits - 1)
  }

  lemma {:induction false} ShiftedSuccessor(value: nat, bits: nat)
    ensures Shifted(value + 1, bits) == Shifted(value, bits) + Pow2(bits)
    decreases bits
  {
    if bits > 0 {
      ShiftedSuccessor(2 * value, bits - 1);
      ShiftedSuccessor(2 * value + 1, bits - 1);
    }
  }

  lemma {:induction false} ShiftedZero(bits: nat)
    ensures Shifted(0, bits) == 0
  {
    if bits > 0 {
      ShiftedZero(bits - 1);
    }
  }

  method ReverseBits(value: nat, bits: nat) returns (reversed: nat)
    ensures reversed == Reversed(value, bits)
  {
    reversed := 0;
    var rest := value;
    ShiftedZero(bits);
    for bit := 0 to bits
      invariant Reversed(value, bits) == Shifted(reversed, bits - bit) + Reversed(rest, bits - bit)
    {
      ShiftedSuccessor(2 * reversed, bits - bit - 1);
      reversed := 2 * reversed + rest % 2;
      rest := rest / 2;
    }
  }

  /** A bit standing on top of `low` comes out at the bottom. */
  lemma {:induction false} ReversedTopBit(high: bool, low: nat, bits: nat)
    requires bits > 0 && low < Pow2(bits - 1)
    ensures Reversed((if high then Pow2(bits - 1) else 0) + low, bits)
         == 2 * Reversed(low, bits - 1) + (if high then 1 else 0)
    decreases bits
  {
    var value := (if high then Pow2(bits - 1) else 0) + low;
    if bits > 1 {
      assert value % 2 == low % 2 && value / 2 == (if high then Pow2(bits - 2) else 0) + low / 2;
      ReversedTopBit(high, low / 2, bits - 1);
    } else {
      assert value == if high then 1 else 0;
      assert Reversed(value / 2, 0) == 0;
    }
  }

  /** Bit reversal is its own inverse on `bits`-bit values, so it permutes the leaves. */
  lemma {:induction false} ReversedInvolution(value: nat, bits: nat)
    requires value < Pow2(bits)
    ensures Reversed(Reversed(value, bits), bits) == value
  {
    if bits > 0 {
      ReversedTopBit(value % 2 == 1, Reversed(value / 2, bits - 1), bits);
      ReversedInvolution(value / 2, bits - 1);
    }
  }

  /** Reversing one bit less drops the last one. */
  lemma {:induction false} ReversedHalved(value: nat, bits: nat)
    requires bits > 0
    ensures Reversed(value, bits) / 2 == Reversed(value, bits - 1)
    decreases bits
  {
    if bits > 1 {
      ReversedHalved(value / 2, bits - 1);
    }
  }

  /** Two values have one reversal exactly if their low bits agree. */
  lemma {:induction false} ReversedByLowBits(a: nat, b: nat, bits: nat)
    ensures Reversed(a, bits) == Reversed(b, bits) <==> a % Pow2(bits) == b % Pow2(bits)
    decreases bits
  {
    if bits > 0 {
      ReversedByLowBits(a / 2, b / 2, bits - 1);
      LowBits(a, bits);
      LowBits(b, bits);
    }
  }

  lemma LowBits(value: nat, bits: nat)
    requires bits > 0
    ensures value % Pow2(bits) == value % 2 + 2 * (value / 2 % Pow2(bits - 1))
  {
    var n := Pow2(bits - 1);
    DoubledRemainder(value / 2, value % 2, n);
    assert value == 2 * (value / 2) + value % 2;
  }

  lemma DoubledRemainder(half: nat, bit: nat, n: nat)
    requires n > 0 && bit < 2
    ensures (2 * half + bit) % (2 * n) == bit + 2 * (half % n)
  {
    var quotient, low := half / n, half % n;
    assert half == quotient * n + low;
    assert quotient * (2 * n) == 2 * (quotient * n);
    Remainder(2 * half + bit, 2 * n, quotient, bit + 2 * low);
  }

  lemma Remainder(a: nat, n: nat, quotient: nat, rest: nat)
    requires n > 0 && a == quotient * n + rest && rest < n
    ensures a % n == rest
  {
    assert a == a / n * n + a % n;
    if quotient < a / n {
      MultipleAbove(quotient, a / n, n);
      assert false;
    } else if a / n < quotient {
      MultipleAbove(a / n, quotient, n);
      assert false;
    }
  }

  lemma {:induction false} MultipleAbove(low: nat, high: nat, n: nat)
    requires low < high
    ensures low * n + n <= high * n
    decreases high
  {
    assert high * n == (high - 1) * n + n;
    if low + 1 < high {
      MultipleAbove(low, high - 1, n);
    }
  }

  // ---------- climbing ----------

  /** The position `level` steps above `position`. */
  function Up(position: nat, level: nat): nat {
    if level == 0 then position else Up(position, level - 1) / 2
  }

  ghost predicate IsLeaf(position: nat, depth: nat) {
    Pow2(depth) <= position < 2 * Pow2(depth)
  }

  lemma {:induction false} UpInRange(position: nat, depth: nat, level: nat)
    requires IsLeaf(position, depth) && level <= depth
    ensures Pow2(depth - level) <= Up(position, level) < 2 * Pow2(depth - level)
  {
    if level > 0 {
      UpInRange(position, depth, level - 1);
    }
  }

  /** Once two climbs meet they stay together. */
  lemma {:induction false} UpMerges(a: nat, b: nat, level: nat, above: nat)
    requires level <= above && Up(a, level) == Up(b, level)
    ensures Up(a, above) == Up(b, above)
    decreases above
  {
    if level < above {
      UpMerges(a, b, level, above - 1);
    }
  }

  /** Positions on different levels differ. */
  lemma UpLevelsDiffer(a: nat, b: nat, depth: nat, i: nat, j: nat)
    requires IsLeaf(a, depth) && IsLeaf(b, depth) && i <= depth && j <= depth
    requires Up(a, i) == Up(b, j)
    ensures i == j
  {
    UpInRange(a, depth, i);
    UpInRange(b, depth, j);
    if i < j {
      Pow2Monotone(depth - j + 1, depth - i);
    } else if j < i {
      Pow2Monotone(depth - i + 1, depth - j);
    }
  }

  /** The line a climber standing at `position` contends with. */
  function StepOf(position: nat): ClimbStep
    requires position > 1
  {
    ClimbStep(position / 2 - 1, if position % 2 == 0 then Peer0 else Peer1)
  }

  /** The leaf of a peer. */
  function Leaf(maxPeers: nat, peer: nat): (leaf: nat)
    ensures IsLeaf(leaf, Depth(maxPeers))
  {
    NumLeaves(maxPeers) + Reversed(peer, Depth(maxPeers))
  }

  /** Where `peer` stands after winning `level` levels. */
  function At(maxPeers: nat, peer: nat, level: nat): nat {
    Up(Leaf(maxPeers, peer), level)
  }

  /** The line of `peer` at `level` of its climb. */
  function StepAt(maxPeers: nat, peer: nat, level: nat): ClimbStep
    requires level < Depth(maxPeers)
  {
    var at := At(maxPeers, peer, level);
    AtInRange(maxPeers, peer, level);
    Pow2Monotone(1, Depth(maxPeers) - level);
    StepOf(at)
  }

  /** A peer's whole climb, leaf side first. */
  function ClimbPath(maxPeers: nat, peer: nat): seq<ClimbStep> {
    seq(Depth(maxPeers), level requires 0 <= level < Depth(maxPeers) => StepAt(maxPeers, peer, level))
  }

  lemma AtInRange(maxPeers: nat, peer: nat, level: nat)
    requires level <= Depth(maxPeers)
    ensures Pow2(Depth(maxPeers) - level) <= At(maxPeers, peer, level) < 2 * Pow2(Depth(maxPeers) - level)
  {
    UpInRange(Leaf(maxPeers, peer), Depth(maxPeers), level);
  }

  /** After `level` levels a peer stands where its remaining low bits, reversed, say. */
  lemma {:induction false} AtIsReversed(maxPeers: nat, peer: nat, level: nat)
    requires level <= Depth(maxPeers)
    ensures At(maxPeers, peer, level) == Pow2(Depth(maxPeers) - level) + Reversed(peer, Depth(maxPeers) - level)
    decreases level
  {
    if level > 0 {
      AtIsReversed(maxPeers, peer, level - 1);
      ReversedHalved(peer, Depth(maxPeers) - level + 1);
    }
  }

  /**
   Neighbouring ids meet as late as can be: two climbs have merged after `level` levels exactly if the ids agree on
   all the bits that are left.
   */
  lemma MergedByLowBits(maxPeers: nat, p: nat, q: nat, level: nat)
    requires level <= Depth(maxPeers)
    ensures At(maxPeers, p, level) == At(maxPeers, q, level) <==>
            p % Pow2(Depth(maxPeers) - level) == q % Pow2(Depth(maxPeers) - level)
  {
    AtIsReversed(maxPeers, p, level);
    AtIsReversed(maxPeers, q, level);
    ReversedByLowBits(p, q, Depth(maxPeers) - level);
  }

  /** Distinct peers start at distinct leaves. */
  lemma LeavesDistinct(maxPeers: nat, p: nat, q: nat)
    requires p < maxPeers && q < maxPeers && p != q
    ensures At(maxPeers, p, 0) != At(maxPeers, q, 0)
  {
    DepthIsLeast(maxPeers);
    ReversedInvolution(p, Depth(maxPeers));
    ReversedInvolution(q, Depth(maxPeers));
  }

  /** Every climb ends at the root. */
  lemma AtRoot(maxPeers: nat, peer: nat)
    ensures At(maxPeers, peer, Depth(maxPeers)) == 1
  {
    AtInRange(maxPeers, peer, Depth(maxPeers));
  }

  /** The source's loop builds exactly `ClimbPath`. */
  method BuildClimbPath(maxPeers: nat, peer: nat) returns (path: seq<ClimbStep>)
    ensures path == ClimbPath(maxPeers, peer)
  {
    var numLeaves := RoundUpPow2(maxPeers);
    TrailingZerosOfPow2(Depth(maxPeers));
    var depth := TrailingZeros(numLeaves);
    var reversed := ReverseBits(peer, depth);
    var cur := numLeaves + reversed;
    path := [];
    while cur > 1
      invariant |path| <= depth && cur == At(maxPeers, peer, |path|)
      invariant path == ClimbPath(maxPeers, peer)[..|path|]
      decreases cur
    {
      if |path| == depth { AtRoot(maxPeers, peer); assert false; }
      var parent := cur / 2;
      var role := if cur % 2 == 0 then Peer0 else Peer1;
      path := path + [ClimbStep(parent - 1, role)];
      cur := parent;
    }
    AtInRange(maxPeers, peer, |path|);
    assert |path| == depth;
  }

  /** Every node of a path is a node of the tree, and the last one is the root. */
  lemma ClimbPathShape(maxPeers: nat, peer: nat)
    ensures |ClimbPath(maxPeers, peer)| == Depth(maxPeers)
    ensures forall k | 0 <= k < Depth(maxPeers) :: ClimbPath(maxPeers, peer)[k].node < NumLeaves(maxPeers) - 1
    ensures Depth(maxPeers) > 0 ==> ClimbPath(maxPeers, peer)[Depth(maxPeers) - 1].node == 0
  {
    var depth := Depth(maxPeers);
    forall k | 0 <= k < depth
      ensures ClimbPath(maxPeers, peer)[k].node < NumLeaves(maxPeers) - 1
      ensures k == depth - 1 ==> ClimbPath(maxPeers, peer)[k].node == 0
    {
      AtInRange(maxPeers, peer, k);
      AtInRange(maxPeers, peer, k + 1);
      assert At(maxPeers, peer, k + 1) == At(maxPeers, peer, k) / 2;
      Pow2Monotone(depth - k, depth);
    }
  }

  /** Steps name positions one to one: equal lines are equal positions. */
  lemma StepOfInjective(a: nat, b: nat)
    requires a > 1 && b > 1 && StepOf(a) == StepOf(b)
    ensures a == b
  {
    assert a == 2 * (StepOf(a).node + 1) + (if StepOf(a).role == Peer0 then 0 else 1);
    assert b == 2 * (StepOf(b).node + 1) + (if StepOf(b).role == Peer0 then 0 else 1);
  }

  /** Below the meeting level two climbs have no node in common, on any pair of levels. */
  lemma NodesBelowDiffer(maxPeers: nat, p: nat, q: nat, meet: nat, i: nat, j: nat)
    requires meet < Depth(maxPeers) && At(maxPeers, p, meet) != At(maxPeers, q, meet)
    requires i < meet && j < Depth(maxPeers)
    ensures StepAt(maxPeers, p, i).node != StepAt(maxPeers, q, j).node
  {
    if StepAt(maxPeers, p, i).node == StepAt(maxPeers, q, j).node {
      assert At(maxPeers, p, i + 1) == At(maxPeers, q, j + 1);
      UpLevelsDiffer(Leaf(maxPeers, p), Leaf(maxPeers, q), Depth(maxPeers), i + 1, j + 1);
      UpMerges(Leaf(maxPeers, p), Leaf(maxPeers, q), i + 1, meet);
    }
  }

  /** The level at which two climbs that differ at `level` first share a node. */
  lemma {:induction false} FindMeeting(maxPeers: nat, p: nat, q: nat, level: nat) returns (meet: nat)
    requires level <= Depth(maxPeers) && At(maxPeers, p, level) != At(maxPeers, q, level)
    ensures level <= meet < Depth(maxPeers)
    ensures At(maxPeers, p, meet) != At(maxPeers, q, meet)
    ensures At(maxPeers, p, meet + 1) == At(maxPeers, q, meet + 1)
    decreases Depth(maxPeers) - level
  {
    AtRoot(maxPeers, p);
    AtRoot(maxPeers, q);
    if At(maxPeers, p, level + 1) == At(maxPeers, q, level + 1) {
      meet := level;
    } else {
      meet := FindMeeting(maxPeers, p, q, level + 1);
    }
  }

  /**
   Two distinct peers meet at exactly one node, in opposite roles; below it their nodes are disjoint
   and above it their steps are the same.
   */
  lemma PathsMeetOnce(maxPeers: nat, p: nat, q: nat) returns (meet: nat)
    requires p < maxPeers && q < maxPeers && p != q
    ensures meet < Depth(maxPeers)
    ensures StepAt(maxPeers, p, meet).node == StepAt(maxPeers, q, meet).node
    ensures StepAt(maxPeers, p, meet).role == StepAt(maxPeers, q, meet).role.Other()
    ensures forall i, j | 0 <= i < meet && 0 <= j < Depth(maxPeers) ::
              StepAt(maxPeers, p, i).node != StepAt(maxPeers, q, j).node
              && StepAt(maxPeers, q, i).node != StepAt(maxPeers, p, j).node
    ensures forall k | meet < k < Depth(maxPeers) :: StepAt(maxPeers, p, k) == StepAt(maxPeers, q, k)
  {
    LeavesDistinct(maxPeers, p, q);
    meet := FindMeeting(maxPeers, p, q, 0);
    forall i, j | 0 <= i < meet && 0 <= j < Depth(maxPeers)
      ensures StepAt(maxPeers, p, i).node != StepAt(maxPeers, q, j).node
      ensures StepAt(maxPeers, q, i).node != StepAt(maxPeers, p, j).node
    {
      NodesBelowDiffer(maxPeers, p, q, meet, i, j);
      NodesBelowDiffer(maxPeers, q, p, meet, i, j);
    }
    forall k | meet < k < Depth(maxPeers)
      ensures StepAt(maxPeers, p, k) == StepAt(maxPeers, q, k)
    {
      UpMerges(Leaf(maxPeers, p), Leaf(maxPeers, q), meet + 1, k);
    }
    assert At(maxPeers, p, meet + 1) == At(maxPeers, p, meet) / 2;
    assert At(maxPeers, q, meet + 1) == At(maxPeers, q, meet) / 2;
  }
}
