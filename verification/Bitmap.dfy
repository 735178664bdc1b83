/**
 The bitmaps of common/common/bitmap.hpp: ids kept in unsigned 64-bit words. Each word-level operation is proved
 to be the set operation its name says, on every number of words.

 A word is a number below two to the 64; the bitwise operators are defined on its binary digits.
 */
module Bitmap {
  import opened TreeGeometry

  const BITS: nat := 64

  type Id = nat

  predicate IsWord(x: nat) {
    x < Pow2(BITS)
  }

  // ---------- bitwise operators on unsigned numbers ----------

  predicate Bit(x: nat, i: nat) {
    if i == 0 then x % 2 == 1 else Bit(x / 2, i - 1)
  }

  function And(x: nat, y: nat): nat {
    if x == 0 || y == 0 then 0 else 2 * And(x / 2, y / 2) + if x % 2 == 1 && y % 2 == 1 then 1 else 0
  }

  function Or(x: nat, y: nat): nat {
    if x == 0 && y == 0 then 0 else 2 * Or(x / 2, y / 2) + if x % 2 == 1 || y % 2 == 1 then 1 else 0
  }

  /** The bits of `x` that are not in `y`. */
  function AndNot(x: nat, y: nat): nat {
    if x == 0 then 0 else 2 * AndNot(x / 2, y / 2) + if x % 2 == 1 && y % 2 == 0 then 1 else 0
  }

  lemma {:induction false} ZeroHasNone(i: nat)
    ensures !Bit(0, i)
  {
    if i > 0 {
      ZeroHasNone(i - 1);
    }
  }

  lemma {:induction false} AndBit(x: nat, y: nat, i: nat)
    ensures Bit(And(x, y), i) <==> Bit(x, i) && Bit(y, i)
    decreases i
  {
    ZeroHasNone(i);
    if i > 0 && x != 0 && y != 0 {
      AndBit(x / 2, y / 2, i - 1);
    }
  }

  lemma {:induction false} OrBit(x: nat, y: nat, i: nat)
    ensures Bit(Or(x, y), i) <==> Bit(x, i) || Bit(y, i)
    decreases i
  {
    ZeroHasNone(i);
    if i > 0 && (x != 0 || y != 0) {
      OrBit(x / 2, y / 2, i - 1);
    }
  }

  lemma {:induction false} AndNotBit(x: nat, y: nat, i: nat)
    ensures Bit(AndNot(x, y), i) <==> Bit(x, i) && !Bit(y, i)
    decreases i
  {
    ZeroHasNone(i);
    if i > 0 && x != 0 {
      AndNotBit(x / 2, y / 2, i - 1);
    }
  }

  lemma {:induction false} MaskBit(i: nat, j: nat)
    ensures Bit(Pow2(i), j) <==> i == j
    decreases j
  {
    if i == 0 && j > 0 {
      ZeroHasNone(j - 1);
    } else if i > 0 && j > 0 {
      MaskBit(i - 1, j - 1);
    }
  }

  lemma {:induction false} SomeBit(x: nat)
    requires x != 0
    ensures exists i: nat :: Bit(x, i)
  {
    if x % 2 == 1 {
      assert Bit(x, 0);
    } else {
      SomeBit(x / 2);
      var i: nat :| Bit(x / 2, i);
      assert Bit(x, i + 1);
    }
  }

  /** The test the source makes: the word and the mask have a bit in common. */
  lemma MaskTest(x: nat, i: nat)
    ensures And(x, Pow2(i)) != 0 <==> Bit(x, i)
  {
    AndBit(x, Pow2(i), i);
    MaskBit(i, i);
    ZeroHasNone(i);
    if And(x, Pow2(i)) != 0 {
      SomeBit(And(x, Pow2(i)));
      var j: nat :| Bit(And(x, Pow2(i)), j);
      AndBit(x, Pow2(i), j);
      MaskBit(i, j);
    }
  }

  /** A number below two to the `n` has no bit from `n` on, and none of the operators leaves that range. */
  lemma {:induction false} BitsFit(x: nat, n: nat, i: nat)
    requires x < Pow2(n) && n <= i
    ensures !Bit(x, i)
    decreases n
  {
    if n == 0 {
      ZeroHasNone(i);
    } else {
      BitsFit(x / 2, n - 1, i - 1);
    }
  }

  lemma {:induction false} ResultsFit(x: nat, y: nat, n: nat)
    requires x < Pow2(n) && y < Pow2(n)
    ensures And(x, y) <= x && AndNot(x, y) <= x && Or(x, y) < Pow2(n)
    decreases n
  {
    if n > 0 {
      ResultsFit(x / 2, y / 2, n - 1);
    }
  }

  predicate IsLowest(x: nat, low: nat) {
    Bit(x, low) && forall j | 0 <= j < low :: !Bit(x, j)
  }

  lemma {:induction false} AndSelf(x: nat)
    ensures And(x, x) == x
  {
    if x != 0 {
      AndSelf(x / 2);
    }
  }

  /** Subtracting one and keeping the common bits clears exactly the lowest bit. */
  lemma {:induction false} LowestCleared(x: nat, low: nat, i: nat)
    requires x > 0 && IsLowest(x, low)
    ensures Bit(And(x, x - 1), i) <==> Bit(x, i) && i != low
    decreases low
  {
    if low == 0 {
      AndSelf(x / 2);
      ZeroHasNone(i);
      if i > 0 {
        ZeroHasNone(i - 1);
      }
    } else {
      assert !Bit(x, 0);
      assert (x - 1) / 2 == x / 2 - 1;
      assert forall j | 0 <= j < low - 1 :: Bit(x / 2, j) == Bit(x, j + 1);
      ZeroHasNone(i);
      if i > 0 {
        LowestCleared(x / 2, low - 1, i - 1);
        ZeroHasNone(i - 1);
      }
    }
  }

  /** The count of trailing zeros is the lowest bit, and lies in the word. */
  lemma {:induction false} TrailingIsLowest(x: nat)
    requires x > 0
    ensures IsLowest(x, TrailingZeros(x))
  {
    if x % 2 == 0 {
      TrailingIsLowest(x / 2);
      forall j | 0 <= j < TrailingZeros(x)
        ensures !Bit(x, j)
      {
        assert j > 0 ==> !Bit(x / 2, j - 1);
      }
    }
  }

  // ---------- the value form ----------

  /** The ids a sequence of words stands for. */
  function Ids(words: seq<nat>): set<Id> {
    set id | 0 <= id < BITS * |words| && Bit(words[id / BITS], id % BITS)
  }

  class Bits {
    var words: array<nat>

    ghost predicate Valid()
      reads this, words
    {
      forall k | 0 <= k < words.Length :: IsWord(words[k])
    }

    ghost function Elements(): set<Id>
      reads this, words
    {
      Ids(words[..])
    }

    constructor (wordCount: nat)
      ensures Valid() && fresh(words) && words.Length == wordCount && Elements() == {}
    {
      words := new nat[wordCount](_ => 0);
      new;
      forall id | 0 <= id < BITS * wordCount
        ensures !Bit(words[..][id / BITS], id % BITS)
      {
        ZeroHasNone(id % BITS);
      }
    }

    method Set(index: Id)
      requires Valid() && index < BITS * words.Length
      modifies words
      ensures Valid() && Elements() == old(Elements()) + {index}
    {
      var k := index / BITS;
      Pow2Monotone(index % BITS + 1, BITS);
      ResultsFit(words[k], Pow2(index % BITS), BITS);
      words[k] := Or(words[k], Pow2(index % BITS));
      forall id | 0 <= id < BITS * words.Length
        ensures id in Elements() <==> id in old(Elements()) || id == index
      {
        OrBit(old(words[k]), Pow2(index % BITS), id % BITS);
        MaskBit(index % BITS, id % BITS);
      }
    }

    method Clear(index: Id)
      requires Valid() && index < BITS * words.Length
      modifies words
      ensures Valid() && Elements() == old(Elements()) - {index}
    {
      var k := index / BITS;
      Pow2Monotone(index % BITS + 1, BITS);
      ResultsFit(words[k], Pow2(index % BITS), BITS);
      words[k] := AndNot(words[k], Pow2(index % BITS));
      forall id | 0 <= id < BITS * words.Length
        ensures id in Elements() <==> id in old(Elements()) && id != index
      {
        AndNotBit(old(words[k]), Pow2(index % BITS), id % BITS);
        MaskBit(index % BITS, id % BITS);
      }
    }

    method Has(index: Id) returns (has: bool)
      requires Valid() && index < BITS * words.Length
      ensures has <==> index in Elements()
    {
      MaskTest(words[index / BITS], index % BITS);
      has := And(words[index / BITS], Pow2(index % BITS)) != 0;
    }

    method IsEmpty() returns (empty: bool)
      requires Valid()
      ensures empty <==> Elements() == {}
    {
      for k := 0 to words.Length
        invariant forall j | 0 <= j < k :: words[j] == 0
      {
        if words[k] != 0 {
          WordInhabits(words[..], k);
          return false;
        }
      }
      forall id | id in Elements()
        ensures false
      {
        ZeroHasNone(id % BITS);
      }
      return true;
    }

    /** The first word that is not zero. */
    method FirstWord() returns (k: nat)
      requires Valid() && Elements() != {}
      ensures k < words.Length && words[k] != 0 && forall j | 0 <= j < k :: words[j] == 0
    {
      SomeWord(words[..]);
      k := 0;
      while words[k] == 0
        invariant k < words.Length && forall j | 0 <= j < k :: words[j] == 0
        invariant exists j :: k <= j < words.Length && words[j] != 0
        decreases words.Length - k
      {
        k := k + 1;
      }
    }

    /** Removes and answers the least id. */
    method PopLowest() returns (low: Id)
      requires Valid() && Elements() != {}
      modifies words
      ensures Valid() && low in old(Elements()) && (forall id | id in old(Elements()) :: low <= id)
      ensures Elements() == old(Elements()) - {low}
    {
      var k := FirstWord();
      low := k * BITS + TrailingZeros(words[k]);
      LowestOfWords(words[..], k);
      PoppedIds(words[..], k);
      words[k] := And(words[k], words[k] - 1);
      assert words[..] == old(words[..])[k := words[k]];
    }

    /** Adds every id of the other set. */
    method UnionWith(other: Bits)
      requires Valid() && other.Valid() && other.words.Length == words.Length
      modifies words
      ensures Valid() && Elements() == old(Elements()) + old(other.Elements())
    {
      for k := 0 to words.Length
        invariant Valid()
        invariant forall j | 0 <= j < k :: words[j] == Or(old(words[j]), old(other.words[j]))
        invariant forall j | k <= j < words.Length :: words[j] == old(words[j]) && other.words[j] == old(other.words[j])
      {
        assert IsWord(old(words[k])) && IsWord(old(other.words[k]));
        ResultsFit(words[k], other.words[k], BITS);
        words[k] := Or(words[k], other.words[k]);
      }
      forall id | 0 <= id < BITS * words.Length
        ensures id in Elements() <==> id in old(Elements()) || id in old(other.Elements())
      {
        OrBit(old(words[id / BITS]), old(other.words[id / BITS]), id % BITS);
      }
    }

    /** Drops every id of the other set. */
    method DropAll(other: Bits)
      requires Valid() && other.Valid() && other.words.Length == words.Length
      modifies words
      ensures Valid() && Elements() == old(Elements()) - old(other.Elements())
    {
      for k := 0 to words.Length
        invariant Valid()
        invariant forall j | 0 <= j < k :: words[j] == AndNot(old(words[j]), old(other.words[j]))
        invariant forall j | k <= j < words.Length :: words[j] == old(words[j]) && other.words[j] == old(other.words[j])
      {
        assert IsWord(old(words[k])) && IsWord(old(other.words[k]));
        ResultsFit(words[k], other.words[k], BITS);
        words[k] := AndNot(words[k], other.words[k]);
      }
      forall id | 0 <= id < BITS * words.Length
        ensures id in Elements() <==> id in old(Elements()) && id !in old(other.Elements())
      {
        AndNotBit(old(words[id / BITS]), old(other.words[id / BITS]), id % BITS);
      }
    }

    /** The ids present in both. */
    method Intersect(other: Bits) returns (both: Bits)
      requires Valid() && other.Valid() && other.words.Length == words.Length
      ensures fresh(both) && both.Valid() && both.Elements() == Elements() * other.Elements()
    {
      both := new Bits(words.Length);
      for k := 0 to words.Length
        invariant both.Valid() && fresh(both) && fresh(both.words) && both.words.Length == words.Length
        invariant forall j | 0 <= j < k :: both.words[j] == And(words[j], other.words[j])
      {
        ResultsFit(words[k], other.words[k], BITS);
        both.words[k] := And(words[k], other.words[k]);
      }
      forall id | 0 <= id < BITS * words.Length
        ensures id in both.Elements() <==> id in Elements() && id in other.Elements()
      {
        AndBit(words[id / BITS], other.words[id / BITS], id % BITS);
      }
    }

    /** Draining by `PopLowest` answers the ids in ascending order. */
    method Drain() returns (ids: seq<Id>)
      requires Valid()
      modifies words
      ensures Elements() == {} && Ascending(ids) && SetOf(ids) == old(Elements())
    {
      ids := [];
      var empty := IsEmpty();
      while !empty
        invariant Valid() && Ascending(ids) && (empty <==> Elements() == {})
        invariant SetOf(ids) + Elements() == old(Elements())
        invariant forall a, b | a in SetOf(ids) && b in Elements() :: a < b
        decreases Elements()
      {
        var low := PopLowest();
        SetAppend(ids, low);
        ids := ids + [low];
        empty := IsEmpty();
      }
    }

    /** Iterating answers the ids in ascending order and changes nothing. */
    method Iterate() returns (ids: seq<Id>)
      requires Valid()
      ensures Ascending(ids) && SetOf(ids) == Elements()
    {
      ids := [];
      for from := 0 to BITS * words.Length
        invariant Ascending(ids) && SetOf(ids) == set id | id in Elements() && id < from
      {
        var has := Has(from);
        if has {
          SetAppend(ids, from);
          ids := ids + [from];
        }
        assert (set id | id in Elements() && id < from + 1) ==
               (set id | id in Elements() && id < from) + if has then {from} else {};
      }
    }
  }

  predicate Ascending(ids: seq<Id>) {
    forall i, j | 0 <= i < j < |ids| :: ids[i] < ids[j]
  }

  function SetOf(ids: seq<Id>): set<Id> {
    set id | id in ids
  }

  lemma SetAppend(ids: seq<Id>, id: Id)
    requires Ascending(ids) && forall a | a in SetOf(ids) :: a < id
    ensures SetOf(ids + [id]) == SetOf(ids) + {id} && Ascending(ids + [id])
  {
    assert forall i | 0 <= i < |ids| :: ids[i] in SetOf(ids);
  }

  /** A set has one ascending order, so draining and iterating answer the same sequence. */
  lemma {:induction false} OneAscendingOrder(a: seq<Id>, b: seq<Id>)
    requires Ascending(a) && Ascending(b) && SetOf(a) == SetOf(b)
    ensures a == b
  {
    assert a != [] ==> a[0] in SetOf(a);
    assert b != [] ==> b[0] in SetOf(b);
    if a != [] {
      assert a[0] == b[0];
      TailSet(a);
      TailSet(b);
      OneAscendingOrder(a[1..], b[1..]);
    }
  }

  lemma TailSet(ids: seq<Id>)
    requires ids != [] && Ascending(ids)
    ensures SetOf(ids[1..]) == SetOf(ids) - {ids[0]} && Ascending(ids[1..])
  {
    forall id
      ensures id in ids[1..] <==> id in ids && id != ids[0]
    {
      if id in ids && id != ids[0] {
        var k :| 0 <= k < |ids| && ids[k] == id;
        assert ids[1..][k - 1] == id;
      }
    }
  }

  lemma PoppedIds(words: seq<nat>, k: nat)
    requires k < |words| && 0 < words[k] && IsWord(words[k])
    ensures Ids(words[k := And(words[k], words[k] - 1)]) == Ids(words) - {k * BITS + TrailingZeros(words[k])}
    ensures IsWord(And(words[k], words[k] - 1))
  {
    ResultsFit(words[k], words[k] - 1, BITS);
    TrailingIsLowest(words[k]);
    LowestFits(words[k]);
    var after := words[k := And(words[k], words[k] - 1)];
    forall id | 0 <= id < BITS * |words|
      ensures id in Ids(after) <==> id in Ids(words) && id != k * BITS + TrailingZeros(words[k])
    {
      LowestCleared(words[k], TrailingZeros(words[k]), id % BITS);
    }
  }

  lemma SomeWord(words: seq<nat>)
    requires Ids(words) != {}
    ensures exists k :: 0 <= k < |words| && words[k] != 0
  {
    var id :| id in Ids(words);
    ZeroHasNone(id % BITS);
  }

  lemma WordInhabits(words: seq<nat>, k: nat)
    requires k < |words| && 0 < words[k] && IsWord(words[k])
    ensures Ids(words) != {}
  {
    TrailingIsLowest(words[k]);
    LowestFits(words[k]);
    var id := k * BITS + TrailingZeros(words[k]);
    assert id / BITS == k && id % BITS == TrailingZeros(words[k]);
    assert id in Ids(words);
  }

  lemma LowestFits(x: nat)
    requires 0 < x && IsWord(x)
    ensures TrailingZeros(x) < BITS
  {
    TrailingIsLowest(x);
    if TrailingZeros(x) >= BITS {
      BitsFit(x, BITS, TrailingZeros(x));
    }
  }

  /** The lowest bit of the first word that is not zero is the least id. */
  lemma LowestOfWords(words: seq<nat>, k: nat)
    requires k < |words| && 0 < words[k] && IsWord(words[k]) && forall j | 0 <= j < k :: words[j] == 0
    ensures k * BITS + TrailingZeros(words[k]) in Ids(words)
    ensures forall id | id in Ids(words) :: k * BITS + TrailingZeros(words[k]) <= id
  {
    TrailingIsLowest(words[k]);
    LowestFits(words[k]);
    var low := k * BITS + TrailingZeros(words[k]);
    assert low / BITS == k && low % BITS == TrailingZeros(words[k]);
    forall id | id in Ids(words)
      ensures low <= id
    {
      if id / BITS < k {
        ZeroHasNone(id % BITS);
      }
    }
  }
}
