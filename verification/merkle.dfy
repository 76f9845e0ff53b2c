/** A binary hash tree over ordered byte leaves. Adjacent pairs of a level are
    hashed together into the next level; an odd trailing node is carried up
    unchanged. The tree yields a root and, per leaf, an inclusion proof that
    `ValidateProof` checks without the tree. */
module Merkle {
  import opened Common

  // ---------------------------------------------------------------- specification

  /** One proof step: the sibling's digest and the side it stands on
      (a `{'left': sibling}` or `{'right': sibling}` entry). */
  datatype ProofEntry = Left(sibling: Bytes) | Right(sibling: Bytes)

  /** The level above `level`: node k is `hash(l ‖ r)` of the pair at 2k,
      2k+1, and an odd trailing node is carried up unhashed. */
  function NextLevel(hash: HashFunction, level: seq<Bytes>): (next: seq<Bytes>)
    ensures |next| == (|level| + 1) / 2
    ensures |level| > 1 ==> |next| < |level|
  {
    seq((|level| + 1) / 2, k requires 0 <= k < (|level| + 1) / 2 =>
      if 2 * k + 1 < |level| then hash(level[2 * k] + level[2 * k + 1]) else level[2 * k])
  }

  /** All levels of the tree over a non-empty bottom level, top level first
      (the order in which the tree prepends them). */
  function Levels(hash: HashFunction, bottom: seq<Bytes>): (levels: seq<seq<Bytes>>)
    requires |bottom| > 0
    ensures |levels| > 0 && levels[|levels| - 1] == bottom && |levels[0]| == 1
    decreases |bottom|
  {
    if |bottom| == 1 then [bottom] else Levels(hash, NextLevel(hash, bottom)) + [bottom]
  }

  /** Every level but the top has more than one node, and the level above
      it is its `NextLevel`. */
  lemma {:induction false} LevelsShape(hash: HashFunction, bottom: seq<Bytes>, x: nat)
    requires |bottom| > 0 && 0 < x < |Levels(hash, bottom)|
    ensures var levels := Levels(hash, bottom);
      |levels[x]| > 1 && levels[x - 1] == NextLevel(hash, levels[x])
    decreases |bottom|
  {
    var levels := Levels(hash, bottom);
    var above := Levels(hash, NextLevel(hash, bottom));
    assert |bottom| > 1;
    assert levels == above + [bottom];
    if x < |above| {
      LevelsShape(hash, NextLevel(hash, bottom), x);
    }
  }

  /** Building one more level on top of a partial stack of levels. */
  lemma LevelsStep(hash: HashFunction, top: seq<Bytes>, rest: seq<seq<Bytes>>)
    requires |top| > 1
    ensures Levels(hash, NextLevel(hash, top)) + ([top] + rest) == Levels(hash, top) + rest
  {
  }

  /** The root over a non-empty level: the single node that repeated
      `NextLevel` leaves. */
  function Root(hash: HashFunction, level: seq<Bytes>): Bytes
    requires |level| > 0
    decreases |level|
  {
    if |level| == 1 then level[0] else Root(hash, NextLevel(hash, level))
  }

  /** The proof entry node i contributes at its own level: none for the
      odd trailing node, else its sibling, on the left iff i is odd. */
  function ProofStep(level: seq<Bytes>, i: nat): (step: seq<ProofEntry>)
    requires i < |level|
    ensures |step| <= 1
  {
    if i == |level| - 1 && |level| % 2 == 1 then []
    else if i % 2 == 1 then [Left(level[i - 1])]
    else [Right(level[i + 1])]
  }

  /** The proof for node i, bottom level first: every level below the top
      contributes its `ProofStep`, and the index halves on the way up. */
  function ProofFor(hash: HashFunction, level: seq<Bytes>, i: nat): seq<ProofEntry>
    requires i < |level|
    decreases |level|
  {
    if |level| == 1 then [] else ProofStep(level, i) + ProofFor(hash, NextLevel(hash, level), i / 2)
  }

  lemma ProofForUnfold(hash: HashFunction, level: seq<Bytes>, i: nat)
    requires i < |level| && |level| > 1
    ensures i / 2 < |NextLevel(hash, level)|
    ensures ProofFor(hash, level, i) == ProofStep(level, i) + ProofFor(hash, NextLevel(hash, level), i / 2)
  {
  }

  /** `get_proof`'s loop invariant survives one climb: the entries so far
      plus this level's step, followed by the proof of node i/2 of the level
      above, still make up the whole proof. */
  lemma ProofWalkStep(hash: HashFunction, level: seq<Bytes>, i: nat, entries: seq<ProofEntry>, whole: seq<ProofEntry>)
    requires 1 < |level| && i < |level|
    requires entries + ProofFor(hash, level, i) == whole
    ensures i / 2 < |NextLevel(hash, level)|
    ensures (entries + ProofStep(level, i)) + ProofFor(hash, NextLevel(hash, level), i / 2) == whole
  {
    ProofForUnfold(hash, level, i);
    var step, above := ProofStep(level, i), ProofFor(hash, NextLevel(hash, level), i / 2);
    assert entries + (step + above) == (entries + step) + above;
  }

  /** One fold step: a left sibling gives `hash(s ‖ acc)`, a right sibling
      `hash(acc ‖ s)`. */
  function Combine(hash: HashFunction, entry: ProofEntry, acc: Bytes): Bytes
  {
    match entry
    case Left(s) => hash(s + acc)
    case Right(s) => hash(acc + s)
  }

  function Fold(hash: HashFunction, proof: seq<ProofEntry>, acc: Bytes): Bytes
    decreases |proof|
  {
    if proof == [] then acc else Fold(hash, proof[1..], Combine(hash, proof[0], acc))
  }

  /** `validate_proof`: an empty proof holds iff the target is the root;
      otherwise the folded proof must reach the root. */
  function ValidateProof(hash: HashFunction, proof: seq<ProofEntry>, target: Bytes, root: Bytes): (valid: bool)
    ensures proof == [] ==> (valid <==> target == root)
    ensures proof != [] ==> (valid <==> Fold(hash, proof, target) == root)
  {
    if |proof| == 0 then target == root else Fold(hash, proof, target) == root
  }

  // ---------------------------------------------------------------- properties

  /** The top of the levels is the root. */
  lemma {:induction false} LevelsTopIsRoot(hash: HashFunction, bottom: seq<Bytes>)
    requires |bottom| > 0
    ensures Levels(hash, bottom)[0] == [Root(hash, bottom)]
    decreases |bottom|
  {
    if |bottom| > 1 {
      LevelsTopIsRoot(hash, NextLevel(hash, bottom));
    }
  }

  /** Node i of a level is what the level above holds at i/2 once node i's
      proof step (if any) is folded in. */
  lemma NextLevelAtHalf(hash: HashFunction, level: seq<Bytes>, i: nat)
    requires i < |level| && |level| > 1
    ensures i / 2 < |NextLevel(hash, level)|
    ensures NextLevel(hash, level)[i / 2] == Fold(hash, ProofStep(level, i), level[i])
  {
    var next := NextLevel(hash, level);
    var j := i / 2;
    assert i == 2 * j + i % 2;
    if i == |level| - 1 && |level| % 2 == 1 {
      assert next[j] == level[2 * j];
    } else if i % 2 == 1 {
      assert next[j] == hash(level[2 * j] + level[2 * j + 1]);
    } else {
      assert 2 * j + 1 < |level|;
      assert next[j] == hash(level[2 * j] + level[2 * j + 1]);
    }
  }

  /** Folding the proof of node i, starting from node i, reaches the root. */
  lemma {:induction false} FoldProofReachesRoot(hash: HashFunction, level: seq<Bytes>, i: nat)
    requires i < |level|
    ensures Fold(hash, ProofFor(hash, level, i), level[i]) == Root(hash, level)
    decreases |level|
  {
    if |level| > 1 {
      var next := NextLevel(hash, level);
      var step := ProofStep(level, i);
      NextLevelAtHalf(hash, level, i);
      FoldProofReachesRoot(hash, next, i / 2);
      FoldAppend(hash, step, ProofFor(hash, next, i / 2), level[i]);
    }
  }

  lemma {:induction false} FoldAppend(hash: HashFunction, p: seq<ProofEntry>, q: seq<ProofEntry>, acc: Bytes)
    ensures Fold(hash, p + q, acc) == Fold(hash, q, Fold(hash, p, acc))
    decreases |p|
  {
    if p != [] {
      assert (p + q)[0] == p[0] && (p + q)[1..] == p[1..] + q;
      FoldAppend(hash, p[1..], q, Combine(hash, p[0], acc));
    } else {
      assert p + q == q;
    }
  }

  /** Round trip: for every leaf of a non-empty tree, the proof the tree
      gives for it validates that leaf against the tree's root. */
  lemma ProofValidatesAgainstRoot(hash: HashFunction, leaves: seq<Bytes>, i: nat)
    requires i < |leaves|
    ensures ValidateProof(hash, ProofFor(hash, leaves, i), leaves[i], Root(hash, leaves))
  {
    FoldProofReachesRoot(hash, leaves, i);
  }

  /** A single-leaf tree has that leaf as its root and an empty proof. */
  lemma SingleLeafTree(hash: HashFunction, leaf: Bytes)
    ensures Root(hash, [leaf]) == leaf && ProofFor(hash, [leaf], 0) == []
    ensures Levels(hash, [leaf]) == [[leaf]]
  {
  }

  /** A proof has at most one entry per level below the top. */
  lemma {:induction false} ProofLength(hash: HashFunction, level: seq<Bytes>, i: nat)
    requires i < |level|
    ensures |ProofFor(hash, level, i)| <= |Levels(hash, level)| - 1
    decreases |level|
  {
    if |level| > 1 {
      ProofLength(hash, NextLevel(hash, level), i / 2);
    }
  }

  /** The odd trailing node of a level gets no sibling entry there: its
      proof is the proof of the carried node one level up. */
  lemma OddTrailingNodeSkipsLevel(hash: HashFunction, level: seq<Bytes>)
    requires |level| > 1 && |level| % 2 == 1
    ensures var next := NextLevel(hash, level);
      ProofFor(hash, level, |level| - 1) == ProofFor(hash, next, |next| - 1)
      && next[|next| - 1] == level[|level| - 1]
  {
    var next := NextLevel(hash, level);
    var m := (|level| - 1) / 2;
    assert |level| == 2 * m + 1 && |next| == m + 1;
    assert ProofStep(level, 2 * m) == [];
    ProofForUnfold(hash, level, 2 * m);
    assert next[m] == level[2 * m];
  }

  /** The leaves added under `do_hash` are the hashes of the values. */
  function Prepared(hash: HashFunction, values: seq<Bytes>, doHash: bool): (leaves: seq<Bytes>)
    ensures |leaves| == |values|
  {
    if doHash then seq(|values|, i requires 0 <= i < |values| => hash(values[i])) else values
  }

  // ---------------------------------------------------------------- the tree

  /** The body of `get_proof`'s loop for one level: the odd trailing node
      adds nothing, any other node its sibling on the proper side. */
  method SiblingStep(level: seq<Bytes>, idx: nat) returns (step: seq<ProofEntry>)
    requires idx < |level|
    ensures step == ProofStep(level, idx)
  {
    var levelLen := |level|;
    if idx == levelLen - 1 && levelLen % 2 == 1 {
      step := [];
    } else {
      var isRightNode := idx % 2 == 1;
      var siblingIndex := if isRightNode then idx - 1 else idx + 1;
      var entry := if isRightNode then Left(level[siblingIndex]) else Right(level[siblingIndex]);
      step := [entry];
    }
  }

  /** `get_proof`'s walk up the levels `lv` of a tree over `leaves`, from
      the bottom level to the one below the root, collecting the sibling of
      the current node and halving its index at every level. */
  method WalkLevels(hash: HashFunction, leaves: seq<Bytes>, lv: seq<seq<Bytes>>, index: nat) returns (entries: seq<ProofEntry>)
    requires index < |leaves| && lv == Levels(hash, leaves)
    ensures entries == ProofFor(hash, leaves, index)
  {
    entries := [];
    var idx: nat := index;
    var x := |lv| - 1;
    while x > 0
      invariant 0 <= x < |lv| && idx < |lv[x]|
      invariant entries + ProofFor(hash, lv[x], idx) == ProofFor(hash, leaves, index)
    {
      LevelsShape(hash, leaves, x);
      ProofWalkStep(hash, lv[x], idx, entries, ProofFor(hash, leaves, index));
      var step := SiblingStep(lv[x], idx);
      entries := entries + step;
      idx := idx / 2;
      x := x - 1;
    }
    assert entries + [] == entries;
  }

  /** `MerkleTree`: append-only leaves, the levels computed by the last
      `make_tree`, and the ready flag that `add_leaf` clears. */
  class MerkleTree {
    const hash: HashFunction
    var leaves: seq<Bytes>
    var levels: Option<seq<seq<Bytes>>>
    var isReady: bool

    /** Levels exist only over leaves; a ready tree's levels are those of
        its current leaves. */
    ghost predicate Valid()
      reads this
    {
      && (leaves == [] ==> levels == None)
      && (isReady && leaves != [] ==> levels == Some(Levels(hash, leaves)))
    }

    constructor (hash: HashFunction)
      ensures Valid() && this.hash == hash
      ensures leaves == [] && levels == None && !isReady
    {
      this.hash := hash;
      leaves, levels, isReady := [], None, false;
    }

    /** `reset_tree`: forget every leaf and level. */
    method ResetTree()
      modifies this
      ensures Valid()
      ensures leaves == [] && levels == None && !isReady
    {
      leaves, levels, isReady := [], None, false;
    }

    /** `add_leaf(values, do_hash)`: append the values in order, hashed
        first under `do_hash`; the tree is no longer ready. */
    method AddLeaf(values: seq<Bytes>, doHash: bool)
      requires Valid()
      modifies this
      ensures Valid() && !isReady && levels == old(levels)
      ensures leaves == old(leaves) + Prepared(hash, values, doHash)
    {
      isReady := false;
      for i := 0 to |values|
        invariant leaves == old(leaves) + Prepared(hash, values, doHash)[..i]
        invariant levels == old(levels) && !isReady
        invariant old(leaves) == [] ==> levels == None
      {
        var v := values[i];
        if doHash {
          v := hash(v);
        }
        leaves := leaves + [v];
        assert Prepared(hash, values, doHash)[..i + 1] == Prepared(hash, values, doHash)[..i] + [v];
      }
      assert Prepared(hash, values, doHash)[..|values|] == Prepared(hash, values, doHash);
    }

    /** `_calculate_next_level`: prepend the level above the current top. */
    method CalculateNextLevel()
      requires levels.Some? && |levels.value| > 0
      modifies this
      ensures levels == Some([NextLevel(hash, old(levels.value[0]))] + old(levels.value))
      ensures leaves == old(leaves) && isReady == old(isReady)
    {
      var top := levels.value[0];
      var n := |top|;
      var solo: Option<Bytes> := None;
      if n % 2 == 1 {
        solo := Some(top[n - 1]);
        n := n - 1;
      }
      var newLevel: seq<Bytes> := [];
      var k := 0;
      while k < n / 2
        invariant 0 <= k <= n / 2 && n == |top| - |top| % 2
        invariant newLevel == NextLevel(hash, top)[..k]
      {
        newLevel := newLevel + [hash(top[2 * k] + top[2 * k + 1])];
        k := k + 1;
      }
      if solo.Some? {
        newLevel := newLevel + [solo.value];
      }
      assert newLevel == NextLevel(hash, top);
      levels := Some([newLevel] + levels.value);
    }

    /** `make_tree`: build every level over the current leaves (none when
        there are no leaves) and mark the tree ready. */
    method MakeTree()
      requires Valid()
      modifies this
      ensures Valid() && isReady && leaves == old(leaves)
      ensures levels == if leaves == [] then None else Some(Levels(hash, leaves))
    {
      isReady := false;
      if |leaves| > 0 {
        levels := Some([leaves]);
        while |levels.value[0]| > 1
          invariant leaves == old(leaves) && |leaves| > 0 && !isReady
          invariant levels.Some? && |levels.value| > 0 && |levels.value[0]| > 0
          invariant Levels(hash, levels.value[0]) + levels.value[1..] == Levels(hash, leaves)
          decreases |levels.value[0]|
        {
          ghost var before := levels.value;
          CalculateNextLevel();
          assert levels.value[1..] == before;
          assert before == [before[0]] + before[1..];
          LevelsStep(hash, before[0], before[1..]);
        }
        assert Levels(hash, levels.value[0]) == [levels.value[0]];
        assert levels.value == [levels.value[0]] + levels.value[1..];
      }
      isReady := true;
    }

    /** `get_merkle_root`: the root of a ready, non-empty tree, else None. */
    method GetMerkleRoot() returns (root: Option<Bytes>)
      requires Valid()
      ensures root == if isReady && leaves != [] then Some(Root(hash, leaves)) else None
    {
      if isReady {
        if levels.Some? {
          LevelsTopIsRoot(hash, leaves);
          root := Some(levels.value[0][0]);
        } else {
          root := None;
        }
      } else {
        root := None;
      }
    }

    /** `get_proof(index)`: None without levels, when not ready, or for an
        index outside the leaves; otherwise the leaf's proof. */
    method GetProof(index: int) returns (proof: Option<seq<ProofEntry>>)
      requires Valid()
      ensures proof == if isReady && 0 <= index < |leaves| then Some(ProofFor(hash, leaves, index)) else None
    {
      if levels == None {
        return None;
      } else if !isReady || index > |leaves| - 1 || index < 0 {
        return None;
      }
      assert levels == Some(Levels(hash, leaves));
      var entries := WalkLevels(hash, leaves, levels.value, index);
      proof := Some(entries);
    }
  }
}
