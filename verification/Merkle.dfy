/** Merkle branches: rebuilding the root from a leaf and its branch, and what a branch binds. */
module Merkle {
  import opened Collections

  /** The width of level `k` above `n` leaves. */
  function Width(n: nat, k: nat): (w: nat)
    ensures n > 0 ==> 0 < w <= n
  {
    if k == 0 then n else (Width(n, k - 1) + 1) / 2
  }

  /** The tree, top down: a node hashes its two children, and a last child without a sibling
      stands for both. */
  function Node<H>(hash: (H, H) -> H, leaves: seq<H>, k: nat, i: nat): H
    requires i < Width(|leaves|, k)
  {
    if k == 0 then leaves[i]
    else hash(Node(hash, leaves, k - 1, 2 * i),
              Node(hash, leaves, k - 1, if 2 * i + 1 < Width(|leaves|, k - 1) then 2 * i + 1 else 2 * i))
  }

  /** The root's level: the first one with a single node. */
  ghost predicate IsDepth(n: nat, d: nat) {
    Width(n, d) == 1 && forall k :: 0 <= k < d ==> Width(n, k) > 1
  }

  lemma DepthUnique(n: nat, a: nat, b: nat)
    requires IsDepth(n, a) && IsDepth(n, b)
    ensures a == b
  {
    hide Width;
  }

  /** The position of a leaf's ancestor, `k` levels up. */
  function Ancestor(index: nat, k: nat): nat {
    if k == 0 then index else Ancestor(index, k - 1) / 2
  }

  function Combine<H>(hash: (H, H) -> H, at: nat, node: H, sibling: H): H {
    if at % 2 == 0 then hash(node, sibling) else hash(sibling, node)
  }

  /** What a client computes from a leaf, its position and a branch. */
  function Climb<H>(hash: (H, H) -> H, leaf: H, index: nat, branch: seq<H>): H {
    if |branch| == 0 then leaf
    else
      var k := |branch| - 1;
      Combine(hash, Ancestor(index, k), Climb(hash, leaf, index, branch[..k]), branch[k])
  }

  /** `level` is level `k` of the tree. */
  ghost predicate IsLevel<H>(hash: (H, H) -> H, leaves: seq<H>, k: nat, level: seq<H>) {
    |level| == Width(|leaves|, k) && forall i :: 0 <= i < |level| ==> level[i] == Node(hash, leaves, k, i)
  }

  /** An odd level is padded with its last node. */
  function Padded<H>(level: seq<H>): (r: seq<H>)
    requires |level| > 0
    ensures |r| % 2 == 0 && |r| / 2 == (|level| + 1) / 2
    ensures forall i :: 0 <= i < |r| ==> r[i] == if i < |level| then level[i] else level[|level|-1]
  {
    if |level| % 2 == 1 then level + [level[|level|-1]] else level
  }

  /** The branch of the leaf at `index`, and the root: it is the root of the whole tree,
      whatever the index, and climbing the branch from the leaf rebuilds it. */
  method BranchAndRoot<H>(hash: (H, H) -> H, leaves: seq<H>, index: nat) returns (branch: seq<H>, root: H)
    requires index < |leaves|
    ensures IsDepth(|leaves|, |branch|) && root == Node(hash, leaves, |branch|, 0)
    ensures Climb(hash, leaves[index], index, branch) == root
  {
    hide Climb, Node, Width, Combine, IsLevel;
    branch := [];
    var level, idx: nat := leaves, index;
    LeavesAreLevel(hash, leaves, index);
    while |level| > 1
      invariant IsLevel(hash, leaves, |branch|, level) && |level| == Width(|leaves|, |branch|)
      invariant idx == Ancestor(index, |branch|) && idx < |level|
      invariant Climb(hash, leaves[index], index, branch) == level[idx]
      invariant forall k :: 0 <= k < |branch| ==> Width(|leaves|, k) > 1
      decreases |level|
    {
      var padded := Padded(level);
      var sibling: nat := if idx % 2 == 0 then idx + 1 else idx - 1;
      var next := HashPairs(hash, padded);
      LevelUp(hash, leaves, |branch|, level, next);
      ClimbUp(hash, leaves[index], index, branch, padded[sibling], level[idx]);
      Paired(hash, padded, next, idx, sibling);
      branch := branch + [padded[sibling]];
      level, idx := next, idx / 2;
    }
    root := level[0];
    RootOfLevel(hash, leaves, |branch|, level);
  }

  /** Hashes a level pairwise. */
  method HashPairs<H>(hash: (H, H) -> H, padded: seq<H>) returns (next: seq<H>)
    requires |padded| % 2 == 0
    ensures |next| == |padded| / 2 && forall i :: 0 <= i < |next| ==> next[i] == hash(padded[2 * i], padded[2 * i + 1])
  {
    next := [];
    while 2 * |next| < |padded|
      invariant 2 * |next| <= |padded| && forall i :: 0 <= i < |next| ==> next[i] == hash(padded[2 * i], padded[2 * i + 1])
      decreases |padded| - 2 * |next|
    {
      var i: nat := |next|;
      next := next + [hash(padded[2 * i], padded[2 * i + 1])];
    }
  }

  lemma LeavesAreLevel<H>(hash: (H, H) -> H, leaves: seq<H>, index: nat)
    requires index < |leaves|
    ensures IsLevel(hash, leaves, 0, leaves) && Climb(hash, leaves[index], index, []) == leaves[index]
    ensures Width(|leaves|, 0) == |leaves|
  {}

  lemma LevelUp<H>(hash: (H, H) -> H, leaves: seq<H>, k: nat, level: seq<H>, next: seq<H>)
    requires IsLevel(hash, leaves, k, level) && |level| > 1
    requires |next| == |Padded(level)| / 2
    requires forall i :: 0 <= i < |next| ==> next[i] == hash(Padded(level)[2 * i], Padded(level)[2 * i + 1])
    ensures IsLevel(hash, leaves, k + 1, next) && |next| == Width(|leaves|, k + 1)
  {
    var padded := Padded(level);
    forall i | 0 <= i < |next| ensures next[i] == Node(hash, leaves, k + 1, i) {
      assert padded[2 * i] == level[2 * i];
      assert padded[2 * i + 1] == level[if 2 * i + 1 < |level| then 2 * i + 1 else 2 * i];
    }
  }

  lemma ClimbUp<H>(hash: (H, H) -> H, leaf: H, index: nat, branch: seq<H>, sibling: H, node: H)
    requires Climb(hash, leaf, index, branch) == node
    ensures Climb(hash, leaf, index, branch + [sibling]) == Combine(hash, Ancestor(index, |branch|), node, sibling)
    ensures Ancestor(index, |branch + [sibling]|) == Ancestor(index, |branch|) / 2
  {
    hide Combine;
    Snoc(branch, sibling);
  }

  lemma Paired<H>(hash: (H, H) -> H, padded: seq<H>, next: seq<H>, idx: nat, sibling: nat)
    requires |padded| % 2 == 0 && idx < |padded| && sibling == if idx % 2 == 0 then idx + 1 else idx - 1
    requires |next| == |padded| / 2 && forall i :: 0 <= i < |next| ==> next[i] == hash(padded[2 * i], padded[2 * i + 1])
    ensures sibling < |padded| && idx / 2 < |next|
    ensures next[idx / 2] == Combine(hash, idx, padded[idx], padded[sibling])
  {
    var i := idx / 2;
    assert idx == if idx % 2 == 0 then 2 * i else 2 * i + 1;
    assert next[i] == hash(padded[2 * i], padded[2 * i + 1]);
  }

  lemma RootOfLevel<H>(hash: (H, H) -> H, leaves: seq<H>, k: nat, level: seq<H>)
    requires IsLevel(hash, leaves, k, level) && |level| == 1
    ensures level[0] == Node(hash, leaves, k, 0) && Width(|leaves|, k) == 1
  {
    hide Node;
  }

  /** Three leaves, spelled out: the third stands for its missing sibling, and the branches are these. */
  lemma ThreeLeaves<H>(hash: (H, H) -> H, a: H, b: H, c: H)
    ensures IsDepth(3, 2) && Node(hash, [a, b, c], 2, 0) == hash(hash(a, b), hash(c, c))
    ensures Climb(hash, a, 0, [b, hash(c, c)]) == Climb(hash, b, 1, [a, hash(c, c)]) == Climb(hash, c, 2, [c, hash(a, b)])
            == hash(hash(a, b), hash(c, c))
  {
    var leaves := [a, b, c];
    assert Width(3, 0) == 3 && Width(3, 1) == 2 && Width(3, 2) == 1;
    assert Node(hash, leaves, 0, 0) == a && Node(hash, leaves, 0, 1) == b && Node(hash, leaves, 0, 2) == c;
    assert Node(hash, leaves, 1, 0) == hash(a, b) && Node(hash, leaves, 1, 1) == hash(c, c);
    TwoSteps(hash, a, 0, b, hash(c, c));
    TwoSteps(hash, b, 1, a, hash(c, c));
    TwoSteps(hash, c, 2, c, hash(a, b));
  }

  lemma TwoSteps<H>(hash: (H, H) -> H, leaf: H, index: nat, x: H, y: H)
    ensures Climb(hash, leaf, index, [x, y]) == Combine(hash, index / 2, Combine(hash, index, leaf, x), y)
  {
    assert [x, y][..1] == [x] && [x][..0] == [];
    assert Climb(hash, leaf, index, []) == leaf;
    assert Ancestor(index, 0) == index && Ancestor(index, 1) == index / 2;
  }

  ghost predicate Injective<H(!new)>(hash: (H, H) -> H) {
    forall a, b, c, d :: hash(a, b) == hash(c, d) ==> a == c && b == d
  }

  /** With an injective hash, at one position two climbs of the same length that end at the same
      root start from the same leaf and use the same branch. */
  lemma {:induction false} ClimbBinds<H(!new)>(hash: (H, H) -> H, index: nat, a: H, x: seq<H>, b: H, y: seq<H>)
    requires Injective(hash) && |x| == |y|
    requires Climb(hash, a, index, x) == Climb(hash, b, index, y)
    ensures a == b && x == y
    decreases |x|
  {
    if |x| == 0 {
      Nil(x);
      Nil(y);
    } else {
      var k := |x| - 1;
      CombineBinds(hash, Ancestor(index, k), Climb(hash, a, index, x[..k]), x[k], Climb(hash, b, index, y[..k]), y[k]);
      ClimbBinds(hash, index, a, x[..k], b, y[..k]);
      Split(x);
      Split(y);
    }
  }

  lemma CombineBinds<H(!new)>(hash: (H, H) -> H, at: nat, a: H, x: H, b: H, y: H)
    requires Injective(hash) && Combine(hash, at, a, x) == Combine(hash, at, b, y)
    ensures a == b && x == y
  {}

  /** No other leaf verifies at a position against the root with a branch of its length. */
  lemma NoOtherLeaf<H(!new)>(hash: (H, H) -> H, leaves: seq<H>, index: nat, branch: seq<H>, other: H, forged: seq<H>)
    requires Injective(hash) && index < |leaves| && IsDepth(|leaves|, |branch|)
    requires Climb(hash, leaves[index], index, branch) == Node(hash, leaves, |branch|, 0)
    requires IsDepth(|leaves|, |forged|) && Climb(hash, other, index, forged) == Node(hash, leaves, |forged|, 0)
    ensures other == leaves[index] && forged == branch
  {
    hide Climb, Node;
    DepthUnique(|leaves|, |branch|, |forged|);
    ClimbBinds(hash, index, leaves[index], branch, other, forged);
  }
}
