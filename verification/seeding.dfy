/**
 * How seeds are handed down to the parts of a simulation: a component that
 * is seeded spawns one child seed sequence per part, in a fixed order, and
 * passes each child to its part if that part draws random numbers.
 *
 * numpy's `SeedSequence` is seen only through its spawn keys: the entropy
 * hashing that turns a key into random bits is not modelled, only that
 * children are told apart by their keys.
 */
module Seeding {
  import opened Common

  /** A seed sequence: the root entropy (None when numpy would draw it from the
    * operating system), the key that tells it apart from its siblings, and
    * how many children it has spawned so far. */
  datatype SeedSequence = SeedSequence(entropy: Option<int>, spawnKey: seq<nat>, childrenSpawned: nat)

  /** A fresh root sequence, as `SeedSequence(seed)` builds it. */
  function Root(seed: Option<int>): (s: SeedSequence)
    ensures s.entropy == seed && s.spawnKey == [] && s.childrenSpawned == 0
  {
    SeedSequence(seed, [], 0)
  }

  /** `spawn(n)`: the parent afterwards, and `n` children whose keys extend the
    * parent's key by the running child count. */
  function Spawn(s: SeedSequence, n: nat): (r: (SeedSequence, seq<SeedSequence>))
    ensures r.0 == s.(childrenSpawned := s.childrenSpawned + n)
    ensures |r.1| == n
    ensures forall i :: 0 <= i < n ==>
              r.1[i] == SeedSequence(s.entropy, s.spawnKey + [s.childrenSpawned + i], 0)
  {
    (s.(childrenSpawned := s.childrenSpawned + n),
     seq(n, i requires 0 <= i < n => SeedSequence(s.entropy, s.spawnKey + [s.childrenSpawned + i], 0)))
  }

  /** The children of one spawn are pairwise different, and different from
    * the children of any later spawn of the same parent. */
  lemma SpawnedChildrenDistinct(s: SeedSequence, n: nat, m: nat)
    ensures forall i, j :: 0 <= i < j < n ==> Spawn(s, n).1[i] != Spawn(s, n).1[j]
    ensures forall i, j :: 0 <= i < n && 0 <= j < m ==> Spawn(s, n).1[i] != Spawn(Spawn(s, n).0, m).1[j]
  {
    var first := Spawn(s, n).1;
    var second := Spawn(Spawn(s, n).0, m).1;
    forall i, j | 0 <= i < j < n ensures first[i] != first[j] {
      assert first[i].spawnKey[|s.spawnKey|] != first[j].spawnKey[|s.spawnKey|];
    }
    forall i, j | 0 <= i < n && 0 <= j < m ensures first[i] != second[j] {
      assert first[i].spawnKey[|s.spawnKey|] != second[j].spawnKey[|s.spawnKey|];
    }
  }

  /** The seeding loop `for component, sub_seed in zip(components,
    * sub_seeds)`: part `i` gets child `i` if it is random, and nothing
    * otherwise. */
  method DistributeSeeds(children: seq<SeedSequence>, isRandom: seq<bool>) returns (given: seq<Option<SeedSequence>>)
    requires |children| == |isRandom|
    ensures |given| == |isRandom|
    ensures forall i :: 0 <= i < |isRandom| ==> given[i] == (if isRandom[i] then Some(children[i]) else None)
  {
    given := [];
    for i := 0 to |isRandom|
      invariant |given| == i
      invariant forall j :: 0 <= j < i ==> given[j] == (if isRandom[j] then Some(children[j]) else None)
    {
      if isRandom[i] {
        given := given + [Some(children[i])];
      } else {
        given := given + [None];
      }
    }
  }

  /** No two parts receive the same child seed. */
  lemma DistributedSeedsDistinct(s: SeedSequence, isRandom: seq<bool>, given: seq<Option<SeedSequence>>)
    requires |given| == |isRandom|
    requires forall i :: 0 <= i < |isRandom| ==>
               given[i] == (if isRandom[i] then Some(Spawn(s, |isRandom|).1[i]) else None)
    ensures forall i, j :: 0 <= i < j < |given| && given[i].Some? && given[j].Some? ==> given[i] != given[j]
  {
    SpawnedChildrenDistinct(s, |isRandom|, 0);
  }
}
