/** The bullet pool of src/App.ts: `addBullets` builds a fixed number of sphere meshes, each
    with a physics impostor, and `throwBullet` launches the one at a ring index and moves the
    index on, wrapping to 0. Meshes are identified by the number in their name; their
    positions are not modelled. */
module BulletPool {

  /** The default pool size of `addBullets`. */
  const MaxBullets: nat := 20

  /** The factor `throwBullet` scales the camera's forward direction by. */
  const LaunchScale: int := 10

  /** The sphere named `spere<id>_shadow`, and whether it (still) has a physics impostor. */
  datatype Bullet = Bullet(id: nat, hasImpostor: bool)

  /** `addBullets(scene, maxBullets)`: the loop that pushes one sphere per index. */
  method AddBullets(maxBullets: nat) returns (bullets: seq<Bullet>)
    ensures |bullets| == maxBullets
    ensures forall i :: 0 <= i < |bullets| ==> bullets[i] == Bullet(i, true)
  {
    bullets := [];
    for i := 0 to maxBullets
      invariant |bullets| == i
      invariant forall k :: 0 <= k < i ==> bullets[k] == Bullet(k, true)
    {
      bullets := bullets + [Bullet(i, true)];
    }
  }

  /** How a call of `throwBullet` ends: no scene or no active camera; the slot at the index
      holds no mesh (reading its position throws a TypeError); the mesh has no impostor (it is
      moved to the camera but not launched); or it is launched with the given velocity scale. */
  datatype ThrowOutcome = NotReady | MissingBullet | NoImpostor | Launched(slot: nat, velocityScale: int)

  /** The outcome and the index the next throw will use. */
  datatype ThrowResult = ThrowResult(outcome: ThrowOutcome, index: nat)

  /** One `throwBullet(speed)` on a pool at a given index, when the scene and its active camera
      are present (`sceneReady`) or not. */
  function ThrowStep(pool: seq<Bullet>, index: nat, sceneReady: bool, speed: real): (r: ThrowResult)
    // without a scene or camera nothing happens
    ensures !sceneReady ==> r == ThrowResult(NotReady, index)
    // a bullet is launched exactly when the scene is ready and the slot holds a mesh with an impostor
    ensures r.outcome.Launched? <==> sceneReady && index < |pool| && pool[index].hasImpostor
    // in a ready scene, an empty slot is the TypeError and a mesh without impostor is only moved
    ensures r.outcome == MissingBullet <==> sceneReady && index >= |pool|
    ensures r.outcome == NoImpostor <==> sceneReady && index < |pool| && !pool[index].hasImpostor
    // the index moves only on a launch, and then by one around the ring
    ensures !r.outcome.Launched? ==> r.index == index
    ensures r.outcome.Launched? ==> r.outcome.slot == index && r.index == (index + 1) % |pool|
    // the launch velocity is the fixed scale, whatever the speed argument
    ensures r.outcome.Launched? ==> r.outcome.velocityScale == LaunchScale
    // an index inside the pool stays inside it
    ensures index < |pool| ==> r.index < |pool|
  {
    if !sceneReady then ThrowResult(NotReady, index)
    else if index >= |pool| then ThrowResult(MissingBullet, index)
    else if !pool[index].hasImpostor then ThrowResult(NoImpostor, index)
    else
      var next := index + 1;
      ThrowResult(Launched(index, LaunchScale), if next >= |pool| then 0 else next)
  }

  /** The index after `k` throws in a ready scene. */
  function IndexAfterThrows(pool: seq<Bullet>, index: nat, k: nat): nat
  {
    if k == 0 then index
    else ThrowStep(pool, IndexAfterThrows(pool, index, k - 1), true, 0.0).index
  }

  /** Every mesh of the pool has an impostor, as `addBullets` leaves it. */
  predicate AllLaunchable(pool: seq<Bullet>)
  {
    forall i :: 0 <= i < |pool| ==> pool[i].hasImpostor
  }

  /** In a pool whose meshes all have impostors, `k` throws advance the index by `k` around the
      ring; in particular a whole round of `|pool|` throws comes back to the start. */
  lemma {:induction false} ThrowsGoRoundTheRing(pool: seq<Bullet>, index: nat, k: nat)
    requires AllLaunchable(pool) && index < |pool|
    ensures IndexAfterThrows(pool, index, k) == (index + k) % |pool|
  {
    if k > 0 {
      ThrowsGoRoundTheRing(pool, index, k - 1);
      var n := |pool|;
      var prev := IndexAfterThrows(pool, index, k - 1);
      assert prev == (index + k - 1) % n;
      assert prev < n && pool[prev].hasImpostor;
      assert IndexAfterThrows(pool, index, k) == (prev + 1) % n;
      ModSuccessor(index + k - 1, n);
    }
  }

  /** A whole round of throws, one per mesh, brings the index back to where it started. */
  lemma FullRoundReturns(pool: seq<Bullet>, index: nat)
    requires AllLaunchable(pool) && index < |pool|
    ensures IndexAfterThrows(pool, index, |pool|) == index
  {
    ThrowsGoRoundTheRing(pool, index, |pool|);
    ModUnique(index + |pool|, 1, index, |pool|);
  }

  /** `(x mod n + 1) mod n == (x + 1) mod n`: one more step around a ring of `n`. */
  lemma ModSuccessor(x: nat, n: nat)
    requires n > 0
    ensures (x % n + 1) % n == (x + 1) % n
  {
    var q, r := x / n, x % n;
    assert x == q * n + r;
    if r + 1 == n {
      ModUnique(x + 1, q + 1, 0, n);
      ModUnique(r + 1, 1, 0, n);
    } else {
      ModUnique(x + 1, q, r + 1, n);
      ModUnique(r + 1, 0, r + 1, n);
    }
  }

  /** A remainder in `[0, n)` of any quotient is the remainder. */
  lemma ModUnique(x: int, q: int, r: int, n: int)
    requires n > 0 && 0 <= r < n && x == q * n + r
    ensures x % n == r
  {
    var q', r' := x / n, x % n;
    assert x == q' * n + r';
    if q > q' {
      MulAtLeast(q - q', n);
    } else if q < q' {
      MulAtLeast(q' - q, n);
    }
  }

  /** A positive multiple of `n` is at least `n`. */
  lemma {:induction false} MulAtLeast(a: int, n: int)
    requires a >= 1 && n > 0
    ensures a * n >= n
  {
    if a > 1 {
      MulAtLeast(a - 1, n);
      assert a * n == (a - 1) * n + n;
    }
  }

  /** A mesh without an impostor blocks the ring: however often it is thrown, the index stays
      on it, so the same slot is chosen every time. */
  lemma {:induction false} MissingImpostorBlocks(pool: seq<Bullet>, index: nat, k: nat)
    requires index < |pool| && !pool[index].hasImpostor
    ensures IndexAfterThrows(pool, index, k) == index
  {
    if k > 0 {
      MissingImpostorBlocks(pool, index, k - 1);
    }
  }
}
