/** The bullet sweep of one frame: the bubbles are tested against the bullets
    from the last index down to the first; a bubble that a bullet hits is
    erased, consumes that bullet, and may leave two children at the end of the
    vector, which the sweep never reaches. */
module Sweeps {
  import opened Bubbles
  import opened Shooters
  import opened PlayField

  /** The bubbles a hit bubble splits into: two halves moving apart along x,
      at rest vertically, while half its radius is still at the threshold. */
  function Children(b: BubbleState): (cs: seq<BubbleState>)
    ensures |cs| == (if b.r / 2.0 >= BUBBLE_RADIUS_THRESHOLD then 2 else 0)
    ensures forall c :: c in cs ==>
      c.x == b.x && c.y == b.y && c.r == b.r / 2.0 && c.vy == 0.0 && c.color == b.color
    ensures |cs| == 2 ==> cs[0].vx == b.vx && cs[1].vx == -b.vx
  {
    if b.r / 2.0 >= BUBBLE_RADIUS_THRESHOLD then
      [BubbleState(b.x, b.y, b.r / 2.0, b.vx, 0.0, b.color),
       BubbleState(b.x, b.y, b.r / 2.0, -b.vx, 0.0, b.color)]
    else []
  }

  /** The state of a sweep: the untouched bubbles behind the cursor (`kept`,
      in order), the children appended so far (`spawned`), the bullets left,
      and for every bubble already tested whether it was hit. */
  datatype Sweep = Sweep(kept: seq<BubbleState>, spawned: seq<BubbleState>, bullets: seq<Bullet>, hit: seq<bool>)

  /** The sweep with bubbles `B[..i]` still to test, from `B[i - 1]` down. */
  function SweepFrom(B: seq<BubbleState>, i: nat, acc: Sweep): Sweep
    requires i <= |B|
    decreases i
  {
    if i == 0 then acc else SweepFrom(B, i - 1, SweepOne(B, i, acc))
  }

  /** The whole sweep of the bubbles `B` against the bullets. */
  function SweepAll(B: seq<BubbleState>, bullets: seq<Bullet>): Sweep
  {
    SweepFrom(B, |B|, Sweep([], [], bullets, []))
  }

  /** The number of hits. */
  function CountTrue(H: seq<bool>): nat
  {
    if H == [] then 0 else CountTrue(H[..|H| - 1]) + (if H[|H| - 1] then 1 else 0)
  }

  /** The bubbles of `B` whose flag in `H` is false, in order. */
  function Unhit(B: seq<BubbleState>, H: seq<bool>): seq<BubbleState>
    requires |B| == |H|
  {
    if B == [] then []
    else Unhit(B[..|B| - 1], H[..|H| - 1]) + (if H[|H| - 1] then [] else [B[|B| - 1]])
  }

  /** The children of the bubbles of `B` whose flag in `H` is true, the
      children of a later bubble first. */
  function Offspring(B: seq<BubbleState>, H: seq<bool>): seq<BubbleState>
    requires |B| == |H|
  {
    if B == [] then []
    else (if H[|H| - 1] then Children(B[|B| - 1]) else []) + Offspring(B[..|B| - 1], H[..|H| - 1])
  }

  /** The number of hit bubbles large enough to split. */
  function CountSplits(B: seq<BubbleState>, H: seq<bool>): nat
    requires |B| == |H|
  {
    if B == [] then 0
    else
      var split := H[|H| - 1] && B[|B| - 1].r / 2.0 >= BUBBLE_RADIUS_THRESHOLD;
      CountSplits(B[..|B| - 1], H[..|H| - 1]) + (if split then 1 else 0)
  }

  /** One step of the sweep, read off a prefix of one more element. */
  lemma PrefixStep<T>(s: seq<T>, i: nat)
    requires 0 < i <= |s|
    ensures s[..i][..i - 1] == s[..i - 1] && s[..i][i - 1] == s[i - 1] && |s[..i]| == i
  {
  }

  /** The sweep state after testing `B[i - 1]`. */
  function SweepOne(B: seq<BubbleState>, i: nat, acc: Sweep): Sweep
    requires 0 < i <= |B|
  {
    var b := B[i - 1];
    var c := Collide(acc.bullets, b);
    if c.hit then Sweep(acc.kept, acc.spawned + Children(b), c.rest, [true] + acc.hit)
    else Sweep([b] + acc.kept, acc.spawned, acc.bullets, [false] + acc.hit)
  }

  /** The parts of the sweep state after testing `B[i - 1]`. */
  lemma SweepOneParts(B: seq<BubbleState>, i: nat, acc: Sweep)
    requires 0 < i <= |B|
    ensures var c := Collide(acc.bullets, B[i - 1]);
      var a := SweepOne(B, i, acc);
      && a.kept == (if c.hit then [] else [B[i - 1]]) + acc.kept
      && a.spawned == acc.spawned + (if c.hit then Children(B[i - 1]) else [])
      && a.bullets == c.rest
      && a.hit == [c.hit] + acc.hit
  {
  }

  lemma SweepFromUnfold(B: seq<BubbleState>, i: nat, acc: Sweep)
    requires 0 < i <= |B|
    ensures SweepFrom(B, i, acc) == SweepFrom(B, i - 1, SweepOne(B, i, acc))
  {
  }

  /** A sweep from index `i` sets one flag per bubble of `B[..i]` in front of those it had. */
  lemma {:induction false} SweepFromFlags(B: seq<BubbleState>, i: nat, acc: Sweep)
    requires i <= |B| && |acc.hit| == |B| - i
    ensures |SweepFrom(B, i, acc).hit| == |B| && SweepFrom(B, i, acc).hit[i..] == acc.hit
    ensures i > 0 ==> SweepFrom(B, i, acc).hit[i - 1] == Collide(acc.bullets, B[i - 1]).hit
    decreases i
  {
    if i > 0 {
      var acc' := SweepOne(B, i, acc);
      SweepFromUnfold(B, i, acc);
      SweepFromFlags(B, i - 1, acc');
      var r := SweepFrom(B, i, acc);
      assert r.hit[i - 1..] == acc'.hit;
      assert r.hit[i - 1] == r.hit[i - 1..][0];
      assert r.hit[i..] == r.hit[i - 1..][1..];
    }
  }

  /** The kept bubbles after testing bubble `i - 1` with flag `H[i - 1]`, in
      the terms of `Unhit` over the prefix one longer. */
  lemma KeptStep(B: seq<BubbleState>, H: seq<bool>, i: nat, kept: seq<BubbleState>, kept': seq<BubbleState>)
    requires 0 < i <= |B| == |H|
    requires kept' == Unhit(B[..i - 1], H[..i - 1]) + ((if H[i - 1] then [] else [B[i - 1]]) + kept)
    ensures kept' == Unhit(B[..i], H[..i]) + kept
  {
    UnhitLast(B, H, i);
  }

  /** The children after testing bubble `i - 1` with flag `H[i - 1]`, in the
      terms of `Offspring` over the prefix one longer. */
  lemma SpawnedStep(B: seq<BubbleState>, H: seq<bool>, i: nat, spawned: seq<BubbleState>, spawned': seq<BubbleState>)
    requires 0 < i <= |B| == |H|
    requires spawned' == (spawned + (if H[i - 1] then Children(B[i - 1]) else [])) + Offspring(B[..i - 1], H[..i - 1])
    ensures spawned' == spawned + Offspring(B[..i], H[..i])
  {
    OffspringLast(B, H, i);
  }

  /** The kept bubbles of a sweep from index `i`. */
  lemma {:induction false} SweepFromKept(B: seq<BubbleState>, i: nat, acc: Sweep)
    requires i <= |B| && |acc.hit| == |B| - i
    ensures |SweepFrom(B, i, acc).hit| == |B|
    ensures SweepFrom(B, i, acc).kept == Unhit(B[..i], SweepFrom(B, i, acc).hit[..i]) + acc.kept
    decreases i
  {
    SweepFromFlags(B, i, acc);
    if i > 0 {
      var acc' := SweepOne(B, i, acc);
      SweepFromUnfold(B, i, acc);
      var r := SweepFrom(B, i, acc);
      SweepOneParts(B, i, acc);
      SweepFromKept(B, i - 1, acc');
      KeptStep(B, r.hit, i, acc.kept, r.kept);
    }
  }

  /** `Unhit` over a prefix, one element shorter. */
  lemma UnhitLast(B: seq<BubbleState>, H: seq<bool>, i: nat)
    requires 0 < i <= |B| == |H|
    ensures Unhit(B[..i], H[..i]) == Unhit(B[..i - 1], H[..i - 1]) + (if H[i - 1] then [] else [B[i - 1]])
  {
    PrefixStep(B, i);
    PrefixStep(H, i);
  }

  /** `Offspring` over a prefix, one element shorter. */
  lemma OffspringLast(B: seq<BubbleState>, H: seq<bool>, i: nat)
    requires 0 < i <= |B| == |H|
    ensures Offspring(B[..i], H[..i]) == (if H[i - 1] then Children(B[i - 1]) else []) + Offspring(B[..i - 1], H[..i - 1])
  {
    PrefixStep(B, i);
    PrefixStep(H, i);
  }

  /** The children of a sweep from index `i`. */
  lemma {:induction false} SweepFromSpawned(B: seq<BubbleState>, i: nat, acc: Sweep)
    requires i <= |B| && |acc.hit| == |B| - i
    ensures |SweepFrom(B, i, acc).hit| == |B|
    ensures SweepFrom(B, i, acc).spawned == acc.spawned + Offspring(B[..i], SweepFrom(B, i, acc).hit[..i])
    decreases i
  {
    SweepFromFlags(B, i, acc);
    if i > 0 {
      var acc' := SweepOne(B, i, acc);
      SweepFromUnfold(B, i, acc);
      var r := SweepFrom(B, i, acc);
      SweepOneParts(B, i, acc);
      SweepFromSpawned(B, i - 1, acc');
      SpawnedStep(B, r.hit, i, acc.spawned, r.spawned);
    }
  }

  /** Each hit of a sweep from index `i` uses up one bullet. */
  lemma {:induction false} SweepFromBulletCount(B: seq<BubbleState>, i: nat, acc: Sweep)
    requires i <= |B| && |acc.hit| == |B| - i
    ensures var r := SweepFrom(B, i, acc);
      |r.hit| == |B| && |r.bullets| + CountTrue(r.hit[..i]) == |acc.bullets|
    decreases i
  {
    SweepFromFlags(B, i, acc);
    if i > 0 {
      var acc' := SweepOne(B, i, acc);
      SweepFromUnfold(B, i, acc);
      CollideConsumes(acc.bullets, B[i - 1]);
      SweepFromBulletCount(B, i - 1, acc');
      PrefixStep(SweepFrom(B, i, acc).hit, i);
    }
  }

  /** A sweep from index `i` brings in no bullet. */
  lemma {:induction false} SweepFromBulletsSubset(B: seq<BubbleState>, i: nat, acc: Sweep)
    requires i <= |B|
    ensures forall u :: u in SweepFrom(B, i, acc).bullets ==> u in acc.bullets
    decreases i
  {
    if i > 0 {
      var acc' := SweepOne(B, i, acc);
      SweepFromUnfold(B, i, acc);
      CollideConsumes(acc.bullets, B[i - 1]);
      SweepFromBulletsSubset(B, i - 1, acc');
    }
  }

  /** Every bubble a sweep from index `i` flags as hit overlaps a bullet it started with. */
  lemma {:induction false} SweepFromHitsJustified(B: seq<BubbleState>, i: nat, acc: Sweep)
    requires i <= |B| && |acc.hit| == |B| - i
    ensures var r := SweepFrom(B, i, acc);
      |r.hit| == |B| && forall j :: 0 <= j < i && r.hit[j] ==> exists u :: u in acc.bullets && Hits(B[j], u)
    decreases i
  {
    SweepFromFlags(B, i, acc);
    if i > 0 {
      var b := B[i - 1];
      var acc' := SweepOne(B, i, acc);
      SweepFromUnfold(B, i, acc);
      CollideConsumes(acc.bullets, b);
      CollideSpec(acc.bullets, b);
      SweepFromHitsJustified(B, i - 1, acc');
      var r := SweepFrom(B, i, acc);
      forall j | 0 <= j < i && r.hit[j]
        ensures exists u :: u in acc.bullets && Hits(B[j], u)
      {
        if j == i - 1 {
          var k :| 0 <= k < |acc.bullets| && Hits(b, acc.bullets[k]);
          assert acc.bullets[k] in acc.bullets;
        } else {
          var u :| u in acc'.bullets && Hits(B[j], u);
          assert u in acc.bullets;
        }
      }
    }
  }

  /** No bullet left after a sweep from index `i` overlaps a bubble of `B[..i]`
      that it did not flag as hit. */
  lemma {:induction false} SweepFromMissesJustified(B: seq<BubbleState>, i: nat, acc: Sweep)
    requires i <= |B| && |acc.hit| == |B| - i
    ensures var r := SweepFrom(B, i, acc);
      |r.hit| == |B| && forall j, u :: 0 <= j < i && !r.hit[j] && u in r.bullets ==> !Hits(B[j], u)
    decreases i
  {
    SweepFromFlags(B, i, acc);
    if i > 0 {
      var b := B[i - 1];
      var acc' := SweepOne(B, i, acc);
      SweepFromUnfold(B, i, acc);
      CollideSpec(acc.bullets, b);
      SweepFromMissesJustified(B, i - 1, acc');
      SweepFromBulletsSubset(B, i - 1, acc');
      var r := SweepFrom(B, i, acc);
      forall j, u | 0 <= j < i && !r.hit[j] && u in r.bullets
        ensures !Hits(B[j], u)
      {
        assert u in acc'.bullets;
        if j == i - 1 {
          assert !Collide(acc.bullets, b).hit;
          var k :| 0 <= k < |acc.bullets| && acc.bullets[k] == u;
          assert !Hits(b, acc.bullets[k]);
        }
      }
    }
  }

  /** The sweep as a whole: every bubble present when it starts is tested once,
      and is either kept in its place in order or hit; each hit consumes one
      bullet that overlaps it; no bullet left overlaps a bubble kept; the children of the hit bubbles follow after
      the kept ones, those of later bubbles first. */
  lemma SweepAllShape(B: seq<BubbleState>, bullets: seq<Bullet>)
    ensures var r := SweepAll(B, bullets);
      && |r.hit| == |B|
      && r.kept == Unhit(B, r.hit)
      && r.spawned == Offspring(B, r.hit)
      && |r.bullets| + CountTrue(r.hit) == |bullets|
      && (forall u :: u in r.bullets ==> u in bullets)
      && (forall j :: 0 <= j < |B| && r.hit[j] ==> exists u :: u in bullets && Hits(B[j], u))
      && (forall j, u :: 0 <= j < |B| && !r.hit[j] && u in r.bullets ==> !Hits(B[j], u))
  {
    var r := SweepAll(B, bullets);
    SweepFromKept(B, |B|, Sweep([], [], bullets, []));
    SweepFromSpawned(B, |B|, Sweep([], [], bullets, []));
    SweepFromBulletCount(B, |B|, Sweep([], [], bullets, []));
    SweepFromBulletsSubset(B, |B|, Sweep([], [], bullets, []));
    SweepFromHitsJustified(B, |B|, Sweep([], [], bullets, []));
    SweepFromMissesJustified(B, |B|, Sweep([], [], bullets, []));
    assert B[..|B|] == B;
    assert r.hit[..|B|] == r.hit;
  }

  /** Every bubble is either kept or hit, never both and never twice. */
  lemma {:induction false} UnhitCount(B: seq<BubbleState>, H: seq<bool>)
    requires |B| == |H|
    ensures |Unhit(B, H)| + CountTrue(H) == |B|
    ensures forall b :: b in Unhit(B, H) ==> b in B
    decreases |B|
  {
    if B != [] {
      UnhitCount(B[..|B| - 1], H[..|H| - 1]);
    }
  }

  /** Two children per hit bubble that is large enough to split, none for the
      others; every child has half the radius of a hit bubble, at least the threshold. */
  lemma {:induction false} OffspringFacts(B: seq<BubbleState>, H: seq<bool>)
    requires |B| == |H|
    ensures |Offspring(B, H)| == 2 * CountSplits(B, H)
    ensures forall c :: c in Offspring(B, H) ==>
      c.r >= BUBBLE_RADIUS_THRESHOLD && exists j :: 0 <= j < |B| && H[j] && c in Children(B[j])
    decreases |B|
  {
    if B != [] {
      var n := |B| - 1;
      OffspringFacts(B[..n], H[..n]);
      var here := if H[n] then Children(B[n]) else [];
      assert Offspring(B, H) == here + Offspring(B[..n], H[..n]);
      forall c | c in Offspring(B, H)
        ensures c.r >= BUBBLE_RADIUS_THRESHOLD && exists j :: 0 <= j < |B| && H[j] && c in Children(B[j])
      {
        if c in here {
        } else {
          assert c in Offspring(B[..n], H[..n]);
          var j :| 0 <= j < n && H[..n][j] && c in Children(B[..n][j]);
          assert H[j] && B[j] == B[..n][j];
        }
      }
    }
  }

  /** The ones-after-hits vector never holds a bubble of non-positive radius
      if the one it sweeps does not. */
  lemma SweepKeepsRadiiPositive(B: seq<BubbleState>, bullets: seq<Bullet>)
    requires forall b :: b in B ==> b.r > 0.0
    ensures var r := SweepAll(B, bullets);
      forall b :: b in r.kept + r.spawned ==> b.r > 0.0
  {
    var r := SweepAll(B, bullets);
    SweepAllShape(B, bullets);
    UnhitCount(B, r.hit);
    OffspringFacts(B, r.hit);
  }

  /** The number of bubbles after a sweep: those not hit, plus two per split. */
  lemma SweepCount(B: seq<BubbleState>, bullets: seq<Bullet>)
    ensures var r := SweepAll(B, bullets);
      |r.hit| == |B| && |r.kept + r.spawned| == |B| - CountTrue(r.hit) + 2 * CountSplits(B, r.hit)
  {
    var r := SweepAll(B, bullets);
    SweepAllShape(B, bullets);
    UnhitCount(B, r.hit);
    OffspringFacts(B, r.hit);
  }

  /** With no bullet touching any bubble the sweep changes nothing. */
  lemma {:induction false} SweepWithoutHits(B: seq<BubbleState>, i: nat, acc: Sweep)
    requires i <= |B|
    requires forall j, k :: 0 <= j < i && 0 <= k < |acc.bullets| ==> !Hits(B[j], acc.bullets[k])
    ensures var r := SweepFrom(B, i, acc);
      r.kept == B[..i] + acc.kept && r.spawned == acc.spawned && r.bullets == acc.bullets
    decreases i
  {
    if i > 0 {
      var b := B[i - 1];
      CollideSpec(acc.bullets, b);
      assert !Collide(acc.bullets, b).hit;
      SweepWithoutHits(B, i - 1, Sweep([b] + acc.kept, acc.spawned, acc.bullets, [false] + acc.hit));
      assert B[..i - 1] + ([b] + acc.kept) == B[..i] + acc.kept by {
        assert B[..i] == B[..i - 1] + [b];
      }
    }
  }
}
