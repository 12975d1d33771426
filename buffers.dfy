/** Position buffers: a `Float32Array` of 3 * count numbers read as count points,
    point i in slots 3i, 3i + 1 and 3i + 2. Float32 rounding is not modelled;
    a slot holds a `real`. */
module Buffers {

  datatype Vec3 = Vec3(x: real, y: real, z: real)

  /** Coordinate k (x, y, z for k = 0, 1, 2) of v. */
  function Coord(v: Vec3, k: int): real
  {
    if k == 0 then v.x else if k == 1 then v.y else v.z
  }

  /** `(Math.random() - 0.5) * spread` for a draw r. */
  function Centered(r: real, spread: real): (c: real)
    requires 0.0 <= r < 1.0 && spread > 0.0
    ensures -spread / 2.0 <= c < spread / 2.0
  {
    (r - 0.5) * spread
  }

  /** Values of `Math.random()`. */
  predicate Draws(rs: seq<real>)
  {
    forall k :: 0 <= k < |rs| ==> 0.0 <= rs[k] < 1.0
  }

  predicate Positive(v: Vec3)
  {
    v.x > 0.0 && v.y > 0.0 && v.z > 0.0
  }

  /** Slot s belongs to point s / 3, coordinate s % 3, and back. */
  lemma SlotOfPoint(i: int, k: int)
    requires i >= 0 && 0 <= k < 3
    ensures (3 * i + k) / 3 == i && (3 * i + k) % 3 == k
  {
  }

  /** Slot i % 3 == 0 starts a point: the next three slots are its coordinates. */
  lemma PointSlots(i: int)
    requires i >= 0 && i % 3 == 0
    ensures (i + 1) % 3 == 1 && (i + 2) % 3 == 2
  {
  }

  /** One iteration of the particle loop: three slots from three draws. */
  method WriteParticle(a: array<real>, i: int, draws: seq<real>, spread: Vec3, ghost writes: seq<nat>)
    returns (ghost writes': seq<nat>)
    requires 0 <= i && i + 3 <= a.Length && i % 3 == 0 && |draws| == a.Length && |writes| == a.Length
    requires Draws(draws) && Positive(spread)
    modifies a
    ensures forall s :: 0 <= s < a.Length ==>
      a[s] == if i <= s < i + 3 then Centered(draws[s], Coord(spread, s % 3)) else old(a[s])
    ensures |writes'| == a.Length
    ensures forall s :: 0 <= s < a.Length ==> writes'[s] == if i <= s < i + 3 then writes[s] + 1 else writes[s]
  {
    PointSlots(i);
    a[i] := Centered(draws[i], spread.x);
    a[i + 1] := Centered(draws[i + 1], spread.y);
    a[i + 2] := Centered(draws[i + 2], spread.z);
    writes' := writes[i := writes[i] + 1][i + 1 := writes[i + 1] + 1][i + 2 := writes[i + 2] + 1];
  }

  /** The particle loop `for (i = 0; i < count * 3; i += 3)`, writing
      `(r - 0.5) * spread` into slots i, i + 1 and i + 2 from three draws taken
      in that order. `writes` counts the assignments made to each slot. */
  method FillParticles(a: array<real>, draws: seq<real>, spread: Vec3) returns (ghost writes: seq<nat>)
    requires a.Length % 3 == 0 && |draws| == a.Length && Draws(draws) && Positive(spread)
    modifies a
    ensures forall s :: 0 <= s < a.Length ==> a[s] == Centered(draws[s], Coord(spread, s % 3))
    ensures |writes| == a.Length && forall s :: 0 <= s < a.Length ==> writes[s] == 1
  {
    writes := seq(a.Length, _ => 0);
    var i := 0;
    while i < a.Length
      invariant 0 <= i <= a.Length && i % 3 == 0
      invariant forall s :: 0 <= s < i ==> a[s] == Centered(draws[s], Coord(spread, s % 3))
      invariant |writes| == a.Length
      invariant forall s :: 0 <= s < a.Length ==> writes[s] == if s < i then 1 else 0
    {
      writes := WriteParticle(a, i, draws, spread, writes);
      i := i + 3;
    }
  }

  /** A loop `for (i = 0; i < count; i++)` writing point(i) into slots 3i,
      3i + 1 and 3i + 2. `writes` counts the assignments made to each slot. */
  method FillPoints(a: array<real>, point: int -> Vec3) returns (ghost writes: seq<nat>)
    requires a.Length % 3 == 0
    modifies a
    ensures forall s :: 0 <= s < a.Length ==> a[s] == Coord(point(s / 3), s % 3)
    ensures |writes| == a.Length && forall s :: 0 <= s < a.Length ==> writes[s] == 1
  {
    writes := seq(a.Length, _ => 0);
    var i := 0;
    while i < a.Length / 3
      invariant 0 <= i <= a.Length / 3
      invariant forall s :: 0 <= s < 3 * i ==> a[s] == Coord(point(s / 3), s % 3)
      invariant |writes| == a.Length
      invariant forall s :: 0 <= s < a.Length ==> writes[s] == if s < 3 * i then 1 else 0
    {
      writes := WritePoint(a, i, point(i), writes);
      i := i + 1;
    }
  }

  /** One iteration of FillPoints: point i's coordinates into its three slots. */
  method WritePoint(a: array<real>, i: int, v: Vec3, ghost writes: seq<nat>) returns (ghost writes': seq<nat>)
    requires 0 <= i && 3 * i + 3 <= a.Length && |writes| == a.Length
    modifies a
    ensures forall s :: 0 <= s < a.Length ==>
      a[s] == if 3 * i <= s < 3 * i + 3 then Coord(v, s % 3) else old(a[s])
    ensures forall s :: 3 * i <= s < 3 * i + 3 ==> s / 3 == i
    ensures |writes'| == a.Length
    ensures forall s :: 0 <= s < a.Length ==> writes'[s] == if 3 * i <= s < 3 * i + 3 then writes[s] + 1 else writes[s]
  {
    SlotOfPoint(i, 0);
    SlotOfPoint(i, 1);
    SlotOfPoint(i, 2);
    a[3 * i] := v.x;
    a[3 * i + 1] := v.y;
    a[3 * i + 2] := v.z;
    writes' := writes[3 * i := writes[3 * i] + 1][3 * i + 1 := writes[3 * i + 1] + 1][3 * i + 2 := writes[3 * i + 2] + 1];
  }
}
