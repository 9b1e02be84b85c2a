/**
 The editing grid. Ticks are 64-bit in the program and sums that would leave that range saturate. Away from
 saturation a tick snaps to the nearest point of the grid, the later of two that are equally near.
 */
module NoteGrids {
  import opened Options
  import opened Notes
  import opened Occurrences
  import opened Division

  predicate InRange(value: Ticks) {
    MIN_TICKS <= value <= MAX_TICKS
  }

  function AddClamped(value: Ticks, delta: Ticks): Ticks {
    if delta > 0 && value > MAX_TICKS - delta then MAX_TICKS
    else if delta < 0 && value < MIN_TICKS - delta then MIN_TICKS
    else value + delta
  }

  function SubtractClamped(value: Ticks, subtrahend: Ticks): Ticks {
    if subtrahend > 0 && value < MIN_TICKS + subtrahend then MIN_TICKS
    else if subtrahend < 0 && value > MAX_TICKS + subtrahend then MAX_TICKS
    else value - subtrahend
  }

  function Clamped(value: Ticks): Ticks {
    if value < MIN_TICKS then MIN_TICKS else if MAX_TICKS < value then MAX_TICKS else value
  }

  /** The guarded sums are the true ones, clamped to the range; and the guards stay in range themselves. */
  lemma Saturates(a: Ticks, b: Ticks)
    requires InRange(a) && InRange(b)
    ensures AddClamped(a, b) == Clamped(a + b) && SubtractClamped(a, b) == Clamped(a - b)
    ensures b > 0 ==> InRange(MAX_TICKS - b) && InRange(MIN_TICKS + b)
    ensures b < 0 ==> InRange(MIN_TICKS - b) && InRange(MAX_TICKS + b)
  {
  }

  datatype NoteGrid = NoteGrid(spacing: Ticks, origin: Ticks) {
    predicate Valid() {
      0 < spacing
    }
  }

  /** C++ division: truncated towards zero. */
  function Quot(a: int, b: int): int
    requires 0 < b
  {
    if 0 <= a then a / b else -((-a) / b)
  }

  function SnapTick(tick: Ticks, grid: NoteGrid): Ticks {
    if !grid.Valid() then tick
    else
      var relative := SubtractClamped(tick, grid.origin);
      AddClamped(grid.origin, SnapOffset(relative, grid.spacing))
  }

  function SnapOffset(relative: Ticks, spacing: Ticks): Ticks
    requires 0 < spacing
  {
    var offset := Quot(relative, spacing) * spacing;
    var remainder := Rem(relative, spacing);
    if remainder >= 0 then
      if remainder >= spacing - remainder then AddClamped(offset, spacing) else offset
    else
      if -remainder > spacing - -remainder then AddClamped(offset, -spacing) else offset
  }

  // ----- what snapping is ---------------------------------------------------------------------

  predicate OnGrid(tick: Ticks, grid: NoteGrid)
    requires grid.Valid()
  {
    (tick - grid.origin) % grid.spacing == 0
  }

  function Distance(a: Ticks, b: Ticks): nat {
    if a < b then b - a else a - b
  }

  /** `point` is on the grid, and no other point of the grid is nearer, or as near and later. */
  ghost predicate Nearest(point: Ticks, tick: Ticks, grid: NoteGrid)
    requires grid.Valid()
  {
    && OnGrid(point, grid)
    && forall other | OnGrid(other, grid) :: Distance(point, tick) <= Distance(other, tick)
         && (Distance(point, tick) == Distance(other, tick) ==> other <= point)
  }

  /** Less than half a space before the tick, or at most half after it. */
  predicate Within(point: Ticks, tick: Ticks, grid: NoteGrid) {
    -grid.spacing <= 2 * (tick - point) < grid.spacing
  }

  /** The multiple of `spacing` nearest to `relative`, the later of two, without any bounds. */
  function Rounded(relative: Ticks, spacing: Ticks): Ticks
    requires 0 < spacing
  {
    (2 * relative + spacing) / (2 * spacing) * spacing
  }

  /** No sum on the way leaves the range. */
  predicate Unsaturated(tick: Ticks, grid: NoteGrid)
    requires grid.Valid()
  {
    var relative := tick - grid.origin;
    InRange(relative) && InRange(Rounded(relative, grid.spacing))
    && InRange(grid.origin + Rounded(relative, grid.spacing))
  }

  lemma RoundedWithin(relative: Ticks, spacing: Ticks)
    requires 0 < spacing
    ensures -spacing <= 2 * (relative - Rounded(relative, spacing)) < spacing
    ensures Rounded(relative, spacing) % spacing == 0
  {
    var q := (2 * relative + spacing) / (2 * spacing);
    assert q * (2 * spacing) + (2 * relative + spacing) % (2 * spacing) == 2 * relative + spacing;
    assert q * (2 * spacing) == 2 * (q * spacing);
    Divided(q, spacing, 0);
  }

  /** There is one multiple within half a space. */
  lemma RoundedOnce(relative: Ticks, spacing: Ticks, k: int)
    requires 0 < spacing && -spacing <= 2 * (relative - k * spacing) < spacing
    ensures Rounded(relative, spacing) == k * spacing
  {
    var r := 2 * (relative - k * spacing) + spacing;
    assert k * (2 * spacing) == 2 * (k * spacing);
    Divided(k, 2 * spacing, r);
    assert 2 * relative + spacing == k * (2 * spacing) + r;
  }

  lemma TruncatedParts(relative: Ticks, spacing: Ticks)
    requires 0 < spacing
    ensures Quot(relative, spacing) * spacing + Rem(relative, spacing) == relative
    ensures -spacing < Rem(relative, spacing) < spacing
  {
    var a := if 0 <= relative then relative else -relative;
    assert a / spacing * spacing + a % spacing == a;
    assert -(a / spacing) * spacing == -(a / spacing * spacing);
  }

  lemma SnapOffsetIs(relative: Ticks, spacing: Ticks)
    requires 0 < spacing <= MAX_TICKS && InRange(relative)
    ensures SnapOffset(relative, spacing) == Clamped(Rounded(relative, spacing))
  {
    var k, remainder := Quot(relative, spacing), Rem(relative, spacing);
    TruncatedParts(relative, spacing);
    assert (k + 1) * spacing == k * spacing + spacing && (k - 1) * spacing == k * spacing - spacing;
    if remainder >= 0 && remainder >= spacing - remainder {
      RoundedOnce(relative, spacing, k + 1);
    } else if remainder < 0 && -remainder > spacing + remainder {
      RoundedOnce(relative, spacing, k - 1);
    } else {
      RoundedOnce(relative, spacing, k);
    }
    QuotientInRange(relative, spacing);
  }

  lemma QuotientInRange(relative: Ticks, spacing: Ticks)
    requires 0 < spacing && InRange(relative)
    ensures InRange(Quot(relative, spacing) * spacing)
  {
    TruncatedParts(relative, spacing);
    var k, remainder := Quot(relative, spacing), Rem(relative, spacing);
    if 0 <= relative {
      assert 0 <= remainder;
      assert 0 <= k * spacing by { Signs(k, spacing); }
    } else {
      assert remainder <= 0;
      assert 0 <= -k * spacing by { Signs(-k, spacing); }
    }
  }

  lemma Signs(k: int, spacing: int)
    requires 0 <= k && 0 <= spacing
    ensures 0 <= k * spacing
  {
  }

  /** What snapping gives for every tick, saturated or not. */
  lemma SnapIs(tick: Ticks, grid: NoteGrid)
    requires grid.Valid() && InRange(tick) && InRange(grid.origin) && InRange(grid.spacing)
    ensures SnapTick(tick, grid) ==
            Clamped(grid.origin + Clamped(Rounded(Clamped(tick - grid.origin), grid.spacing)))
  {
    Saturates(tick, grid.origin);
    var relative := Clamped(tick - grid.origin);
    SnapOffsetIs(relative, grid.spacing);
    Saturates(grid.origin, SnapOffset(relative, grid.spacing));
  }

  predicate Snappable(tick: Ticks, grid: NoteGrid) {
    grid.Valid() && InRange(tick) && InRange(grid.origin) && InRange(grid.spacing) && Unsaturated(tick, grid)
  }

  lemma SnapWithin(tick: Ticks, grid: NoteGrid)
    requires Snappable(tick, grid)
    ensures OnGrid(SnapTick(tick, grid), grid) && Within(SnapTick(tick, grid), tick, grid)
  {
    SnapIs(tick, grid);
    RoundedWithin(tick - grid.origin, grid.spacing);
  }

  lemma GridApart(p: Ticks, q: Ticks, grid: NoteGrid)
    requires grid.Valid() && OnGrid(p, grid) && OnGrid(q, grid) && p < q
    ensures grid.spacing <= q - p
  {
    var a, b := (p - grid.origin) / grid.spacing, (q - grid.origin) / grid.spacing;
    assert a * grid.spacing == p - grid.origin && b * grid.spacing == q - grid.origin;
    assert (b - a) * grid.spacing == q - p;
    Multiple(b - a, grid.spacing);
    if b <= a {
      Signs(a - b, grid.spacing);
      assert (a - b) * grid.spacing == -((b - a) * grid.spacing);
    }
  }

  lemma WithinIsNearest(point: Ticks, tick: Ticks, grid: NoteGrid)
    requires grid.Valid() && OnGrid(point, grid) && Within(point, tick, grid)
    ensures Nearest(point, tick, grid)
  {
    forall other | OnGrid(other, grid)
      ensures Distance(point, tick) <= Distance(other, tick)
      ensures Distance(point, tick) == Distance(other, tick) ==> other <= point
    {
      if point < other {
        GridApart(point, other, grid);
      } else if other < point {
        GridApart(other, point, grid);
      }
    }
  }

  /** Snapping finds the nearest point, the later of two; and there is only one such point. */
  lemma SnapNearest(tick: Ticks, grid: NoteGrid)
    requires Snappable(tick, grid)
    ensures Nearest(SnapTick(tick, grid), tick, grid)
    ensures forall point | Nearest(point, tick, grid) :: point == SnapTick(tick, grid)
  {
    SnapWithin(tick, grid);
    WithinIsNearest(SnapTick(tick, grid), tick, grid);
  }

  /** Exactly the points of the grid stay where they are; snapping twice is snapping once. */
  lemma SnapFixed(tick: Ticks, grid: NoteGrid)
    requires Snappable(tick, grid)
    ensures SnapTick(tick, grid) == tick <==> OnGrid(tick, grid)
    ensures Snappable(SnapTick(tick, grid), grid)
    ensures SnapTick(SnapTick(tick, grid), grid) == SnapTick(tick, grid)
  {
    SnapWithin(tick, grid);
    SnapIs(tick, grid);
    var snapped := SnapTick(tick, grid);
    FixedOnGrid(snapped, grid);
    if OnGrid(tick, grid) {
      FixedOnGrid(tick, grid);
    }
  }

  lemma FixedOnGrid(tick: Ticks, grid: NoteGrid)
    requires grid.Valid() && InRange(tick) && InRange(grid.origin) && InRange(grid.spacing)
    requires OnGrid(tick, grid) && InRange(tick - grid.origin)
    ensures Snappable(tick, grid) && SnapTick(tick, grid) == tick
  {
    var k := (tick - grid.origin) / grid.spacing;
    assert k * grid.spacing == tick - grid.origin;
    RoundedOnce(tick - grid.origin, grid.spacing, k);
    SnapIs(tick, grid);
  }

  /** Snapping keeps order. */
  lemma SnapMonotone(tick: Ticks, later: Ticks, grid: NoteGrid)
    requires Snappable(tick, grid) && Snappable(later, grid) && tick <= later
    ensures SnapTick(tick, grid) <= SnapTick(later, grid)
  {
    SnapWithin(tick, grid);
    SnapWithin(later, grid);
    if SnapTick(later, grid) < SnapTick(tick, grid) {
      GridApart(SnapTick(later, grid), SnapTick(tick, grid), grid);
    }
  }

  /** From the grid's origin on, only the last half space before the largest tick saturates. */
  lemma UsuallySnappable(tick: Ticks, grid: NoteGrid)
    requires grid.Valid() && 0 <= grid.origin <= tick && grid.spacing <= MAX_TICKS
    requires 2 * tick + grid.spacing <= 2 * MAX_TICKS
    ensures Snappable(tick, grid)
  {
    var relative := tick - grid.origin;
    RoundedWithin(relative, grid.spacing);
    var k := Rounded(relative, grid.spacing) / grid.spacing;
    assert k * grid.spacing == Rounded(relative, grid.spacing);
    Multiple(k, grid.spacing);
  }

  // ----- step onsets -----------------------------------------------------------------------------

  /** Where step `index` starts, if that is a tick; the guards come before the products and sums. */
  function StepOnset(index: int, grid: NoteGrid): Option<Ticks> {
    if !grid.Valid() || index < 0 || index > MAX_TICKS / grid.spacing then None
    else
      var offset := index * grid.spacing;
      if grid.origin > 0 && offset > MAX_TICKS - grid.origin then None
      else
        var onset := grid.origin + offset;
        if onset < 0 then None else Some(onset)
  }

  /** A step has an onset exactly when its tick exists; and no product or sum overflows on the way. */
  lemma StepOnsets(index: int, grid: NoteGrid)
    requires grid.Valid() && InRange(grid.origin)
    ensures StepOnset(index, grid) ==
            if 0 <= index && index * grid.spacing <= MAX_TICKS && 0 <= grid.origin + index * grid.spacing <= MAX_TICKS
            then Some(grid.origin + index * grid.spacing) else None
  {
    if 0 <= index {
      Fits(index, grid.spacing);
    }
  }

  lemma Fits(index: nat, spacing: Ticks)
    requires 0 < spacing
    ensures index > MAX_TICKS / spacing <==> index * spacing > MAX_TICKS
  {
    var q := MAX_TICKS / spacing;
    assert q * spacing + MAX_TICKS % spacing == MAX_TICKS;
    assert (index - q) * spacing == index * spacing - q * spacing;
    Multiple(index - q, spacing);
    if index <= q {
      Signs(q - index, spacing);
      assert (q - index) * spacing == -((index - q) * spacing);
    }
  }
}
