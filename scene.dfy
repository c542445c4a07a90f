/**
 * The scene's entity grid (src/scene.rs, `Scene::add_entities`): a cube of
 * entities on integer grid points spaced `padding` apart.
 */
module Scenes {
  import opened Geometry
  import opened Entities
  import opened Swarms

  newtype i32 = x: int | -0x8000_0000 <= x < 0x8000_0000

  /** The camera's state (src/camera.rs), carried by the scene untouched here. */
  datatype Camera = Camera(position: Vec3, direction: Vec3, up: Vec3, pitch: real, yaw: real)

  /** The grid spacing `padding` of `add_entities`. */
  const Padding: int := 5

  /** Rust's `count / 2` on `i32`, which truncates toward zero. */
  function Half(count: i32): (m: int)
    ensures count >= 0 ==> 0 <= count as int - 2 * m <= 1
    ensures count < 0 ==> -1 <= count as int - 2 * m <= 0
  {
    if count >= 0 then count as int / 2 else -((-(count as int)) / 2)
  }

  /** A grid point `(i, j, k)` of the loops. */
  datatype Cell = Cell(i: int, j: int, k: int)

  /** The position `(i * padding, j * padding, k * padding)` of a grid point. */
  function CellPosition(c: Cell): Vec3 {
    Vec3((c.i * Padding) as real, (c.j * Padding) as real, (c.k * Padding) as real)
  }

  /** The innermost loop: `(i, j, lo) .. (i, j, k - 1)`. */
  function Row(i: int, j: int, lo: int, k: int): seq<Cell>
    decreases k - lo
  {
    if k <= lo then [] else Row(i, j, lo, k - 1) + [Cell(i, j, k - 1)]
  }

  /** The middle loop up to `j`: rows `lo .. j - 1` of plane `i`, each `lo .. hi - 1`. */
  function Plane(i: int, lo: int, hi: int, j: int): seq<Cell>
    decreases j - lo
  {
    if j <= lo then [] else Plane(i, lo, hi, j - 1) + Row(i, j - 1, lo, hi)
  }

  /** The outer loop up to `i`: planes `lo .. i - 1`, each a square `lo .. hi - 1`. */
  function Block(lo: int, hi: int, i: int): seq<Cell>
    decreases i - lo
  {
    if i <= lo then [] else Block(lo, hi, i - 1) + Plane(i - 1, lo, hi, hi)
  }

  /** All grid points of `lo .. hi - 1` cubed, in the order the loops visit them. */
  function Cube(lo: int, hi: int): seq<Cell> {
    Block(lo, hi, hi)
  }

  /** The entities `add_entities` creates for the given grid points. */
  function Spawn(cells: seq<Cell>, isStatic: bool): (es: seq<Entity>)
    ensures |es| == |cells|
    ensures forall n :: 0 <= n < |cells| ==> es[n] == New(CellPosition(cells[n]), isStatic)
  {
    seq(|cells|, n requires 0 <= n < |cells| => New(CellPosition(cells[n]), isStatic))
  }

  lemma SpawnConcat(xs: seq<Cell>, ys: seq<Cell>, isStatic: bool)
    ensures Spawn(xs + ys, isStatic) == Spawn(xs, isStatic) + Spawn(ys, isStatic)
  {
  }

  /** Appending the entities of plane `i` to those of the planes before it. */
  lemma SpawnBlockStep(prefix: seq<Entity>, lo: int, hi: int, i: int, isStatic: bool)
    requires lo <= i
    ensures prefix + Spawn(Block(lo, hi, i + 1), isStatic)
      == prefix + Spawn(Block(lo, hi, i), isStatic) + Spawn(Plane(i, lo, hi, hi), isStatic)
  {
    SpawnConcat(Block(lo, hi, i), Plane(i, lo, hi, hi), isStatic);
  }

  /** Appending the entities of row `j` to those of the rows before it. */
  lemma SpawnPlaneStep(prefix: seq<Entity>, i: int, lo: int, hi: int, j: int, isStatic: bool)
    requires lo <= j
    ensures prefix + Spawn(Plane(i, lo, hi, j + 1), isStatic)
      == prefix + Spawn(Plane(i, lo, hi, j), isStatic) + Spawn(Row(i, j, lo, hi), isStatic)
  {
    SpawnConcat(Plane(i, lo, hi, j), Row(i, j, lo, hi), isStatic);
  }

  /** Appending the entity of point `k` to those of the points before it on its row. */
  lemma SpawnRowStep(prefix: seq<Entity>, i: int, j: int, lo: int, k: int, isStatic: bool)
    requires lo <= k
    ensures prefix + Spawn(Row(i, j, lo, k + 1), isStatic)
      == prefix + Spawn(Row(i, j, lo, k), isStatic) + [New(CellPosition(Cell(i, j, k)), isStatic)]
  {
    SpawnConcat(Row(i, j, lo, k), [Cell(i, j, k)], isStatic);
  }

  /** Strict lexicographic order on grid points. */
  predicate Before(a: Cell, b: Cell) {
    a.i < b.i || (a.i == b.i && (a.j < b.j || (a.j == b.j && a.k < b.k)))
  }

  predicate Increasing(cells: seq<Cell>) {
    forall a, b :: 0 <= a < b < |cells| ==> Before(cells[a], cells[b])
  }

  lemma IncreasingConcat(xs: seq<Cell>, ys: seq<Cell>)
    requires Increasing(xs) && Increasing(ys)
    requires forall x, y :: x in xs && y in ys ==> Before(x, y)
    ensures Increasing(xs + ys)
  {
    forall a, b | 0 <= a < b < |xs + ys|
      ensures Before((xs + ys)[a], (xs + ys)[b])
    {
      if b < |xs| {
        assert (xs + ys)[a] == xs[a] && (xs + ys)[b] == xs[b];
      } else if a < |xs| {
        assert (xs + ys)[a] == xs[a] && xs[a] in xs;
        assert (xs + ys)[b] == ys[b - |xs|] && ys[b - |xs|] in ys;
      } else {
        assert (xs + ys)[a] == ys[a - |xs|] && (xs + ys)[b] == ys[b - |xs|];
      }
    }
  }

  lemma {:induction false} RowSize(i: int, j: int, lo: int, k: int)
    requires lo <= k
    ensures |Row(i, j, lo, k)| == k - lo
    decreases k - lo
  {
    if lo < k {
      RowSize(i, j, lo, k - 1);
    }
  }

  lemma {:induction false} PlaneSize(i: int, lo: int, hi: int, j: int)
    requires lo <= hi && lo <= j
    ensures |Plane(i, lo, hi, j)| == (j - lo) * (hi - lo)
    decreases j - lo
  {
    if lo < j {
      PlaneSize(i, lo, hi, j - 1);
      RowSize(i, j - 1, lo, hi);
      assert (j - lo) * (hi - lo) == (j - 1 - lo) * (hi - lo) + (hi - lo);
    }
  }

  lemma {:induction false} BlockSize(lo: int, hi: int, i: int)
    requires lo <= hi && lo <= i
    ensures |Block(lo, hi, i)| == (i - lo) * ((hi - lo) * (hi - lo))
    decreases i - lo
  {
    if lo < i {
      BlockSize(lo, hi, i - 1);
      PlaneSize(i - 1, lo, hi, hi);
      assert (i - lo) * ((hi - lo) * (hi - lo))
          == (i - 1 - lo) * ((hi - lo) * (hi - lo)) + (hi - lo) * (hi - lo);
    }
  }

  /** Every cell of a row lies on that row, within `lo .. k - 1`. */
  lemma {:induction false} RowMembers(i: int, j: int, lo: int, k: int)
    ensures forall c :: c in Row(i, j, lo, k) ==> c.i == i && c.j == j && lo <= c.k < k
    decreases k - lo
  {
    if lo < k {
      RowMembers(i, j, lo, k - 1);
    }
  }

  lemma {:induction false} PlaneMembers(i: int, lo: int, hi: int, j: int)
    ensures forall c :: c in Plane(i, lo, hi, j) ==> c.i == i && lo <= c.j < j && lo <= c.k < hi
    decreases j - lo
  {
    if lo < j {
      PlaneMembers(i, lo, hi, j - 1);
      RowMembers(i, j - 1, lo, hi);
    }
  }

  lemma {:induction false} BlockMembers(lo: int, hi: int, i: int)
    ensures forall c :: c in Block(lo, hi, i) ==> lo <= c.i < i && lo <= c.j < hi && lo <= c.k < hi
    decreases i - lo
  {
    if lo < i {
      BlockMembers(lo, hi, i - 1);
      PlaneMembers(i - 1, lo, hi, hi);
    }
  }

  /** A row visits every `k` in `lo .. k - 1`. */
  lemma {:induction false} RowHas(i: int, j: int, lo: int, k: int, c: Cell)
    requires c.i == i && c.j == j && lo <= c.k < k
    ensures c in Row(i, j, lo, k)
    decreases k - lo
  {
    assert Row(i, j, lo, k) == Row(i, j, lo, k - 1) + [Cell(i, j, k - 1)];
    if c.k < k - 1 {
      RowHas(i, j, lo, k - 1, c);
      InLeft(Row(i, j, lo, k - 1), [Cell(i, j, k - 1)], c);
    } else {
      InRight(Row(i, j, lo, k - 1), [Cell(i, j, k - 1)], c);
    }
  }

  lemma {:induction false} PlaneHas(i: int, lo: int, hi: int, j: int, c: Cell)
    requires c.i == i && lo <= c.j < j && lo <= c.k < hi
    ensures c in Plane(i, lo, hi, j)
    decreases j - lo
  {
    assert Plane(i, lo, hi, j) == Plane(i, lo, hi, j - 1) + Row(i, j - 1, lo, hi);
    if c.j < j - 1 {
      PlaneHas(i, lo, hi, j - 1, c);
      InLeft(Plane(i, lo, hi, j - 1), Row(i, j - 1, lo, hi), c);
    } else {
      RowHas(i, j - 1, lo, hi, c);
      InRight(Plane(i, lo, hi, j - 1), Row(i, j - 1, lo, hi), c);
    }
  }

  lemma {:induction false} BlockHas(lo: int, hi: int, i: int, c: Cell)
    requires lo <= c.i < i && lo <= c.j < hi && lo <= c.k < hi
    ensures c in Block(lo, hi, i)
    decreases i - lo
  {
    assert Block(lo, hi, i) == Block(lo, hi, i - 1) + Plane(i - 1, lo, hi, hi);
    if c.i < i - 1 {
      BlockHas(lo, hi, i - 1, c);
      InLeft(Block(lo, hi, i - 1), Plane(i - 1, lo, hi, hi), c);
    } else {
      PlaneHas(i - 1, lo, hi, hi, c);
      InRight(Block(lo, hi, i - 1), Plane(i - 1, lo, hi, hi), c);
    }
  }

  lemma InLeft(xs: seq<Cell>, ys: seq<Cell>, c: Cell)
    requires c in xs
    ensures c in xs + ys
  {
  }

  lemma InRight(xs: seq<Cell>, ys: seq<Cell>, c: Cell)
    requires c in ys
    ensures c in xs + ys
  {
  }

  lemma {:induction false} RowIncreasing(i: int, j: int, lo: int, k: int)
    ensures Increasing(Row(i, j, lo, k))
    decreases k - lo
  {
    if lo < k {
      RowIncreasing(i, j, lo, k - 1);
      RowMembers(i, j, lo, k - 1);
      IncreasingConcat(Row(i, j, lo, k - 1), [Cell(i, j, k - 1)]);
    }
  }

  lemma {:induction false} PlaneIncreasing(i: int, lo: int, hi: int, j: int)
    ensures Increasing(Plane(i, lo, hi, j))
    decreases j - lo
  {
    if lo < j {
      PlaneIncreasing(i, lo, hi, j - 1);
      RowIncreasing(i, j - 1, lo, hi);
      PlaneMembers(i, lo, hi, j - 1);
      RowMembers(i, j - 1, lo, hi);
      IncreasingConcat(Plane(i, lo, hi, j - 1), Row(i, j - 1, lo, hi));
    }
  }

  lemma {:induction false} BlockIncreasing(lo: int, hi: int, i: int)
    ensures Increasing(Block(lo, hi, i))
    decreases i - lo
  {
    if lo < i {
      BlockIncreasing(lo, hi, i - 1);
      PlaneIncreasing(i - 1, lo, hi, hi);
      BlockMembers(lo, hi, i - 1);
      PlaneMembers(i - 1, lo, hi, hi);
      IncreasingConcat(Block(lo, hi, i - 1), Plane(i - 1, lo, hi, hi));
    }
  }

  /** The grid of `add_entities` for `m = count / 2` has `(2m)^3` points when `m > 0`, none otherwise. */
  lemma CubeSize(m: int)
    ensures |Cube(-m, m)| == (if m > 0 then (2 * m) * (2 * m) * (2 * m) else 0)
  {
    if m > 0 {
      BlockSize(-m, m, m);
      assert (2 * m) * ((2 * m) * (2 * m)) == (2 * m) * (2 * m) * (2 * m);
    } else {
      assert Cube(-m, m) == [];
    }
  }

  /** The grid holds exactly the points with every coordinate in `lo .. hi - 1`. */
  lemma CubeMembers(lo: int, hi: int)
    ensures forall c :: c in Cube(lo, hi) <==> lo <= c.i < hi && lo <= c.j < hi && lo <= c.k < hi
  {
    BlockMembers(lo, hi, hi);
    forall c: Cell | lo <= c.i < hi && lo <= c.j < hi && lo <= c.k < hi
      ensures c in Cube(lo, hi)
    {
      BlockHas(lo, hi, hi, c);
    }
  }

  /** Different grid points are placed at different positions. */
  lemma CellPositionInjective(a: Cell, b: Cell)
    requires a != b
    ensures CellPosition(a) != CellPosition(b)
  {
  }

  /**
   * The entities `add_entities(count, is_static)` appends all carry the flag,
   * sit at `padding` times their grid point, and no two share a position.
   */
  lemma SpawnedGrid(count: i32, isStatic: bool)
    ensures var m := Half(count);
      var es := Spawn(Cube(-m, m), isStatic);
      && |es| == (if m > 0 then (2 * m) * (2 * m) * (2 * m) else 0)
      && (forall n :: 0 <= n < |es| ==>
            es[n].IsStatic() == isStatic && es[n].GetTransform().position == CellPosition(Cube(-m, m)[n]))
      && (forall a, b :: 0 <= a < b < |es| ==>
            es[a].GetTransform().position != es[b].GetTransform().position)
  {
    var m := Half(count);
    CubeSize(m);
    BlockIncreasing(-m, m, m);
    var cells := Cube(-m, m);
    forall a, b | 0 <= a < b < |cells|
      ensures CellPosition(cells[a]) != CellPosition(cells[b])
    {
      assert Before(cells[a], cells[b]);
      CellPositionInjective(cells[a], cells[b]);
    }
  }

  class Scene {
    var camera: Camera
    var entityList: seq<Entity>
    var tmp: Entity
    var swarm: Swarm

    /** Sets the fields as given; `Scene::new` is not part of this model. */
    constructor (camera: Camera, entityList: seq<Entity>, tmp: Entity, swarm: Swarm)
      ensures this.camera == camera && this.entityList == entityList
      ensures this.tmp == tmp && this.swarm == swarm
    {
      this.camera := camera;
      this.entityList := entityList;
      this.tmp := tmp;
      this.swarm := swarm;
    }

    /**
     * `add_entities`: appends one entity per grid point, in loop order, to
     * the entity list; nothing else in the scene changes.
     */
    method AddEntities(count: i32, isStatic: bool)
      modifies this`entityList
      ensures entityList == old(entityList) + Spawn(Cube(-Half(count), Half(count)), isStatic)
    {
      var m := Half(count);
      var i := -m;
      while i < m
        invariant m > 0 ==> -m <= i <= m
        invariant m <= 0 ==> i == -m
        invariant entityList == old(entityList) + Spawn(Block(-m, m, i), isStatic)
      {
        AddPlane(i, m, isStatic);
        SpawnBlockStep(old(entityList), -m, m, i, isStatic);
        i := i + 1;
      }
    }

    /** The middle loop of `add_entities`, for one value of `i`. */
    method AddPlane(i: int, m: int, isStatic: bool)
      requires -m <= m
      modifies this`entityList
      ensures entityList == old(entityList) + Spawn(Plane(i, -m, m, m), isStatic)
    {
      var j := -m;
      while j < m
        invariant -m <= j <= m
        invariant entityList == old(entityList) + Spawn(Plane(i, -m, m, j), isStatic)
      {
        AddRow(i, j, m, isStatic);
        SpawnPlaneStep(old(entityList), i, -m, m, j, isStatic);
        j := j + 1;
      }
    }

    /** The innermost loop of `add_entities`, for one value of `(i, j)`. */
    method AddRow(i: int, j: int, m: int, isStatic: bool)
      requires -m <= m
      modifies this`entityList
      ensures entityList == old(entityList) + Spawn(Row(i, j, -m, m), isStatic)
    {
      var k := -m;
      while k < m
        invariant -m <= k <= m
        invariant entityList == old(entityList) + Spawn(Row(i, j, -m, k), isStatic)
      {
        var pos := Vec3((i * Padding) as real, (j * Padding) as real, (k * Padding) as real);
        entityList := entityList + [New(pos, isStatic)];
        SpawnRowStep(old(entityList), i, j, -m, k, isStatic);
        k := k + 1;
      }
    }
  }
}
