/**
 * The block builder's edit model: blocks on an integer grid, added and
 * deleted with a history stack and a redo stack, the arrow-key rotations,
 * the layer controls and the placement rule. The Three.js scene, meshes,
 * ray casting and camera are not modelled; a block's identity (its mesh
 * object) is an id handed out in creation order.
 */
module BlockBuilder {
  import opened Wrappers
  import opened JsMath

  const GridSize := 80

  /** One placed block: its identity, its cell and its look. */
  datatype Block = Block(id: nat, x: int, y: int, z: int, color: string, kind: string, rotation: int, zRotation: int)

  /** A history entry. */
  datatype Action = Add(block: Block) | Delete(block: Block)

  /** The block types addBlock knows how to build. */
  predicate KnownKind(kind: string) {
    kind == "cube" || kind == "ramp" || kind == "int_junction" || kind == "ext_junction"
  }

  predicate Distinct(blocks: seq<Block>) {
    forall i, j :: 0 <= i < j < |blocks| ==> blocks[i] != blocks[j]
  }

  function Elements(blocks: seq<Block>): set<Block> {
    set b | b in blocks
  }

  /** blocks.find(b => b.x === x && b.y === y && b.z === z) finds something. */
  predicate Occupied(blocks: seq<Block>, x: int, y: int, z: int) {
    exists i :: 0 <= i < |blocks| && blocks[i].x == x && blocks[i].y == y && blocks[i].z == z
  }

  /** The click handler's test: inside the 80 x 80 x 80 grid around the origin and free. */
  predicate Placeable(blocks: seq<Block>, x: int, y: int, z: int) {
    0 <= y < GridSize && -GridSize / 2 <= x < GridSize / 2 && -GridSize / 2 <= z < GridSize / 2 &&
    !Occupied(blocks, x, y, z)
  }

  /** blocks.filter(x => x !== b). */
  function Without(blocks: seq<Block>, b: Block): (r: seq<Block>)
    ensures forall c :: c in r <==> c in blocks && c != b
    ensures |r| <= |blocks|
  {
    if blocks == [] then []
    else if blocks[0] == b then Without(blocks[1..], b)
    else [blocks[0]] + Without(blocks[1..], b)
  }

  /** Filtering a list of distinct blocks keeps it distinct and drops exactly one element when b is present. */
  lemma {:induction false} WithoutDistinct(blocks: seq<Block>, b: Block)
    requires Distinct(blocks)
    ensures Distinct(Without(blocks, b))
    ensures b in blocks ==> |Without(blocks, b)| == |blocks| - 1
    ensures b !in blocks ==> Without(blocks, b) == blocks
  {
    if blocks != [] {
      assert Distinct(blocks[1..]);
      WithoutDistinct(blocks[1..], b);
      if blocks[0] == b {
        assert b !in blocks[1..];
      } else {
        var r := Without(blocks[1..], b);
        assert blocks[0] !in Elements(r);
      }
    }
  }

  lemma PushDistinct(blocks: seq<Block>, b: Block)
    requires Distinct(blocks) && b !in blocks
    ensures Distinct(blocks + [b]) && Elements(blocks + [b]) == Elements(blocks) + {b}
  {
  }

  // ---------------------------------------------------------------- the timeline

  /** What an action does to the set of blocks. */
  function Step(s: set<Block>, a: Action): set<Block> {
    match a
    case Add(b) => s + {b}
    case Delete(b) => s - {b}
  }

  /** The action that takes an action back. */
  function Inverse(a: Action): Action {
    match a
    case Add(b) => Delete(b)
    case Delete(b) => Add(b)
  }

  /** What undoing an action does. */
  function Unstep(s: set<Block>, a: Action): set<Block> {
    Step(s, Inverse(a))
  }

  /** An action the editor can have taken in state s: a new block is absent, a deleted block present. */
  predicate Possible(s: set<Block>, a: Action) {
    match a
    case Add(b) => b !in s
    case Delete(b) => b in s
  }

  /** Undo after an action restores the state before it; redo after undo restores the state after it. */
  lemma UndoRedo(s: set<Block>, a: Action)
    requires Possible(s, a)
    ensures Possible(Step(s, a), Inverse(a))
    ensures Unstep(Step(s, a), a) == s
    ensures Step(Unstep(Step(s, a), a), a) == Step(s, a)
  {
  }

  /** What the editor does to its list for an action: push the block, or filter it out. */
  function Apply(blocks: seq<Block>, a: Action): seq<Block> {
    match a
    case Add(b) => blocks + [b]
    case Delete(b) => Without(blocks, b)
  }

  /** On a list without repeats, the list operation is the set operation. */
  lemma ApplyIsStep(blocks: seq<Block>, a: Action)
    requires Distinct(blocks) && Possible(Elements(blocks), a)
    ensures Distinct(Apply(blocks, a)) && Elements(Apply(blocks, a)) == Step(Elements(blocks), a)
    ensures forall c :: c in Apply(blocks, a) ==> c in blocks || c == a.block
  {
    match a {
      case Add(b) => PushDistinct(blocks, b);
      case Delete(b) => WithoutDistinct(blocks, b);
    }
  }

  /** The set after replaying actions on a base set. */
  function Replay(base: set<Block>, h: seq<Action>): set<Block> {
    if h == [] then base else Step(Replay(base, h[..|h| - 1]), h[|h| - 1])
  }

  /** Every action of h was possible when it was taken. */
  predicate Legal(base: set<Block>, h: seq<Action>) {
    h == [] || (Legal(base, h[..|h| - 1]) && Possible(Replay(base, h[..|h| - 1]), h[|h| - 1]))
  }

  /**
   * The redo stack can be replayed from state s: its top entry is possible
   * in s, and the rest can be replayed from the state after it.
   */
  predicate RedoLegal(s: set<Block>, redo: seq<Action>)
    decreases |redo|
  {
    redo == [] || (Possible(s, redo[|redo| - 1]) && RedoLegal(Step(s, redo[|redo| - 1]), redo[..|redo| - 1]))
  }

  // ---------------------------------------------------------------- rotation and placement helpers

  predicate RightAngle(r: int) {
    r == 0 || r == 90 || r == 180 || r == 270
  }

  /** ArrowLeft: (r - 90 + 360) % 360. */
  function TurnLeft(r: int): int {
    JsRem(r - 90 + 360, 360)
  }

  /** ArrowRight: (r + 90) % 360. */
  function TurnRight(r: int): int {
    JsRem(r + 90, 360)
  }

  /** The arrows keep a right angle a right angle, and undo each other. */
  lemma TurnsStayRightAngles(r: int)
    requires RightAngle(r)
    ensures RightAngle(TurnLeft(r)) && RightAngle(TurnRight(r))
    ensures TurnLeft(TurnRight(r)) == r && TurnRight(TurnLeft(r)) == r
  {
  }

  /** onKeyDown: cubes ignore the arrows; left and right turn by 90 degrees, up and down set the flip. */
  function KeyTurn(kind: string, key: Key, r: int, z: int): (int, int) {
    if kind == "cube" then (r, z)
    else match key
      case ArrowLeft => (TurnLeft(r), z)
      case ArrowRight => (TurnRight(r), z)
      case ArrowUp => (r, 0)
      case ArrowDown => (r, 180)
      case OtherKey => (r, z)
  }

  /** Whatever the key, a block keeps a right-angle rotation and a flip of 0 or 180 degrees. */
  lemma KeyTurnKeepsAngles(kind: string, key: Key, r: int, z: int)
    requires RightAngle(r) && (z == 0 || z == 180)
    ensures var t := KeyTurn(kind, key, r, z); RightAngle(t.0) && (t.1 == 0 || t.1 == 180)
    ensures kind == "cube" || key == OtherKey ==> KeyTurn(kind, key, r, z) == (r, z)
  {
    if kind != "cube" {
      match key {
        case ArrowLeft => TurnsStayRightAngles(r);
        case ArrowRight => TurnsStayRightAngles(r);
        case _ =>
      }
    }
  }

  function Abs(r: real): real {
    if r < 0.0 then -r else r
  }

  /**
   * gridOffsetFromHit: a unit step along the axis on which the hit point is
   * farthest from the block's centre (ties go to y, then x, then z), toward
   * the hit point.
   */
  function GridOffset(dx: real, dy: real, dz: real): (o: (int, int, int))
    ensures (o.0 == 0 && o.2 == 0 && (o.1 == 1 || o.1 == -1)) ||
            (o.1 == 0 && o.2 == 0 && (o.0 == 1 || o.0 == -1)) ||
            (o.0 == 0 && o.1 == 0 && (o.2 == 1 || o.2 == -1))
    ensures o.1 != 0 ==> Abs(dy) >= Abs(dx) && Abs(dy) >= Abs(dz) && (o.1 == 1 <==> dy > 0.0)
    ensures o.0 != 0 ==> Abs(dx) > Abs(dy) && Abs(dx) >= Abs(dz) && (o.0 == 1 <==> dx > 0.0)
    ensures o.2 != 0 ==> Abs(dz) > Abs(dy) && Abs(dz) > Abs(dx) && (o.2 == 1 <==> dz > 0.0)
  {
    var ax, ay, az := Abs(dx), Abs(dy), Abs(dz);
    if ay >= ax && ay >= az then (0, if dy > 0.0 then 1 else -1, 0)
    else if ax >= ay && ax >= az then (if dx > 0.0 then 1 else -1, 0, 0)
    else (0, 0, if dz > 0.0 then 1 else -1)
  }

  /** The cell a click targets: next to the block hit, on the side hit, or the floor cell under a hit on the grid plane. */
  function Target(hit: Option<Block>, px: real, py: real, pz: real): (t: (int, int, int))
    ensures hit.None? ==> t.1 == 0
    ensures hit.Some? ==> var b := hit.value; Abs((t.0 - b.x) as real) + Abs((t.1 - b.y) as real) + Abs((t.2 - b.z) as real) == 1.0
  {
    match hit
    case None => (Round(px / 3.0), 0, Round(pz / 3.0))
    case Some(b) =>
      var o := GridOffset(px - (b.x * 3) as real - 1.5, py - (b.y * 3) as real - 1.5, pz - (b.z * 3) as real - 1.5);
      (b.x + o.0, b.y + o.1, b.z + o.2)
  }

  // ---------------------------------------------------------------- loading

  /** A block as a saved file holds it; missing fields are None. */
  datatype BlockRecord = BlockRecord(x: int, y: int, z: int, kind: string, color: Option<string>,
                                     rotation: Option<int>, zRotation: Option<int>)

  /** b.color || currentColor: a missing or empty colour falls back to the current one. */
  function ColorOr(c: Option<string>, current: string): string {
    if c.None? || c.value == "" then current else c.value
  }

  /** The blocks loadFromData builds, ids from `id` on: records of an unknown type are skipped. */
  function Loaded(records: seq<BlockRecord>, current: string, id: nat): seq<Block>
    decreases |records|
  {
    if records == [] then []
    else
      var last := records[|records| - 1];
      var before := Loaded(records[..|records| - 1], current, id);
      if KnownKind(last.kind) then
        before + [Block(id + |before|, last.x, last.y, last.z, ColorOr(last.color, current), last.kind,
                        last.rotation.GetOr(0), last.zRotation.GetOr(0))]
      else before
  }

  /** Loaded blocks get consecutive fresh ids, one per record of a known type, so they are distinct. */
  lemma {:induction false} LoadedIds(records: seq<BlockRecord>, current: string, id: nat)
    ensures var r := Loaded(records, current, id);
      |r| <= |records| && (forall i :: 0 <= i < |r| ==> r[i].id == id + i && KnownKind(r[i].kind))
    ensures Distinct(Loaded(records, current, id))
    decreases |records|
  {
    if records != [] {
      LoadedIds(records[..|records| - 1], current, id);
    }
  }

  /**
   * The editor's record of its past and its undone future: the blocks,
   * without repeats, are what the history makes of the base set, every
   * action of the history was possible when taken, and the redo stack can be
   * replayed from the present blocks.
   */
  ghost predicate Timeline(base: set<Block>, blocks: seq<Block>, history: seq<Action>, redo: seq<Action>) {
    Distinct(blocks) && Elements(blocks) == Replay(base, history) && Legal(base, history) &&
    RedoLegal(Elements(blocks), redo)
  }

  /** Every id in use is below the next one to hand out. */
  predicate IdsBelow(blocks: seq<Block>, history: seq<Action>, redo: seq<Action>, next: nat) {
    (forall b :: b in blocks ==> b.id < next) &&
    (forall a :: a in history ==> a.block.id < next) &&
    (forall a :: a in redo ==> a.block.id < next)
  }

  /** Undo keeps the timeline, and the blocks become those before the undone action. */
  lemma UndoKeeps(base: set<Block>, blocks: seq<Block>, h: seq<Action>, r: seq<Action>, next: nat)
    requires Timeline(base, blocks, h, r) && IdsBelow(blocks, h, r, next) && h != []
    ensures var a, p := h[|h| - 1], h[..|h| - 1];
      Timeline(base, Apply(blocks, Inverse(a)), p, r + [a]) && IdsBelow(Apply(blocks, Inverse(a)), p, r + [a], next) &&
      Elements(Apply(blocks, Inverse(a))) == Unstep(Elements(blocks), a) &&
      Elements(Apply(blocks, Inverse(a))) == Replay(base, p)
  {
    var a, p := h[|h| - 1], h[..|h| - 1];
    UndoRedo(Replay(base, p), a);
    ApplyIsStep(blocks, Inverse(a));
    assert (r + [a])[..|r|] == r;
    assert a in h;
    forall e | e in p ensures e.block.id < next {
      assert e in h;
    }
  }

  /** Redo keeps the timeline, and the blocks become those after the redone action. */
  lemma RedoKeeps(base: set<Block>, blocks: seq<Block>, h: seq<Action>, r: seq<Action>, next: nat)
    requires Timeline(base, blocks, h, r) && IdsBelow(blocks, h, r, next) && r != []
    ensures var a, q := r[|r| - 1], r[..|r| - 1];
      Timeline(base, Apply(blocks, a), h + [a], q) && IdsBelow(Apply(blocks, a), h + [a], q, next) &&
      Elements(Apply(blocks, a)) == Step(Elements(blocks), a)
  {
    var a, q := r[|r| - 1], r[..|r| - 1];
    ApplyIsStep(blocks, a);
    assert (h + [a])[..|h|] == h;
    assert a in r;
    forall e | e in q ensures e.block.id < next {
      assert e in r;
    }
  }

  /** A new action keeps the history legal and empties the redo stack. */
  lemma RecordKeeps(base: set<Block>, blocks: seq<Block>, h: seq<Action>, r: seq<Action>, a: Action)
    requires Timeline(base, blocks, h, r) && Possible(Elements(blocks), a)
    ensures Legal(base, h + [a]) && Replay(base, h + [a]) == Step(Elements(blocks), a)
  {
    assert (h + [a])[..|h|] == h;
  }

  // ---------------------------------------------------------------- the editor

  datatype Mode = AddMode | DeleteMode
  datatype Key = ArrowLeft | ArrowRight | ArrowUp | ArrowDown | OtherKey

  class Builder {
    var blocks: seq<Block>
    var history: seq<Action>
    var redoStack: seq<Action>
    /** The id the next block gets. */
    var nextId: nat
    /** The blocks before the first recorded action. */
    ghost var base: set<Block>
    var currentColor: string
    var currentKind: string
    var rotation: int
    var zRotation: int
    var mode: Mode
    var layer: Option<int>
    var showAllLayers: bool

    /**
     * The blocks are distinct and are what the history makes of the base
     * set; the history followed by the redo stack (top first) is a sequence
     * of possible actions; every id in use is below nextId; the layer is
     * never negative.
     */
    ghost predicate Valid()
      reads this
    {
      Timeline(base, blocks, history, redoStack) && IdsBelow(blocks, history, redoStack, nextId) &&
      (layer.Some? ==> layer.value >= 0)
    }

    constructor ()
      ensures Valid() && blocks == [] && history == [] && redoStack == []
      ensures currentKind == "ramp" && rotation == 0 && zRotation == 0 && mode == AddMode
      ensures layer.None? && showAllLayers
    {
      blocks, history, redoStack := [], [], [];
      nextId := 0;
      base := {};
      currentColor := "#ff6b6b";
      currentKind := "ramp";
      rotation, zRotation := 0, 0;
      mode := AddMode;
      layer, showAllLayers := None, true;
    }

    /**
     * addBlock: nothing when the cell is taken or the block type is unknown;
     * otherwise one new block with the current look, an add entry on the
     * history and an empty redo stack.
     */
    method AddBlock(x: int, y: int, z: int)
      requires Valid()
      modifies this`blocks, this`history, this`redoStack, this`nextId
      ensures Valid()
      ensures (Occupied(old(blocks), x, y, z) || !KnownKind(old(currentKind))) ==>
        blocks == old(blocks) && history == old(history) && redoStack == old(redoStack) && nextId == old(nextId)
      ensures (!Occupied(old(blocks), x, y, z) && KnownKind(old(currentKind))) ==>
        var b := Block(old(nextId), x, y, z, old(currentColor), old(currentKind), old(rotation), old(zRotation));
        blocks == old(blocks) + [b] && history == old(history) + [Add(b)] && redoStack == [] &&
        nextId == old(nextId) + 1 && Elements(blocks) == Elements(old(blocks)) + {b}
    {
      if Occupied(blocks, x, y, z) || !KnownKind(currentKind) {
        return;
      }
      var b := Block(nextId, x, y, z, currentColor, currentKind, rotation, zRotation);
      Record(Add(b));
      PushDistinct(blocks, b);
      blocks := blocks + [b];
      nextId := nextId + 1;
    }

    /** deleteBlock: exactly that block goes, a delete entry is recorded and the redo stack empties. */
    method DeleteBlock(b: Block)
      requires Valid() && b in blocks
      modifies this`blocks, this`history, this`redoStack
      ensures Valid()
      ensures Elements(blocks) == Elements(old(blocks)) - {b} && |blocks| == |old(blocks)| - 1
      ensures blocks == Without(old(blocks), b)
      ensures history == old(history) + [Delete(b)] && redoStack == []
    {
      Record(Delete(b));
      WithoutDistinct(blocks, b);
      blocks := Without(blocks, b);
    }

    /** A new user action: pushed on the history, and the redo stack is dropped. */
    method Record(a: Action)
      requires Valid() && Possible(Elements(blocks), a) && a.block.id <= nextId
      modifies this`history, this`redoStack
      ensures history == old(history) + [a] && redoStack == []
      ensures Legal(base, history) && Replay(base, history) == Step(Elements(blocks), a)
      ensures forall e :: e in history ==> e.block.id <= nextId
    {
      RecordKeeps(base, blocks, history, redoStack, a);
      history := history + [a];
      redoStack := [];
    }

    /** undo: the last action is taken back and moves to the redo stack. */
    method Undo()
      requires Valid()
      modifies this`blocks, this`history, this`redoStack
      ensures Valid()
      ensures old(history) == [] ==> blocks == old(blocks) && history == [] && redoStack == old(redoStack)
      ensures old(history) != [] ==>
        var a := old(history)[|old(history)| - 1];
        history == old(history)[..|old(history)| - 1] && redoStack == old(redoStack) + [a] &&
        blocks == Apply(old(blocks), Inverse(a))
    {
      if history == [] {
        return;
      }
      var a := history[|history| - 1];
      UndoKeeps(base, blocks, history, redoStack, nextId);
      history := history[..|history| - 1];
      blocks := Apply(blocks, Inverse(a));
      redoStack := redoStack + [a];
    }

    /** redo: the last undone action is applied again and moves back onto the history. */
    method Redo()
      requires Valid()
      modifies this`blocks, this`history, this`redoStack
      ensures Valid()
      ensures old(redoStack) == [] ==> blocks == old(blocks) && history == old(history) && redoStack == []
      ensures old(redoStack) != [] ==>
        var a := old(redoStack)[|old(redoStack)| - 1];
        redoStack == old(redoStack)[..|old(redoStack)| - 1] && history == old(history) + [a] &&
        blocks == Apply(old(blocks), a)
    {
      if redoStack == [] {
        return;
      }
      var a := redoStack[|redoStack| - 1];
      RedoKeeps(base, blocks, history, redoStack, nextId);
      redoStack := redoStack[..|redoStack| - 1];
      blocks := Apply(blocks, a);
      history := history + [a];
    }

    /** clearAll, once confirmed: no blocks and no history. */
    method ClearAll(confirmed: bool)
      requires Valid()
      modifies this`blocks, this`history, this`redoStack, this`base
      ensures Valid()
      ensures !confirmed ==> blocks == old(blocks) && history == old(history) && redoStack == old(redoStack)
      ensures confirmed ==> blocks == [] && history == [] && redoStack == []
    {
      if confirmed {
        blocks, history, redoStack := [], [], [];
        base := {};
      }
    }

    /**
     * loadFromData: a file without a block list changes nothing; otherwise
     * the blocks are the file's blocks of a known type, with fresh ids, and
     * both stacks are empty.
     */
    method LoadFromData(data: Option<seq<BlockRecord>>)
      requires Valid()
      modifies this`blocks, this`history, this`redoStack, this`nextId, this`base
      ensures Valid()
      ensures data.None? ==> blocks == old(blocks) && history == old(history) && redoStack == old(redoStack) && nextId == old(nextId)
      ensures data.Some? ==>
        blocks == Loaded(data.value, old(currentColor), old(nextId)) && history == [] && redoStack == [] &&
        nextId == old(nextId) + |blocks|
    {
      if data.None? {
        return;
      }
      var loaded := LoadRecords(data.value, currentColor, nextId);
      LoadedIds(data.value, currentColor, nextId);
      blocks, history, redoStack := loaded, [], [];
      nextId := nextId + |loaded|;
      base := Elements(blocks);
    }

    /** The loop of loadFromData that builds one block per record of a known type. */
    static method LoadRecords(records: seq<BlockRecord>, current: string, start: nat) returns (loaded: seq<Block>)
      ensures loaded == Loaded(records, current, start)
    {
      loaded := [];
      for i := 0 to |records|
        invariant loaded == Loaded(records[..i], current, start)
      {
        assert records[..i + 1][..i] == records[..i];
        var r := records[i];
        if KnownKind(r.kind) {
          loaded := loaded + [Block(start + |loaded|, r.x, r.y, r.z, ColorOr(r.color, current), r.kind,
                                    r.rotation.GetOr(0), r.zRotation.GetOr(0))];
        }
      }
      assert records[..|records|] == records;
    }

    /** The colour buttons, the block-type buttons, the rotation buttons and the mode buttons. */
    method SetLook(color: string, kind: string, r: int, z: int)
      requires Valid()
      modifies this`currentColor, this`currentKind, this`rotation, this`zRotation
      ensures Valid() && currentColor == color && currentKind == kind && rotation == r && zRotation == z
    {
      currentColor, currentKind, rotation, zRotation := color, kind, r, z;
    }

    method SetMode(m: Mode)
      requires Valid()
      modifies this`mode
      ensures Valid() && mode == m
    {
      mode := m;
    }

    /** onKeyDown: the rotation and flip after a key press. */
    method OnKeyDown(key: Key)
      requires Valid()
      modifies this`rotation, this`zRotation
      ensures Valid()
      ensures (rotation, zRotation) == KeyTurn(currentKind, key, old(rotation), old(zRotation))
    {
      var turned := KeyTurn(currentKind, key, rotation, zRotation);
      rotation, zRotation := turned.0, turned.1;
    }

    /**
     * A click in add mode: a block with the current look goes in when the
     * targeted cell is placeable and the block type is known; otherwise
     * nothing changes.
     */
    method Place(x: int, y: int, z: int)
      requires Valid()
      modifies this`blocks, this`history, this`redoStack, this`nextId
      ensures Valid()
      ensures (!Placeable(old(blocks), x, y, z) || !KnownKind(old(currentKind))) ==>
        blocks == old(blocks) && history == old(history) && redoStack == old(redoStack) && nextId == old(nextId)
      ensures (Placeable(old(blocks), x, y, z) && KnownKind(old(currentKind))) ==>
        var b := Block(old(nextId), x, y, z, old(currentColor), old(currentKind), old(rotation), old(zRotation));
        blocks == old(blocks) + [b] && history == old(history) + [Add(b)] && redoStack == [] &&
        nextId == old(nextId) + 1
      ensures forall b :: b in blocks && b !in old(blocks) ==>
        0 <= b.y < GridSize && -GridSize / 2 <= b.x < GridSize / 2 && -GridSize / 2 <= b.z < GridSize / 2
    {
      if Placeable(blocks, x, y, z) {
        AddBlock(x, y, z);
      }
    }

    /** layer-up: from all layers to layer 0, otherwise one up. */
    method LayerUp()
      requires Valid()
      modifies this`layer, this`showAllLayers
      ensures Valid() && !showAllLayers
      ensures layer == Some(if old(layer).None? then 0 else old(layer).value + 1)
    {
      layer := if layer.None? then Some(0) else Some(layer.value + 1);
      showAllLayers := false;
    }

    /** layer-down: from all layers to layer 0, otherwise one down but never below 0. */
    method LayerDown()
      requires Valid()
      modifies this`layer, this`showAllLayers
      ensures Valid() && !showAllLayers
      ensures layer == Some(if old(layer).None? || old(layer).value == 0 then 0 else old(layer).value - 1)
    {
      if layer.None? {
        layer := Some(0);
      } else if layer.value > 0 {
        layer := Some(layer.value - 1);
      }
      showAllLayers := false;
    }

    /** The show-all box: checking it forgets the layer; unchecking keeps it. */
    method ShowAll(checked: bool)
      requires Valid()
      modifies this`layer, this`showAllLayers
      ensures Valid() && showAllLayers == checked
      ensures layer == if checked then None else old(layer)
    {
      showAllLayers := checked;
      if checked {
        layer := None;
      }
    }
  }

  /** updateLayerDisplay: a block shows with all layers on, or when it lies on the current layer. */
  predicate Visible(b: Block, showAll: bool, layer: Option<int>) {
    showAll || (layer.Some? && b.y == layer.value)
  }

  /**
   * The blocks whose meshes show, in list order: the ones the pointer's ray may hit.
   * With all layers on every block shows; with no current layer none does.
   */
  function VisibleBlocks(blocks: seq<Block>, showAll: bool, layer: Option<int>): (r: seq<Block>)
    ensures |r| <= |blocks|
    ensures forall b :: b in r <==> b in blocks && (showAll || (layer.Some? && b.y == layer.value))
    ensures showAll ==> r == blocks
    ensures !showAll && layer.None? ==> r == []
  {
    if |blocks| == 0 then []
    else
      var rest := VisibleBlocks(blocks[1..], showAll, layer);
      assert blocks == [blocks[0]] + blocks[1..];
      (if Visible(blocks[0], showAll, layer) then [blocks[0]] else []) + rest
  }
}
