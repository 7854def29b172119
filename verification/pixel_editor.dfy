/**
 * The pixel editor's state machine: the current image and size, the selected
 * palette index, the tool, the canvas shape, and the drag in progress with
 * the snapshot the rectangle and circle tools draw over. Pointer events arrive
 * here already converted to grid cells.
 */
module PixelEditor {
  import opened Wrappers
  import opened ShapeMask
  import opened PixelBuffer

  /** The tool buttons. */
  datatype Tool = Pencil | Eraser | BrushTool | Bucket | RectangleTool | CircleTool

  predicate IsShapeTool(t: Tool) {
    t == RectangleTool || t == CircleTool
  }

  function StampOf(t: Tool): StampKind
    requires IsShapeTool(t)
  {
    if t == RectangleTool then RectangleStamp else CircleStamp
  }

  /** The colour a line tool paints with: the eraser always paints the transparent index 0. */
  function StrokeColor(t: Tool, selected: int): int {
    if t == Eraser then 0 else selected
  }

  /** An image of n * n transparent cells. */
  function Blank(n: nat): seq<int> {
    seq(n * n, i => 0)
  }

  // ---------------------------------------------------------------- the brush, cell by cell

  /** The order in which drawBrush visits its four cells: row by row, left to right. */
  function BrushOrder(p: Cell): seq<Cell> {
    [(p.0 - 1, p.1 - 1), (p.0, p.1 - 1), (p.0 - 1, p.1), (p.0, p.1)]
  }

  /** setPixel applied to the cells in order. */
  function PaintAll(data: seq<int>, n: nat, shape: Shape, cells: seq<Cell>, color: int): (r: seq<int>)
    requires IsImage(data, n)
    ensures IsImage(r, n)
  {
    if cells == [] then data
    else Paint(PaintAll(data, n, shape, cells[..|cells| - 1], color), n, shape, cells[|cells| - 1], color)
  }

  /** Painting the four cells in the brush's order is the brush. */
  lemma {:induction false} BrushInOrder(data: seq<int>, n: nat, shape: Shape, p: Cell, color: int)
    requires IsImage(data, n)
    ensures PaintAll(data, n, shape, BrushOrder(p), color) == Brush(data, n, shape, p, color)
  {
    var order := BrushOrder(p);
    var (x, y) := p;
    assert order[..1][..0] == [] && order[..1][0] == (x - 1, y - 1);
    assert PaintAll(data, n, shape, [], color) == data;
    var d1 := PaintAll(data, n, shape, order[..1], color);
    assert d1 == Paint(data, n, shape, (x - 1, y - 1), color);
    assert order[..2][..1] == order[..1];
    var d2 := PaintAll(data, n, shape, order[..2], color);
    assert d2 == Paint(d1, n, shape, (x, y - 1), color);
    assert order[..3][..2] == order[..2];
    var d3 := PaintAll(data, n, shape, order[..3], color);
    assert d3 == Paint(d2, n, shape, (x - 1, y), color);
    assert order[..3] == order[..|order| - 1];
  }

  // ---------------------------------------------------------------- shape stamps, cell by cell

  /** Whether the nested row-by-row loops have already passed cell q when they stand at (x, y). */
  predicate Before(q: Cell, y: int, x: int) {
    q.1 < y || (q.1 == y && q.0 < x)
  }

  /** cur is data with the covered cells before (x, y) written: the image while a stamp is in progress. */
  ghost predicate StampedUpTo(data: seq<int>, cur: seq<int>, n: nat, shape: Shape, kind: StampKind,
                              box: (int, int, int, int), color: int, y: int, x: int)
    requires IsImage(data, n)
  {
    |cur| == |data| &&
    forall i :: 0 <= i < |data| ==>
      cur[i] == if Covered(kind, n, shape, box, CellOf(n, i)) && Before(CellOf(n, i), y, x) then color else data[i]
  }

  /** Visiting cell (x, y) writes it exactly when the stamp covers it. */
  lemma {:induction false} StampStep(data: seq<int>, cur: seq<int>, n: nat, shape: Shape, kind: StampKind,
                                     box: (int, int, int, int), color: int, y: int, x: int)
    requires IsImage(data, n) && StampedUpTo(data, cur, n, shape, kind, box, color, y, x)
    ensures Covered(kind, n, shape, box, (x, y)) ==>
      0 <= Idx(n, (x, y)) < |cur| &&
      StampedUpTo(data, cur[Idx(n, (x, y)) := color], n, shape, kind, box, color, y, x + 1)
    ensures !Covered(kind, n, shape, box, (x, y)) ==>
      StampedUpTo(data, cur, n, shape, kind, box, color, y, x + 1)
  {
    MulProduct(n, n);
    if Covered(kind, n, shape, box, (x, y)) {
      IdxCell(n, (x, y));
      var k := Idx(n, (x, y));
      var next := cur[k := color];
      forall i | 0 <= i < |data|
        ensures next[i] ==
          if Covered(kind, n, shape, box, CellOf(n, i)) && Before(CellOf(n, i), y, x + 1) then color else data[i]
      {
        CellIdx(n, i);
      }
    } else {
      forall i | 0 <= i < |data|
        ensures cur[i] ==
          if Covered(kind, n, shape, box, CellOf(n, i)) && Before(CellOf(n, i), y, x + 1) then color else data[i]
      {
        CellIdx(n, i);
      }
    }
  }

  /** Finishing a row of the box is starting the next one. */
  lemma RowDone(data: seq<int>, cur: seq<int>, n: nat, shape: Shape, kind: StampKind,
                box: (int, int, int, int), color: int, y: int)
    requires IsImage(data, n) && StampedUpTo(data, cur, n, shape, kind, box, color, y, box.2 + 1)
    ensures StampedUpTo(data, cur, n, shape, kind, box, color, y + 1, box.0)
  {
  }

  /** Before the first row nothing is written. */
  lemma StampBegins(data: seq<int>, n: nat, shape: Shape, kind: StampKind, a: Cell, b: Cell, color: int)
    requires IsImage(data, n)
    ensures StampedUpTo(data, data, n, shape, kind, Box(a, b), color, Box(a, b).1, Box(a, b).0)
  {
  }

  /** After the last row the stamp is complete. */
  lemma StampEnds(data: seq<int>, cur: seq<int>, n: nat, shape: Shape, kind: StampKind, a: Cell, b: Cell, color: int)
    requires IsImage(data, n) && StampedUpTo(data, cur, n, shape, kind, Box(a, b), color, Box(a, b).3 + 1, Box(a, b).0)
    ensures cur == Stamp(data, n, shape, kind, a, b, color)
  {
  }

  /**
   * The nested loops of stopDrawing and drawShapePreview: every cell of the
   * bounding box of the drag from a to b that is on the grid, inside the
   * shape and, for the circle tool, inside the circle, takes the colour.
   */
  method StampInto(img: array<int>, n: nat, shape: Shape, kind: StampKind, a: Cell, b: Cell, color: int)
    requires IsImage(img[..], n)
    modifies img
    ensures img[..] == Stamp(old(img[..]), n, shape, kind, a, b, color)
  {
    ghost var data := img[..];
    var x0 := if a.0 <= b.0 then a.0 else b.0;
    var x1 := if a.0 <= b.0 then b.0 else a.0;
    var y0 := if a.1 <= b.1 then a.1 else b.1;
    var y1 := if a.1 <= b.1 then b.1 else a.1;
    var box := (x0, y0, x1, y1);
    assert box == Box(a, b);
    StampBegins(data, n, shape, kind, a, b, color);
    var y := y0;
    while y <= y1
      invariant y0 <= y <= y1 + 1
      invariant StampedUpTo(data, img[..], n, shape, kind, box, color, y, x0)
    {
      StampRow(img, n, shape, kind, box, color, y, data);
      RowDone(data, img[..], n, shape, kind, box, color, y);
      y := y + 1;
    }
    StampEnds(data, img[..], n, shape, kind, a, b, color);
  }

  /** The inner loop: row y of the box, left to right. */
  method StampRow(img: array<int>, n: nat, shape: Shape, kind: StampKind, box: (int, int, int, int), color: int,
                  y: int, ghost data: seq<int>)
    requires IsImage(data, n) && box.0 <= box.2 && box.1 <= y <= box.3
    requires StampedUpTo(data, img[..], n, shape, kind, box, color, y, box.0)
    modifies img
    ensures StampedUpTo(data, img[..], n, shape, kind, box, color, y, box.2 + 1)
  {
    var (x0, y0, x1, y1) := box;
    var cx := (x0 + x1) as real / 2.0;
    var cy := (y0 + y1) as real / 2.0;
    var radius := (if x1 - x0 >= y1 - y0 then x1 - x0 else y1 - y0) as real / 2.0;
    var radiusSq := radius * radius;
    var x := x0;
    while x <= x1
      invariant x0 <= x <= x1 + 1
      invariant StampedUpTo(data, img[..], n, shape, kind, box, color, y, x)
    {
      var hit := kind == RectangleStamp ||
        (x as real - cx) * (x as real - cx) + (y as real - cy) * (y as real - cy) <= radiusSq;
      assert hit == (kind == RectangleStamp || InStampCircle(box, (x, y)));
      StampCell(img, n, shape, kind, box, color, y, x, hit && 0 <= x < n && 0 <= y < n && InShape(shape, n, x, y), data);
      x := x + 1;
    }
  }

  /** One visit of the stamp loops: writes cell (x, y) when write says the stamp covers it. */
  method StampCell(img: array<int>, n: nat, shape: Shape, kind: StampKind, box: (int, int, int, int), color: int,
                   y: int, x: int, write: bool, ghost data: seq<int>)
    requires IsImage(data, n) && InBox(box, (x, y))
    requires write == ((kind == RectangleStamp || InStampCircle(box, (x, y))) && 0 <= x < n && 0 <= y < n && InShape(shape, n, x, y))
    requires StampedUpTo(data, img[..], n, shape, kind, box, color, y, x)
    modifies img
    ensures StampedUpTo(data, img[..], n, shape, kind, box, color, y, x + 1)
  {
    StampStep(data, img[..], n, shape, kind, box, color, y, x);
    if write {
      IdxBound(n, (x, y));
      IdxFormula(n, (x, y));
      var index := y * n + x;
      Write(img, index, color);
    }
  }

  // ---------------------------------------------------------------- project files

  /**
   * A project file as JSON.parse reads it. A missing or falsy gridSize reads
   * as 0, a pixelData that is not an array as None, a missing shape as "".
   */
  datatype ProjectFile = ProjectFile(version: int, gridSize: int, pixelData: Option<seq<int>>, currentShape: string)

  /** A loaded project: the size, the image and the canvas shape. */
  datatype Project = Project(size: nat, data: seq<int>, shape: Shape)

  const CorruptMessage: string := "Project file is corrupt or missing data."
  const DimensionsMessage: string := "Invalid project data size or dimensions."

  /** The checks loadProject makes on a parsed file; Err(m) for a file JSON.parse rejected with message m. */
  function ReadProject(file: Result<ProjectFile>): (r: Result<Project>)
    ensures r.Ok? ==> 8 <= r.value.size <= 256 && |r.value.data| == r.value.size * r.value.size
    ensures r.Ok? ==> file.Ok? && file.value.pixelData == Some(r.value.data) && file.value.gridSize == r.value.size
    ensures (file.Ok? && file.value.pixelData.Some? && 8 <= file.value.gridSize <= 256 &&
             |file.value.pixelData.value| == file.value.gridSize * file.value.gridSize) ==> r.Ok?
    ensures r.Ok? ==> r.value.shape == ShapeOf(if file.value.currentShape == "" then "square" else file.value.currentShape)
  {
    match file
    case Err(m) => Err(m)
    case Ok(f) =>
      if f.gridSize == 0 || f.pixelData.None? then Err(CorruptMessage)
      else if f.gridSize * f.gridSize == |f.pixelData.value| && 8 <= f.gridSize <= 256 then
        Ok(Project(f.gridSize, f.pixelData.value, ShapeOf(if f.currentShape == "" then "square" else f.currentShape)))
      else Err(DimensionsMessage)
  }

  /** The record saveProject writes. */
  function SavedProject(n: nat, data: seq<int>, shape: Shape): ProjectFile {
    ProjectFile(4, n, Some(data), NameOf(shape))
  }

  /** A saved project of a size the editor offers loads back as the same size, image and shape. */
  lemma SaveLoadRoundTrip(n: nat, data: seq<int>, shape: Shape)
    requires 8 <= n <= 256 && |data| == n * n
    requires shape.Other? ==> shape.name !in {"", "square", "circle", "heart", "octagon"}
    ensures ReadProject(Ok(SavedProject(n, data, shape))) == Ok(Project(n, data, shape))
  {
    ShapeNameRoundTrip(shape);
  }

  // ---------------------------------------------------------------- the editor

  class Editor {
    var size: nat
    var pixels: array<int>
    var selected: int
    var tool: Tool
    var shape: Shape
    var drawing: bool
    var start: Option<Cell>
    var last: Cell
    var preview: Option<seq<int>>

    /**
     * The image has size * size cells, a pending snapshot has the same length,
     * and the eraser is always paired with the transparent index.
     */
    ghost predicate Valid()
      reads this
    {
      size >= 1 && pixels.Length == Mul(size, size) &&
      (preview.Some? ==> |preview.value| == pixels.Length) &&
      (tool == Eraser ==> selected == 0)
    }

    /** init(): a blank 32 by 32 square canvas, the pencil, and colour index 1 (black). */
    constructor ()
      ensures Valid() && fresh(pixels)
      ensures size == 32 && pixels[..] == Blank(32)
      ensures selected == 1 && tool == Pencil && shape == Square
      ensures !drawing && start == None && last == (0, 0) && preview == None
    {
      size := 32;
      pixels := new int[0];
      selected := 1;
      tool := Pencil;
      shape := Square;
      drawing := false;
      start := None;
      last := (0, 0);
      preview := None;
      new;
      SetupCanvas(32, None);
      SelectTool(Pencil);
      SelectShape("square");
    }

    /**
     * setupCanvas: the new size, with the supplied image when it has exactly
     * newSize * newSize cells and a blank image otherwise.
     */
    method SetupCanvas(newSize: nat, newData: Option<seq<int>>)
      requires newSize >= 1
      requires tool == Eraser ==> selected == 0
      modifies this
      ensures Valid() && fresh(pixels)
      ensures size == newSize
      ensures pixels[..] == if newData.Some? && |newData.value| == newSize * newSize then newData.value else Blank(newSize)
      ensures preview == None
      ensures selected == old(selected) && tool == old(tool) && shape == old(shape)
      ensures drawing == old(drawing) && start == old(start) && last == old(last)
    {
      size := newSize;
      MulProduct(newSize, newSize);
      if newData.Some? && |newData.value| == newSize * newSize {
        var d := newData.value;
        pixels := new int[|d|](i => if 0 <= i < |d| then d[i] else 0);
        assert pixels[..] == d;
      } else {
        pixels := new int[newSize * newSize](i => 0);
        assert pixels[..] == Blank(newSize);
      }
      preview := None;
    }

    /** setPixel on the current image, shape and size. */
    method SetPixel(x: int, y: int, color: int)
      requires Valid()
      modifies pixels
      ensures pixels[..] == Paint(old(pixels[..]), size, shape, (x, y), color)
    {
      if x < 0 || x >= size || y < 0 || y >= size {
        return;
      }
      IdxBound(size, (x, y));
      IdxFormula(size, (x, y));
      var index := y * size + x;
      if !InShape(shape, size, x, y) && color != 0 {
        return;
      }
      if pixels[index] == color {
        assert pixels[..][index := color] == pixels[..];
        return;
      }
      Write(pixels, index, color);
    }

    /** drawBrush: setPixel on the 2x2 square ending at (x, y), in the stroke colour. */
    method DrawBrush(x: int, y: int)
      requires Valid()
      modifies pixels
      ensures pixels[..] == Brush(old(pixels[..]), size, shape, (x, y), StrokeColor(tool, selected))
    {
      var color := if tool == Eraser then 0 else selected;
      ghost var data := pixels[..];
      ghost var order := BrushOrder((x, y));
      var startX, startY := x - 1, y - 1;
      var row := startY;
      while row <= startY + 1
        invariant startY <= row <= startY + 2
        invariant pixels[..] == PaintAll(data, size, shape, order[..2 * (row - startY)], color)
      {
        var col := startX;
        while col <= startX + 1
          invariant startX <= col <= startX + 2
          invariant pixels[..] == PaintAll(data, size, shape, order[..2 * (row - startY) + (col - startX)], color)
        {
          ghost var k := 2 * (row - startY) + (col - startX);
          assert order[k] == (col, row);
          assert order[..k + 1][..k] == order[..k];
          SetPixel(col, row, color);
          col := col + 1;
        }
        row := row + 1;
      }
      assert order[..4] == order;
      BrushInOrder(data, size, shape, (x, y), color);
    }

    /** What a pencil, eraser or brush stroke at p does to the image; the other tools draw nothing here. */
    static function Stroke(data: seq<int>, n: nat, shape: Shape, tool: Tool, selected: int, p: Cell): (r: seq<int>)
      requires IsImage(data, n)
      ensures IsImage(r, n)
    {
      match tool
      case Pencil => Paint(data, n, shape, p, selected)
      case Eraser => Paint(data, n, shape, p, 0)
      case BrushTool => Brush(data, n, shape, p, StrokeColor(tool, selected))
      case _ => data
    }

    /** applyLineTool. */
    method ApplyLineTool(x: int, y: int)
      requires Valid()
      modifies pixels
      ensures pixels[..] == Stroke(old(pixels[..]), size, shape, tool, selected, (x, y))
    {
      var color := if tool == Eraser then 0 else selected;
      match tool {
        case Pencil => SetPixel(x, y, color);
        case Eraser => SetPixel(x, y, color);
        case BrushTool => DrawBrush(x, y);
        case _ =>
      }
    }

    /** The image drawShapePreview shows while a shape is dragged to p, if a drag has a snapshot. */
    ghost function PreviewAt(p: Cell): Option<seq<int>>
      requires Valid()
      reads this
    {
      if start.None? || preview.None? then None
      else if IsShapeTool(tool) then
        Some(Stamp(preview.value, size, shape, StampOf(tool), start.value, p, selected))
      else Some(preview.value)
    }

    /** drawShapePreview: stamps a copy of the snapshot; the image itself is not touched. */
    method DrawShapePreview(x: int, y: int) returns (shown: Option<seq<int>>)
      requires Valid()
      ensures shown.Some? <==> start.Some? && preview.Some?
      ensures shown.Some? && IsShapeTool(tool) ==>
        shown.value == Stamp(preview.value, size, shape, StampOf(tool), start.value, (x, y), selected)
      ensures shown.Some? && !IsShapeTool(tool) ==> shown.value == preview.value
    {
      if start.None? || preview.None? {
        return None;
      }
      var base := preview.value;
      var copy := new int[|base|](i => if 0 <= i < |base| then base[i] else 0);
      assert copy[..] == base;
      if tool == RectangleTool {
        StampInto(copy, size, shape, RectangleStamp, start.value, (x, y), selected);
      } else if tool == CircleTool {
        StampInto(copy, size, shape, CircleStamp, start.value, (x, y), selected);
      }
      shown := Some(copy[..]);
    }

    /** handleDrawing: remembers the cell, then previews a shape or applies a line tool. */
    method HandleDrawing(x: int, y: int) returns (shown: Option<seq<int>>)
      requires Valid()
      modifies this, pixels
      ensures Valid() && pixels == old(pixels) && last == (x, y)
      ensures IsShapeTool(tool) ==> pixels[..] == old(pixels[..]) && shown == PreviewAt((x, y))
      ensures !IsShapeTool(tool) ==>
        pixels[..] == Stroke(old(pixels[..]), size, shape, tool, selected, (x, y)) && shown == None
      ensures size == old(size) && selected == old(selected) && tool == old(tool) && shape == old(shape)
      ensures drawing == old(drawing) && start == old(start) && preview == old(preview)
    {
      last := (x, y);
      if tool == RectangleTool || tool == CircleTool {
        shown := DrawShapePreview(x, y);
      } else {
        ApplyLineTool(x, y);
        shown := None;
      }
    }

    /**
     * startDrawing on cell (x, y): the bucket fills once and ends the gesture;
     * the shape tools remember the start cell and a snapshot of the image;
     * the line tools draw at once.
     */
    method StartDrawing(x: int, y: int) returns (shown: Option<seq<int>>)
      requires Valid()
      modifies this, pixels
      ensures Valid() && pixels == old(pixels) && last == (x, y)
      ensures drawing == (tool != Bucket)
      ensures tool == Bucket ==>
        (Flooded(old(pixels[..]), pixels[..], size, shape, (x, y), selected) &&
         start == None && preview == old(preview))
      ensures IsShapeTool(tool) ==>
        (pixels[..] == old(pixels[..]) && start == Some((x, y)) && preview == Some(old(pixels[..])))
      ensures tool != Bucket && !IsShapeTool(tool) ==>
        pixels[..] == Stroke(old(pixels[..]), size, shape, tool, selected, (x, y)) &&
        start == old(start) && preview == old(preview)
      ensures shown == None
      ensures size == old(size) && selected == old(selected) && tool == old(tool) && shape == old(shape)
    {
      drawing := true;
      last := (x, y);
      if tool == Bucket {
        FloodFill(pixels, size, shape, (x, y), selected);
        StopDrawing();
        return None;
      }
      if tool == RectangleTool || tool == CircleTool {
        start := Some((x, y));
        preview := Some(pixels[..]);
        return None;
      }
      shown := HandleDrawing(x, y);
    }

    /** continueDrawing: ignored unless a gesture is in progress, and always for the bucket. */
    method ContinueDrawing(x: int, y: int) returns (shown: Option<seq<int>>)
      requires Valid()
      modifies this, pixels
      ensures Valid() && pixels == old(pixels)
      ensures !old(drawing) || tool == Bucket ==>
        shown == None && last == old(last) && pixels[..] == old(pixels[..])
      ensures old(drawing) && tool != Bucket ==>
        (last == (x, y) &&
         (IsShapeTool(tool) ==> pixels[..] == old(pixels[..]) && shown == PreviewAt((x, y))) &&
         (!IsShapeTool(tool) ==> pixels[..] == Stroke(old(pixels[..]), size, shape, tool, selected, (x, y)) && shown == None))
      ensures size == old(size) && selected == old(selected) && tool == old(tool) && shape == old(shape)
      ensures drawing == old(drawing) && start == old(start) && preview == old(preview)
    {
      if !drawing || tool == Bucket {
        return None;
      }
      shown := HandleDrawing(x, y);
    }

    /**
     * stopDrawing: ignored unless a gesture is in progress. A shape tool with a
     * snapshot restores the snapshot and stamps the shape from the start cell
     * (a missing start counts as (0, 0), as Math.min and Math.max read null)
     * to the last cell.
     */
    method StopDrawing()
      requires Valid()
      modifies this
      ensures Valid()
      ensures size == old(size) && selected == old(selected) && tool == old(tool) && shape == old(shape)
      ensures last == old(last)
      ensures !old(drawing) ==> pixels == old(pixels) && start == old(start) && preview == old(preview) && !drawing
      ensures old(drawing) ==> !drawing && start == None
      ensures old(drawing) && IsShapeTool(tool) && old(preview).Some? ==>
        fresh(pixels) && preview == None &&
        pixels[..] == Stamp(old(preview).value, size, shape, StampOf(tool), old(start).GetOr((0, 0)), last, selected)
      ensures old(drawing) && !(IsShapeTool(tool) && old(preview).Some?) ==>
        pixels == old(pixels) && preview == old(preview)
    {
      if !drawing {
        return;
      }
      if tool == RectangleTool || tool == CircleTool {
        if preview.Some? {
          var base := preview.value;
          var from := start.GetOr((0, 0));
          pixels := new int[|base|](i => if 0 <= i < |base| then base[i] else 0);
          assert pixels[..] == base;
          StampInto(pixels, size, shape, StampOf(tool), from, last, selected);
          preview := None;
        }
      }
      drawing := false;
      start := None;
    }

    /** selectTool: the eraser also selects the transparent index. */
    method SelectTool(t: Tool)
      modifies this
      ensures tool == t
      ensures selected == if t == Eraser then 0 else old(selected)
      ensures size == old(size) && pixels == old(pixels) && shape == old(shape)
      ensures drawing == old(drawing) && start == old(start) && last == old(last) && preview == old(preview)
    {
      tool := t;
      if t == Eraser {
        selected := 0;
      }
    }

    /** A palette swatch click: picking a visible colour while erasing switches to the pencil. */
    method PickColor(index: int)
      requires 0 <= index < 256
      requires Valid()
      modifies this
      ensures Valid()
      ensures selected == index
      ensures tool == if old(tool) == Eraser && index != 0 then Pencil else old(tool)
      ensures size == old(size) && pixels == old(pixels) && shape == old(shape)
      ensures drawing == old(drawing) && start == old(start) && last == old(last) && preview == old(preview)
    {
      selected := index;
      if tool == Eraser && index != 0 {
        SelectTool(Pencil);
      }
    }

    /** selectShape: the canvas shape by name; the image is kept. */
    method SelectShape(name: string)
      modifies this
      ensures shape == ShapeOf(name)
      ensures size == old(size) && pixels == old(pixels) && selected == old(selected) && tool == old(tool)
      ensures drawing == old(drawing) && start == old(start) && last == old(last) && preview == old(preview)
    {
      shape := ShapeOf(name);
    }

    /** The custom size button: parseInt's result (None for NaN) must lie in 8..256. */
    method SetCustomSize(input: Option<int>) returns (accepted: bool)
      requires Valid()
      modifies this
      ensures Valid()
      ensures accepted <==> input.Some? && 8 <= input.value <= 256
      ensures accepted ==> size == input.value && pixels[..] == Blank(size) && fresh(pixels) && preview == None
      ensures !accepted ==> size == old(size) && pixels == old(pixels) && preview == old(preview)
      ensures selected == old(selected) && tool == old(tool) && shape == old(shape)
    {
      if input.Some? && 8 <= input.value <= 256 {
        SetupCanvas(input.value, None);
        return true;
      }
      return false;
    }

    /** loadProject: adopts the file when ReadProject accepts it and changes nothing otherwise. */
    method LoadProject(file: Result<ProjectFile>) returns (r: Result<Project>)
      requires Valid()
      modifies this
      ensures Valid()
      ensures r == ReadProject(file)
      ensures r.Ok? ==>
        (size == r.value.size && pixels[..] == r.value.data && shape == r.value.shape &&
         fresh(pixels) && preview == None)
      ensures r.Err? ==> size == old(size) && pixels == old(pixels) && shape == old(shape) && preview == old(preview)
      ensures selected == old(selected) && tool == old(tool)
      ensures drawing == old(drawing) && start == old(start) && last == old(last)
    {
      r := ReadProject(file);
      if file.Err? {
        return;
      }
      var project := file.value;
      if project.gridSize != 0 && project.pixelData.Some? {
        var newSize := project.gridSize;
        var newData := project.pixelData.value;
        if newSize * newSize == |newData| && 8 <= newSize <= 256 {
          SetupCanvas(newSize, Some(newData));
          SelectShape(if project.currentShape == "" then "square" else project.currentShape);
        }
      }
    }

    /** saveProject: the version-4 record of the current size, image and shape. */
    method SaveProject() returns (file: ProjectFile)
      ensures file == SavedProject(size, pixels[..], shape)
    {
      file := ProjectFile(4, size, Some(pixels[..]), NameOf(shape));
    }
  }
}
