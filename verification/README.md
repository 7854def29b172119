# A verified model of the classroom tools' core logic

This project models, in Dafny, the logic inside the teaching web site's
interactive tools and its report writer, apart from the browser and Django
plumbing around it:

- **Pixel-art editor** (`static/js/pixelmaker.js`):
  - `Palette`: the 256-colour palette;
  - `ShapeMask`: the canvas shape masks (square, circle, heart, octagon);
  - `PixelBuffer`: the flat row-major image with its drawing tools (set a pixel, the 2x2 brush, the queue-based flood fill, the rectangle and circle stamps);
  - `PixelEditor`: the editor's tool and drag state machine, with project save and load.
- **Audio recorder** (`static/js/audio_recorder.js`):
  - `Wav`: the 16-bit PCM WAV encoder, as a byte-exact writer into an array;
  - `Recorder`: the recording timer and the trim state (the two handles, apply-clip with a one-level undo, start-over).
- **Block builder** (`static/js/blockbuilder.js`), in `BlockBuilder`: blocks on an integer grid, added and deleted with a history stack and a redo stack, the arrow-key rotations, the layer controls and the placement rule.
- **Music workstation** (`static/js/daw.js`), in `Daw`:
  - four tracks of clips on a 120-second timeline;
  - the drag-and-drop edits;
  - the transport (rewind, fast-forward, play, pause, stop);
  - the per-frame rule that starts clips.
- **Report writer**:
  - `ReportLogic`: the sentence bank and sentence choice (`report/report_logic.py`);
  - `ReportViews`: the view that assembles a report (`report/views.py`);
  - `ReportForm`: the page script that collects the form, maps grades to levels and appends the strongest projects (`static/js/report.js`).
- **Template filters**, in `LineFilters`, `ListItemFilter` and `BulletFilter`: the two filters that turn text into one HTML element per non-blank line.

Supporting modules hold the few library operations the code relies on:
- `PyText`: Python's `splitlines`, `strip`, `join`, `split` and `capitalize`;
- `Decimal`: number-to-text conversion and `padStart`;
- `JsMath`: `Math.round`, `%`, `Math.min` and `Math.max`;
- `Wrappers`: `Option` and `Result`.

The model follows the code's own form:
- State the source updates in place is a class: `PixelEditor.Editor`, `Recorder.Recorder`, `BlockBuilder.Builder` and `Daw.Project`.
  - Each method states the new state in terms of specification functions.
  - The image and the WAV output stay arrays written in place.
  - Loops (flood fill, stamping, sample writing, track padding, clip scheduling, project scoring, form collection) are loops with invariants.
- Pure computations are functions, and their properties are lemmas.
- Numbers that are doubles in the browser are exact reals here.
- Integer widths (16- and 32-bit header fields, 16-bit samples) are written out explicitly.

## Model

| member | source | states |
|---|---|---|
| Palette.GeneratePalette | static/js/pixelmaker.js:2-30 | returns exactly 256 entries, entry i being the table entry i: transparent first, the 216-colour cube, then the greys |
| Palette.Table | static/js/pixelmaker.js:2-30 | the table has 256 entries, each being the entry its index calls for |
| Palette.PushCube | static/js/pixelmaker.js:8-17 | the three nested loops over the six levels extend the one-entry table to its first 217 entries |
| Palette.CubePosition | static/js/pixelmaker.js:10-15 | the push for level indices (r, g, b) lands at index 1 + 36r + 6g + b and is "#RRGGBB" of those levels |
| Palette.Hex2 | static/js/pixelmaker.js:13 | a channel value is written as exactly two hex digits |
| Palette.HexDigit | static/js/pixelmaker.js:13 | a hex digit is one of 0-9 or A-F, upper case as the generator writes it |
| Palette.ParseHex2 | static/js/pixelmaker.js:13 | two hex digits read as a channel value below 256 |
| Palette.Hex2RoundTrip | static/js/pixelmaker.js:13 | the two hex digits of a channel value read back as that value |
| Palette.Rgb | static/js/pixelmaker.js:13 | a colour is seven characters starting with '#' |
| Palette.RgbRoundTrip | static/js/pixelmaker.js:13 | "#RRGGBB" reads back as its three channels |
| Palette.CubeChannels | static/js/pixelmaker.js:9-17 | cube entry 1 + 36r + 6g + b reads back as the levels (r, g, b) |
| Palette.GrayChannels | static/js/pixelmaker.js:19-27 | grey i reads back as three equal channels i * 6 |
| Palette.GraysIncrease | static/js/pixelmaker.js:20-24 | the 39 greys are stepped by floor(255 / 40) = 6 and climb strictly up to 234, never reaching white |
| Palette.PaletteDuplicates | static/js/pixelmaker.js:9-27 | greys 17 and 34 repeat cube entries 87 and 173, so the table holds 254 distinct colours |
| Palette.GetColor | static/js/pixelmaker.js:78-80 | an index inside the table gives its entry; any other index gives the transparent entry |
| ShapeMask.ShapeOf | static/js/pixelmaker.js:104-146 | exactly the four known names give a known shape; any other name acts as the square |
| ShapeMask.ShapeNameRoundTrip | static/js/pixelmaker.js:707-712 | a shape saved by its name reads back as the same shape |
| ShapeMask.NameShapeRoundTrip | static/js/pixelmaker.js:749 | a name read as a shape is written back unchanged |
| ShapeMask.SquareCoversAll | static/js/pixelmaker.js:105-107 | the square and unknown shapes contain every cell |
| ShapeMask.NormQuotient | static/js/pixelmaker.js:111-112 | the normalised coordinate is (2g - (n - 1)) / (n - 1) |
| ShapeMask.CircleInteger | static/js/pixelmaker.js:114-117 | the circle test is exactly an integer inequality on the cell's distance from the centre |
| ShapeMask.OctagonThresholds | static/js/pixelmaker.js:131-141 | the corner-cut comparisons against 0.65 are exactly 40g > 33(n - 1) and 40g < 7(n - 1) |
| ShapeMask.NormMirror | static/js/pixelmaker.js:111-112 | mirroring a cell across the grid negates its normalised coordinate |
| ShapeMask.HeartMirror | static/js/pixelmaker.js:119-128 | the heart curve sees only the square of its horizontal coordinate |
| ShapeMask.MirrorX | static/js/pixelmaker.js:104-146 | every shape is left-right symmetric |
| ShapeMask.MirrorYAndTranspose | static/js/pixelmaker.js:114-142 | the circle and the octagon are also top-bottom symmetric and symmetric about the diagonal |
| ShapeMask.CornersCut | static/js/pixelmaker.js:114-142 | on grids of two or more cells the circle and the octagon exclude the corner cells |
| ShapeMask.CentreInside | static/js/pixelmaker.js:104-146 | the middle cell of an odd grid is inside every shape |
| PixelBuffer.IdxCell | static/js/pixelmaker.js:204 | the index y * n + x of a grid cell lies inside the image and leads back to the cell |
| PixelBuffer.CellIdx | static/js/pixelmaker.js:166-168 | every image index belongs to the grid cell it names |
| PixelBuffer.IdxDistinct | static/js/pixelmaker.js:204 | distinct grid cells have distinct indices |
| PixelBuffer.Paint | static/js/pixelmaker.js:201-213 | setPixel keeps an n-by-n image an n-by-n image |
| PixelBuffer.Write | static/js/pixelmaker.js:213 | writing one cell of the image array changes that cell and no other |
| PixelBuffer.PaintCells | static/js/pixelmaker.js:201-213 | setPixel changes only its own cell, and only when it is on the grid and either erases or lies inside the shape |
| PixelBuffer.PaintIdempotent | static/js/pixelmaker.js:211 | painting a cell twice with one colour is painting it once |
| PixelBuffer.PaintMask | static/js/pixelmaker.js:206-209 | outside the shape only erasing has an effect, and erasing works on every grid cell |
| PixelBuffer.BrushCells | static/js/pixelmaker.js:238-250 | the brush paints exactly the paintable cells of the 2x2 square ending at the pointer |
| PixelBuffer.Brush | static/js/pixelmaker.js:238-250 | the brush keeps an n-by-n image an n-by-n image |
| PixelBuffer.Box | static/js/pixelmaker.js:316-319 | the drag's bounding box is ordered and contains both corners, and each of its four sides is the matching coordinate of one of the two corners |
| PixelBuffer.StampCells | static/js/pixelmaker.js:321-350 | a stamp writes exactly the covered cells (in the box, on the grid, in the shape and, for the circle tool, in the circle) and keeps every other cell |
| PixelBuffer.Stamp | static/js/pixelmaker.js:321-350 | a stamp keeps an n-by-n image an n-by-n image |
| PixelBuffer.StampIdempotent | static/js/pixelmaker.js:416-456 | stamping the same drag twice is stamping it once |
| PixelBuffer.StampCircleInteger | static/js/pixelmaker.js:333-344 | the circle tool's real-number test is exactly an integer inequality |
| PixelBuffer.CircleInsideRectangle | static/js/pixelmaker.js:321-350 | the circle tool never writes a cell the rectangle tool would leave alone |
| PixelBuffer.CircleMissesCorner | static/js/pixelmaker.js:333-344 | a drag of at least one cell each way leaves its box's corner outside the circle |
| PixelBuffer.ReachedIsFillable | static/js/pixelmaker.js:273-277 | every cell the fill reaches is on the grid, of the start's colour and inside the shape |
| PixelBuffer.ReachStep | static/js/pixelmaker.js:283-286 | the filled region is closed under the four neighbours |
| PixelBuffer.NothingReached | static/js/pixelmaker.js:254-256 | with a start cell that cannot be filled, nothing is reached |
| PixelBuffer.FillStep | static/js/pixelmaker.js:269-287 | recolouring the queue's front and queueing its neighbours keeps the fill invariant |
| PixelBuffer.SkipStep | static/js/pixelmaker.js:273-277 | dropping a front that is filled already or not fillable keeps the fill invariant |
| PixelBuffer.FilledReached | static/js/pixelmaker.js:266-287 | every recoloured cell is reachable from the start |
| PixelBuffer.FillDone | static/js/pixelmaker.js:269 | once the queue is empty, the recoloured cells are exactly the reachable region |
| PixelBuffer.RowMajor | static/js/pixelmaker.js:258 | the index y * gridSize + x the editor computes is the cell's row-major index |
| PixelBuffer.Visit | static/js/pixelmaker.js:270-283 | one turn of the fill loop recolours the dequeued cell exactly when it is on the grid, has the target colour and lies inside the shape, and otherwise leaves the image unchanged |
| PixelBuffer.FloodFill | static/js/pixelmaker.js:253-292 | the image afterwards is the image before with exactly the region reachable from the start recoloured, including the early returns |
| PixelEditor.BrushInOrder | static/js/pixelmaker.js:245-249 | setPixel on the four cells row by row is the brush |
| PixelEditor.StampInto | static/js/pixelmaker.js:426-454 | the nested loops leave the image equal to the stamp of the drag on the snapshot |
| PixelEditor.StampStep | static/js/pixelmaker.js:432-435 | one visit writes its cell exactly when the stamp covers it |
| PixelEditor.ReadProject | static/js/pixelmaker.js:737-762 | a file is accepted exactly when it parsed, has a pixel array, a size from 8 to 256 and size * size cells; an accepted file's size and image are taken as they are, and its shape is the saved shape name, "square" when none was saved |
| PixelEditor.SaveLoadRoundTrip | static/js/pixelmaker.js:693-765 | a saved project of a size the editor offers loads back with the same size, image and shape |
| PixelEditor.Editor.constructor | static/js/pixelmaker.js:574-582 | init: a blank 32x32 square canvas, the pencil and colour 1 |
| PixelEditor.Editor.SetupCanvas | static/js/pixelmaker.js:474-495 | the new size, with the supplied image when it has exactly size * size cells and a blank one otherwise |
| PixelEditor.Editor.SetPixel | static/js/pixelmaker.js:201-235 | the image becomes the Paint of the old image |
| PixelEditor.Editor.DrawBrush | static/js/pixelmaker.js:238-250 | the image becomes the Brush of the old image in the stroke colour |
| PixelEditor.Editor.ApplyLineTool | static/js/pixelmaker.js:295-307 | pencil and eraser paint one cell, the brush four, the other tools nothing |
| PixelEditor.Editor.Stroke | static/js/pixelmaker.js:295-307 | a pencil, eraser or brush stroke keeps the image n by n; the other tools draw nothing here |
| PixelEditor.Editor.DrawShapePreview | static/js/pixelmaker.js:310-354 | shows the stamp of the drag on the snapshot when a drag has one, and leaves the image alone |
| PixelEditor.Editor.HandleDrawing | static/js/pixelmaker.js:357-370 | remembers the cell, then previews a shape tool or applies a line tool |
| PixelEditor.Editor.StartDrawing | static/js/pixelmaker.js:373-400 | the bucket floods from the cell and ends the gesture, a shape tool records the start and a snapshot, a line tool draws at once |
| PixelEditor.Editor.ContinueDrawing | static/js/pixelmaker.js:403-408 | ignored without a gesture or with the bucket; otherwise a preview or a stroke at the cell |
| PixelEditor.Editor.StopDrawing | static/js/pixelmaker.js:411-464 | ends the gesture; a shape tool with a snapshot commits the stamp from the start to the last cell onto the snapshot |
| PixelEditor.Editor.SelectTool | static/js/pixelmaker.js:535-554 | sets the tool; the eraser also selects the transparent index |
| PixelEditor.Editor.PickColor | static/js/pixelmaker.js:518-529 | selects the index; picking a visible colour while erasing switches to the pencil |
| PixelEditor.Editor.SelectShape | static/js/pixelmaker.js:557-570 | sets the canvas shape from its name and keeps the image |
| PixelEditor.Editor.SetCustomSize | static/js/pixelmaker.js:597-605 | accepts exactly the sizes 8 to 256 and then starts a blank canvas of that size; otherwise nothing changes |
| PixelEditor.Editor.LoadProject | static/js/pixelmaker.js:732-765 | adopts the size, image and shape of an accepted file and changes nothing otherwise; the colour, the tool and the gesture in progress are kept either way |
| PixelEditor.Editor.SaveProject | static/js/pixelmaker.js:693-729 | writes the version-4 record of the current size, image and shape |
| Wav.LE16RoundTrip | static/js/audio_recorder.js:399-404 | a 16-bit little-endian field reads back as its value modulo 2^16, and as a signed value when it fits |
| Wav.LE16 | static/js/audio_recorder.js:399-404 | a 16-bit field takes two bytes |
| Wav.LE32RoundTrip | static/js/audio_recorder.js:395-406 | a 32-bit little-endian field reads back as its value modulo 2^32 |
| Wav.LE32 | static/js/audio_recorder.js:395-406 | a 32-bit field takes four bytes |
| Wav.Ascii | static/js/audio_recorder.js:387-391 | writeString writes one byte per character, the character code modulo 256 |
| Wav.Clamp | static/js/audio_recorder.js:411 | a sample is clamped into [-1, 1] and kept when already there |
| Wav.Trunc | static/js/audio_recorder.js:412 | the scaled sample is converted toward zero |
| Wav.SampleInRange | static/js/audio_recorder.js:410-412 | every written sample is a signed 16-bit value of the sample's sign; full scale maps to 32767 and -32768 |
| Wav.HeaderRoundTrip | static/js/audio_recorder.js:393-406 | the header reads back as PCM, 16 bits, the given channels and rate, byte rate rate * channels * 2, block align channels * 2, RIFF size length - 8 and data size length - 44, whatever follows it |
| Wav.HeaderParses | static/js/audio_recorder.js:393-406 | the 44 header bytes alone read back as those fields |
| Wav.HeaderLayout | static/js/audio_recorder.js:393-406 | each field sits at its offset: the tags, the sizes, format 1, channels, rates, block align and 16 bits |
| Wav.Header | static/js/audio_recorder.js:393-406 | the header takes 44 bytes |
| Wav.ParseIgnoresRest | static/js/audio_recorder.js:417 | a reader of the header looks at the first 44 bytes only |
| Wav.WavLength | static/js/audio_recorder.js:383-384 | the file is exactly length * channels * 2 + 44 bytes |
| Wav.SampleAt | static/js/audio_recorder.js:408-415 | sample i of channel c sits at byte 44 + 2(i * channels + c) and reads back as its 16-bit value |
| Wav.WriteBytes | static/js/audio_recorder.js:387-391 | the bytes land at the offset after what was written before |
| Wav.EncodeWav | static/js/audio_recorder.js:380-418 | the blob's bytes are the header followed by every frame's samples, and its size is the file size |
| Wav.WriteHeader | static/js/audio_recorder.js:393-406 | the first 44 bytes are the header |
| Wav.WriteRiffDescriptor | static/js/audio_recorder.js:394-396 | "RIFF", length - 8, "WAVE" |
| Wav.WriteFormatChunk | static/js/audio_recorder.js:397-404 | "fmt ", 16, format 1, channels, rate, byte rate, block align, 16 bits |
| Wav.WriteFormatHead | static/js/audio_recorder.js:397-400 | "fmt ", chunk size 16, format 1, channel count |
| Wav.WriteFormatRates | static/js/audio_recorder.js:401-404 | sample rate, byte rate = rate * channels * 2, block align = channels * 2, 16 bits |
| Wav.WriteDataHead | static/js/audio_recorder.js:405-406 | "data", length - 44 |
| Wav.WriteSamples | static/js/audio_recorder.js:408-415 | after the header come the frames in order |
| Wav.WriteFrame | static/js/audio_recorder.js:409-414 | one frame is every channel's sample, clamped, scaled and written as a signed 16-bit value |
| Wav.FrameBytes | static/js/audio_recorder.js:409-414 | the first ch channels of a frame take two bytes each |
| Recorder.TimerDigits | static/js/audio_recorder.js:65-68 | below 100 minutes the timer text is "mm:ss", with seconds below 60 |
| Recorder.ClockDigits | static/js/audio_recorder.js:68 | minutes and seconds below 100 are written as two digits each around a colon |
| Recorder.Tick | static/js/audio_recorder.js:64-74 | a tick shows the elapsed whole seconds and stops recording exactly from 120 seconds on |
| Recorder.FrameBounds | static/js/audio_recorder.js:163-174 | the trim's frames lie inside the recording, and the slice is at least as long as the new buffer |
| Recorder.ClipIsSlice | static/js/audio_recorder.js:163-176 | the clip is a well-formed buffer whose every sample is the original sample at the same time; no zero padding is added |
| Recorder.ClipDuration | static/js/audio_recorder.js:163-180 | the clip lasts at most the trimmed time and less than one frame less |
| Recorder.TimeAt | static/js/audio_recorder.js:333-335 | the time under the pointer lies within the recording |
| Recorder.Recorder.constructor | static/js/audio_recorder.js:2-6 | no recording, no saved buffer, no drag, nothing to preview |
| Recorder.Recorder.Stop | static/js/audio_recorder.js:81-124 | the decoded recording becomes the buffer, trimmed to all of it; apply and download are enabled, undo is not |
| Recorder.Recorder.StartOver | static/js/audio_recorder.js:128-154 | no recording, no saved buffer, both trim points 0, every button disabled |
| Recorder.Recorder.ApplyClip | static/js/audio_recorder.js:158-189 | does nothing without a recording or with start not before end; otherwise saves the buffer and replaces it with the clip, trimmed to all of it and previewed as WAV; a clip under one frame leaves only the saved buffer changed |
| Recorder.Recorder.Clip | static/js/audio_recorder.js:163-176 | the new buffer is the trimmed buffer: the sample slice between the handles, per channel, at the computed length |
| Recorder.Recorder.CopyChannels | static/js/audio_recorder.js:170-176 | the channel loop copies each channel's slice into a buffer of the new length |
| Recorder.Recorder.Show | static/js/audio_recorder.js:178-183 | the new buffer, trimmed to all of it and previewed as its WAV file |
| Recorder.Recorder.Undo | static/js/audio_recorder.js:188-210 | a press while the undo button is disabled, or without a saved buffer, changes nothing, so a buffer saved before a new take never returns; otherwise the saved buffer returns, trimmed to all of it, is no longer saved, and undo is disabled again |
| Recorder.Recorder.Press | static/js/audio_recorder.js:319-323 | a press on a handle starts dragging it |
| Recorder.Recorder.Release | static/js/audio_recorder.js:325-327 | releasing ends any drag |
| Recorder.Recorder.Drag | static/js/audio_recorder.js:329-343 | the dragged handle moves to the time under the pointer, the start never past the end and the end never before the start |
| Recorder.Recorder.Download | static/js/audio_recorder.js:215-220 | without a recording nothing is sent; otherwise the WAV file of the current buffer |
| BlockBuilder.Without | static/js/blockbuilder.js:925 | filtering a block out keeps exactly the other blocks and never lengthens the list |
| BlockBuilder.WithoutDistinct | static/js/blockbuilder.js:925 | on a list without repeats, filtering a present block removes exactly one entry, and filtering an absent one changes nothing |
| BlockBuilder.PushDistinct | static/js/blockbuilder.js:914 | pushing a block not yet in the list keeps it free of repeats and adds exactly that block |
| BlockBuilder.UndoRedo | static/js/blockbuilder.js:933-953 | undoing an action restores the blocks from before it, the inverse action is possible afterwards, and redoing it gives back the state after the action |
| BlockBuilder.ApplyIsStep | static/js/blockbuilder.js:938-946 | the list operations (push, filter) act on the set of blocks as the add and delete actions do, and introduce no block but the action's |
| BlockBuilder.TurnsStayRightAngles | static/js/blockbuilder.js:70-71 | the left and right arrows keep a multiple of 90 degrees in [0, 360) and undo each other |
| BlockBuilder.KeyTurnKeepsAngles | static/js/blockbuilder.js:60-77 | every key keeps the rotation a right angle and the flip 0 or 180; cubes and other keys change nothing |
| BlockBuilder.GridOffset | static/js/blockbuilder.js:857-861 | the offset is one unit step along one axis, on an axis where the hit is farthest from the centre (ties to y, then x), toward the hit |
| BlockBuilder.VisibleBlocks | static/js/blockbuilder.js:524-534 | the blocks that show (and that the pointer ray may hit), in list order: all of them with all layers on, exactly those on the current layer otherwise, none without a current layer |
| BlockBuilder.Target | static/js/blockbuilder.js:833-878 | a hit on the grid plane targets a floor cell (y = 0); a hit on a block targets a cell adjacent to it |
| BlockBuilder.LoadedIds | static/js/blockbuilder.js:337-353 | loading builds at most one block per record, each of a known type, with consecutive fresh ids, so no block repeats |
| BlockBuilder.UndoKeeps | static/js/blockbuilder.js:933-953 | undo keeps the history consistent: the blocks become what the shortened history makes of the base and the undone action is replayable from the redo stack |
| BlockBuilder.RedoKeeps | static/js/blockbuilder.js:377-394 | redo keeps the history consistent: the blocks become those after the redone action, now on the history |
| BlockBuilder.RecordKeeps | static/js/blockbuilder.js:915-917 | a newly recorded action keeps every step of the history possible and the history's result equal to the new blocks |
| BlockBuilder.Builder.constructor | static/js/blockbuilder.js:10-13 | no blocks, empty stacks, a ramp with no rotation, add mode, all layers shown |
| BlockBuilder.Builder.AddBlock | static/js/blockbuilder.js:898-921 | an occupied cell or an unknown block type changes nothing; otherwise one new block with the colour, type and rotations current at the call is pushed with a fresh id, recorded as an add, and the redo stack is emptied; only the blocks, the two stacks and the id counter may change |
| BlockBuilder.Builder.DeleteBlock | static/js/blockbuilder.js:923-931 | exactly the given block goes, a delete is recorded and the redo stack is emptied; only the blocks and the two stacks may change |
| BlockBuilder.Builder.Record | static/js/blockbuilder.js:915-917 | the action goes on the history, the redo stack is dropped and the history stays legal |
| BlockBuilder.Builder.Undo | static/js/blockbuilder.js:933-953 | an empty history changes nothing; otherwise the last action is reversed on the blocks and moves to the redo stack; only the blocks and the two stacks may change |
| BlockBuilder.Builder.Redo | static/js/blockbuilder.js:377-394 | an empty redo stack changes nothing; otherwise the last undone action is applied again and moves back to the history; only the blocks and the two stacks may change |
| BlockBuilder.Builder.ClearAll | static/js/blockbuilder.js:955-965 | without confirmation nothing changes; with it there are no blocks and both stacks are empty; the look, mode, layer and id counter are kept |
| BlockBuilder.Builder.LoadFromData | static/js/blockbuilder.js:326-357 | a file without a block list changes nothing; otherwise the blocks are the file's blocks of a known type with fresh ids, missing colours taken from the colour current at the call, and both stacks are empty; the look, mode and layer are kept |
| BlockBuilder.Builder.LoadRecords | static/js/blockbuilder.js:337-353 | the loop over the file's blocks builds the loaded blocks, skipping unknown types |
| BlockBuilder.Builder.SetLook | static/js/blockbuilder.js:218-247 | the colour, block type, rotation and flip buttons set the current look |
| BlockBuilder.Builder.SetMode | static/js/blockbuilder.js:194-195 | the add and delete buttons set the mode |
| BlockBuilder.Builder.OnKeyDown | static/js/blockbuilder.js:60-77 | the rotation and flip after a key press are those of the arrow-key rule |
| BlockBuilder.Builder.Place | static/js/blockbuilder.js:864-891 | a click at a cell outside the 80 x 80 x 80 grid or already taken, or with an unknown block type, changes nothing; otherwise it appends one block with the current look at that cell, records the add and empties the redo stack; any new block lies inside the grid |
| BlockBuilder.Builder.LayerUp | static/js/blockbuilder.js:260-264 | from all layers the view goes to layer 0, otherwise one layer up, and all-layers is switched off |
| BlockBuilder.Builder.LayerDown | static/js/blockbuilder.js:267-271 | from all layers the view goes to layer 0, otherwise one layer down but never below 0 |
| BlockBuilder.Builder.ShowAll | static/js/blockbuilder.js:274-277 | checking the box forgets the layer; unchecking keeps it |
| Daw.InitialTracks | static/js/daw.js:40-42 | the project always has four tracks: the saved ones when exactly four were saved, four empty ones otherwise |
| Daw.PaddedShape | static/js/daw.js:509-511 | padding keeps the existing tracks as they are and appends empty full-volume tracks up to four |
| Daw.RemoveId | static/js/daw.js:180-181 | filtering by instance id keeps exactly the clips with another id; without that id nothing changes |
| Daw.RemoveFile | static/js/daw.js:715-717 | filtering by file keeps exactly the clips of other files |
| Daw.FindId | static/js/daw.js:574 | the index found is the first clip with that id, and it is past the end exactly when no clip has it |
| Daw.SnapStart | static/js/daw.js:568-571 | a drop's start time is a whole, non-negative second within half a second of the drop position on the 120-second timeline |
| Daw.DropSameTrack | static/js/daw.js:573-575 | a drop on the clip's own track gives the first clip with the dragged id the new start and keeps every other clip; with no such clip the tracks are unchanged; no track gains or loses a clip |
| Daw.DropAcross | static/js/daw.js:576-584 | a drop from elsewhere removes the instance from its old track, appends it to the target when its id is absent there, leaves the target unchanged when the id is already there, and changes no other track |
| Daw.AllClipsMembers | static/js/daw.js:777-783 | getAllClips lists a clip with a track index exactly when that track holds the clip |
| Daw.MinStart | static/js/daw.js:824 | the minimum start is a lower bound of every clip's start and is some clip's start |
| Daw.MaxEnd | static/js/daw.js:844-846 | the maximum end is an upper bound of every clip's end and is some clip's end |
| Daw.RewindBounds | static/js/daw.js:822-830 | rewinding lands on a whole second, never before the rounded earliest start (0 without clips), and exactly five seconds back when that is allowed |
| Daw.ForwardBounds | static/js/daw.js:842-852 | fast-forwarding lands on a whole second, never past the rounded latest end (120 without clips), and exactly five seconds on when that is allowed |
| Daw.SchedulePrefix | static/js/daw.js:887-892 | a frame only appends to the started clips and never starts an id that is already playing |
| Daw.ScheduleNew | static/js/daw.js:785-802 | every clip a frame starts is a listed clip active now, started at the offset into it and with its track's gain |
| Daw.ScheduleComplete | static/js/daw.js:887-892 | after a frame every listed clip active now is playing |
| Daw.Project.constructor | static/js/daw.js:40-54 | the tracks come from the saved project, at time 0, stopped, nothing scheduled |
| Daw.Project.RenderTracks | static/js/daw.js:509-511 | the padding loop leaves the tracks padded to four |
| Daw.Project.Drop | static/js/daw.js:555-587 | a drag without a clip changes nothing; otherwise the tracks become those of the drop rule at the snapped start |
| Daw.Project.DeleteClip | static/js/daw.js:172-185 | when confirmed the clips with that id leave that track and no other track changes; otherwise nothing changes |
| Daw.Project.ReplaceUpload | static/js/daw.js:712-718 | when confirmed no clip of that file remains on any track and every other clip stays |
| Daw.Project.TouchEnd | static/js/daw.js:252-256 | the dragged clip's start becomes its new position rounded to a whole second, and nothing else changes |
| Daw.Project.GetAllClips | static/js/daw.js:777-783 | the listing is every track's clips in track order with their track index |
| Daw.Project.Rewind | static/js/daw.js:822-834 | the time becomes the rewind position and all clip audio stops |
| Daw.Project.FastForward | static/js/daw.js:842-856 | the time becomes the fast-forward position and all clip audio stops |
| Daw.Project.StartPlayback | static/js/daw.js:898 | starting while playing changes nothing; otherwise playback starts with the frame clock reset and nothing scheduled |
| Daw.Project.PausePlayback | static/js/daw.js:899 | pausing stops playback and keeps the position and the started clips |
| Daw.Project.StopPlayback | static/js/daw.js:900 | stopping rewinds to 0 and drops all started clips |
| Daw.Project.PlayLoop | static/js/daw.js:869-895 | a frame while stopped does nothing; otherwise time moves on by the frame delta, playback stops and rewinds at 120 seconds, and otherwise the frame's scheduling pass runs |
| Daw.Project.ScheduleClips | static/js/daw.js:887-892 | the scheduling loop's result is one scheduling pass over the listed clips |
| Daw.Project.SetVolume | static/js/daw.js:537-551 | the slider sets that track's volume and the gain of exactly that track's playing clips |
| Daw.Project.Save | static/js/daw.js:912-923 | saving copies every clip's start into start_time, changes nothing else, and sends the tracks |
| Daw.StampClips | static/js/daw.js:915-917 | the inner saving loop stamps each clip of a track with its start time |
| ReportLogic.CommentDictionary | report/report_logic.py:11-191 | the sentence bank has exactly the five report sections, each with the three levels and nine templates at each |
| ReportLogic.OpeningStatement | report/report_logic.py:12-46 | the opening section has the three levels, nine templates each |
| ReportLogic.SkillResearch | report/report_logic.py:48-82 | the research section has the three levels, nine templates each |
| ReportLogic.SkillMaking | report/report_logic.py:84-118 | the making section has the three levels, nine templates each |
| ReportLogic.SkillEvaluating | report/report_logic.py:120-154 | the evaluating section has the three levels, nine templates each |
| ReportLogic.ClosingStatement | report/report_logic.py:156-190 | the closing section has the three levels, nine templates each |
| ReportLogic.Options | report/report_logic.py:194 | an unknown section has no options |
| ReportLogic.LevelRead | report/report_logic.py:194 | the level a lookup reads is always one of the three, and a known level reads itself |
| ReportLogic.OptionsOfShaped | report/report_logic.py:194 | in a shaped bank a known section gives its list for the level, and an unknown level falls back to the LOW list |
| ReportLogic.NineOptions | report/report_logic.py:194-196 | a known section of a shaped bank always offers nine templates, so the fallback message never appears |
| ReportLogic.FormatAppend | report/report_logic.py:204-212 | formatting a template in two parts formats each part in turn |
| ReportLogic.FormatLiteral | report/report_logic.py:204-212 | a template without placeholders formats to the same text whatever the values |
| ReportLogic.PronounCapOf | report/report_logic.py:201 | pronouns other than he, she and they are passed through unchanged |
| ReportLogic.PossessiveCapOf | report/report_logic.py:209 | possessives other than his, her and their are passed through unchanged |
| ReportLogic.CapitalisedPronouns | report/report_logic.py:201 | he, she and they become He, She and They, and a capitalised pronoun is not in the list so it stays as it is |
| ReportLogic.CapitalisedPossessives | report/report_logic.py:209 | his, her and their become His, Her and Their, and a capitalised possessive stays as it is |
| ReportLogic.ReportSentence | report/report_logic.py:194-196 | without options the sentence is the fixed "could not be generated" message |
| ReportLogic.SentenceIsOption | report/report_logic.py:198-214 | with options the sentence is one of them, with its placeholders filled from the student's details |
| ReportLogic.EveryOptionChosen | report/report_logic.py:198-214 | every option can be the chosen sentence: the pick at its position gives it, filled in |
| ReportViews.PronounsFor | report/views.py:26-40 | Boy gives he/his/him, Girl gives she/her/her, and anything else, missing included, gives they/their/them |
| ReportViews.PronounsCapitalised | report/views.py:28-40 | whatever the gender, the sentence writer receives a subject and possessive it capitalises, with an upper-case first letter |
| ReportViews.OverallLevel | report/views.py:43-46 | the overall level is kept when it is LOW, MID or HIGH, and is MID otherwise, missing included |
| ReportViews.ResearchLevel | report/views.py:48-50 | the research level is kept when it is a level and falls back to the normalised overall level otherwise |
| ReportViews.LevelsIdempotent | report/views.py:43-50 | normalising an already normalised level changes nothing |
| ReportViews.TotalAppend | report/views.py:58-61 | the total of fields side by side is the sum of their totals |
| ReportViews.TotalIgnores | report/views.py:58-61 | a field outside crit_, or holding a non-integer, does not change the total |
| ReportViews.ScoreProjects | report/views.py:56-62 | each project gets its title (Untitled by default) and its criteria total, in order |
| ReportViews.MaxScore | report/views.py:65 | the maximum score bounds every score and is some project's score |
| ReportViews.TitlesScoringMembers | report/views.py:67 | a title is listed exactly when some project with that title has the given score |
| ReportViews.TitlesScoring | report/views.py:67 | no more titles than projects are listed |
| ReportViews.TitlesScoringOrder | report/views.py:67 | the listed titles keep the projects' order |
| ReportViews.TitlesScoringSplit | report/views.py:67 | listing over two runs of projects lists each run in turn |
| ReportViews.TitlesScoringText | report/views.py:67 | when every title is text, every listed title is text |
| ReportViews.StrongestNonEmpty | report/views.py:64-67 | with projects at least one is strongest, and every strongest title belongs to a project with the top score |
| ReportViews.Parts | report/views.py:71-77 | a report has one sentence per section |
| ReportViews.PartsInOrder | report/views.py:71-77 | sentence i is written for section i, research at the research level and the rest at the overall level |
| ReportViews.Respond | report/views.py:21-88 | the "Invalid JSON" error with status 400 is given exactly when the body is not valid JSON |
| ReportViews.ReportFromBank | report/views.py:71-83 | with the full sentence bank each sentence of a report is one of nine templates of its section at its level, filled in |
| ReportViews.GenerateReportSingle | report/views.py:16-92 | the view's scoring loop and assembly give the response of the report rule |
| ReportViews.HandleRequest | report/views.py:16-92 | the view answers with the report rule over a sentence bank of the required shape |
| ReportForm.OrDefault | static/js/report.js:14-17 | a missing or empty form value takes the default, and any other value is kept |
| ReportForm.TrimStart | static/js/report.js:30-33 | parseInt skips exactly the leading white space |
| ReportForm.DigitValue | static/js/report.js:30-33 | a character is a decimal digit exactly when its digit value is below ten |
| ReportForm.DigitRun | static/js/report.js:30-33 | the digits read are the longest run of digits of the radix |
| ReportForm.DigitsValueDecimal | static/js/report.js:30-33 | decimal digits read in base ten are the number they write |
| ReportForm.DigitRunPrefix | static/js/report.js:30-33 | reading stops exactly at the first character that is not a digit |
| ReportForm.ParseUnsignedNatString | static/js/report.js:30-33 | a number's decimal text, followed by a non-digit, reads back as that number |
| ReportForm.ParseIntStartingWithDigit | static/js/report.js:30-33 | text starting with a digit is read without a sign |
| ReportForm.ParseIntMinus | static/js/report.js:30-33 | a leading minus sign negates the number read |
| ReportForm.ParseIntNatString | static/js/report.js:30-33 | parseInt reads back a number's decimal text, with or without a minus, whatever non-digit text follows |
| ReportForm.ParseIntNoDigits | static/js/report.js:30-33 | text without any decimal digit is NaN |
| ReportForm.ParseUnsignedNoDigit | static/js/report.js:30-33 | text that does not start with a digit has no number after the sign |
| ReportForm.CritOf | static/js/report.js:30-33 | a criterion is never 0: zero, like NaN, becomes null |
| ReportForm.CritOfNumber | static/js/report.js:30-33 | a criterion field holding a number gives that number, and 0 gives null |
| ReportForm.ProjectAt | static/js/report.js:28-34 | a project always has the four criteria a to d |
| ReportForm.KeptProjects | static/js/report.js:23-46 | no more projects than form slots are kept |
| ReportForm.KeptProjectsMembers | static/js/report.js:23-46 | a project is sent exactly when it is project i for some i from 1 to 5 that has a title other than its placeholder or a score |
| ReportForm.AnyScore | static/js/report.js:36-41 | the loop over the criteria finds a score exactly when some criterion is not null |
| ReportForm.CollectFormData | static/js/report.js:9-49 | the four details get their defaults, and the projects are those of slots 1 to 5 that have a title or a score, in order |
| ReportForm.LevelOfGrade | static/js/report.js:64-66 | grades 1 and 2 are LOW, 6 and 7 HIGH, and every other grade MID |
| ReportForm.GradeLevel | static/js/report.js:65-67 | the overall grade field always maps to one of the three levels |
| ReportForm.GradeLevels | static/js/report.js:65-67 | a grade typed as a number selects that grade's level, and 0 counts as grade 4 |
| ReportForm.Submit | static/js/report.js:64-72 | a payload is refused exactly when the name or the projects are missing; otherwise it is sent unchanged with equal overall and research levels taken from the grade |
| ReportForm.RefusedOnlyWithoutProjects | static/js/report.js:69-72 | the name always has its default, so the page refuses exactly when no project was kept |
| ReportForm.Insert | static/js/report.js:93-97 | inserting into the ranking adds exactly that project |
| ReportForm.RankedTail | static/js/report.js:93-97 | the rest of a ranking is a ranking |
| ReportForm.RankedCons | static/js/report.js:93-97 | a project ranked before all of a ranking can head it |
| ReportForm.HeadBeatsInsert | static/js/report.js:93-97 | a ranking's head that comes before the new project comes before everything after it once the project is inserted |
| ReportForm.InsertRanked | static/js/report.js:93-97 | inserting a new project keeps the ranking ordered |
| ReportForm.Rank | static/js/report.js:93-97 | the ranking is a permutation of the projects |
| ReportForm.RankRanked | static/js/report.js:93-97 | the ranking puts a higher sum first and keeps equal sums in their original order, as a stable sort does |
| ReportForm.Indices | static/js/report.js:93 | the copy of the project list holds every project once, in order |
| ReportForm.SortedProjects | static/js/report.js:93-97 | the sorted projects are a permutation of the projects, ordered by descending sum and stably among equals |
| ReportForm.IndicesBelow | static/js/report.js:93-97 | every project of the sorted list comes from the list |
| ReportForm.SortedProjectsIndices | static/js/report.js:93-97 | every project appears in the sorted list |
| ReportForm.TopTitles | static/js/report.js:98 | at most two titles are taken, fewer only when there are fewer projects |
| ReportForm.TopTwo | static/js/report.js:93-98 | the first title named is the project with the highest sum (the earliest among equals), and the second the best of the rest |
| ReportForm.Suffix | static/js/report.js:92 | fewer than three projects add no suffix |
| ReportForm.Shown | static/js/report.js:88-115 | a report text is shown followed by the suffix, and a failed request shows the network error |
| ReportForm.ShownWithSuffix | static/js/report.js:92-104 | with three or more projects the report is followed by "Strongest projects include:" and the two top titles joined by "& " |
| ReportForm.PointsOfCrit | static/js/report.js:30-33 | a criterion the page sends counts on the server as its value, and null counts as 0 |
| ReportForm.ServerTotal | static/js/report.js:94-95 | the server's total of a project the page sent equals the page's own sum of its criteria |
| ReportForm.PageRequestsGetReports | static/js/report.js:64-85 | a request the page sends keeps its levels on the server and is always answered with report text |
| LineFilters.Kept | cam_igcse/templatetags/custom_filters.py:22 | the kept lines are no more than the input lines, each non-empty and without surrounding whitespace |
| LineFilters.KeptFromLines | cam_igcse/templatetags/custom_filters.py:22 | every kept entry is the stripped form of some input line |
| LineFilters.KeptEmpty | cam_igcse/templatetags/custom_filters.py:22 | nothing is kept exactly when every line is blank |
| LineFilters.Wrapped | cam_igcse/custom_filters.py:19 | each kept line is wrapped between the element's opening and closing markup, one element per line |
| LineFilters.WrapLines | cam_igcse/custom_filters.py:12-13 | a missing or empty value gives the empty string |
| LineFilters.KeptHasNoNewline | cam_igcse/custom_filters.py:16-19 | no kept line holds a line break |
| LineFilters.WrapLinesLines | cam_igcse/custom_filters.py:16-22 | reading the output back line by line gives exactly one element per non-blank line, in order, and the output is empty exactly when every line is blank |
| ListItemFilter.LinebreaksToListItems | cam_igcse/custom_filters.py:7-22 | an empty value gives nothing; otherwise each line of the output is one <li> element holding a stripped non-blank line, in order |
| BulletFilter.LinebreaksToBulletedText | cam_igcse/templatetags/custom_filters.py:7-24 | an empty value gives nothing; otherwise each line of the output is one bullet paragraph holding a stripped non-blank line, in order |
| PyText.LineEnd | cam_igcse/custom_filters.py:16 | the first line runs up to the first line boundary |
| PyText.SplitLines | cam_igcse/custom_filters.py:16 | no line holds a line boundary, and only the empty string has no lines |
| PyText.LeadingSpace | cam_igcse/custom_filters.py:19 | the leading whitespace is the longest whitespace prefix |
| PyText.TrailingSpace | cam_igcse/custom_filters.py:19 | the trailing whitespace is the longest whitespace suffix |
| PyText.Strip | cam_igcse/custom_filters.py:19 | a stripped line is empty exactly when the line is all whitespace, otherwise starts and ends with a non-space, and holds only the line's characters |
| PyText.SplitOn | cam_igcse/custom_filters.py:22 | splitting always gives at least one piece |
| PyText.FirstIndex | cam_igcse/custom_filters.py:22 | the index found is the first occurrence of the character |
| PyText.SplitOnJoin | cam_igcse/custom_filters.py:22 | splitting a newline join gives back the joined pieces when none holds a newline |
| PyText.Capitalize | report/report_logic.py:201 | capitalising keeps the length, upper-cases the first character and lower-cases the rest |
| Decimal.DigitChar | static/js/audio_recorder.js:68 | a digit's character is a decimal digit |
| Decimal.NatString | static/js/audio_recorder.js:68 | a number's text is one or more digits without a leading zero |
| Decimal.ValueOfNatString | static/js/audio_recorder.js:68 | a number's decimal text reads back as the number |
| Decimal.PadZeros | static/js/audio_recorder.js:68 | padding to a width keeps the text at the end and fills the front with zeros up to the width |
| Decimal.TwoDigits | static/js/audio_recorder.js:68 | below 100 the two-place text is the tens digit followed by the units digit |
| JsMath.Round | static/js/daw.js:571 | rounding gives the integer within half of the number, halves rounding up |
| JsMath.RoundMonotone | static/js/daw.js:827-830 | rounding keeps the order of numbers |
| JsMath.RoundWhole | static/js/daw.js:830 | a whole number rounds to itself |
| JsMath.JsRem | static/js/blockbuilder.js:70-71 | the remainder takes the sign of the dividend and equals the mathematical remainder for a non-negative dividend |
| JsMath.Max | static/js/daw.js:827 | the maximum is one of the two and bounds both |
| JsMath.Min | static/js/daw.js:849 | the minimum is one of the two and is bounded by both |
| PyText.JoinSnoc | report/report_logic.py:211 | joining one more title appends the separator and that title, so the strongest projects read as a ", "-separated list |

## Left out

- Rendering is not modelled. This covers:
  - canvas painting: `renderGridData`, `drawGrid`, `renderPalette`, `updateCanvasCursor`, `renderWaveform`, `updateHandlesPositions`;
  - the Three.js scene: meshes, lights, fog, shadows, the ghost block, the orbit and pan controls, window resizing;
  - the DAW's ruler, playhead pixels and toolbar layout;
  - every DOM message, and the enabled state of every button other than the recorder's apply, undo and download buttons. Those three are fields of `Recorder.Recorder`: apply and download are enabled exactly while there is a recording, which the handlers' own guards already check, and a press on a disabled undo button does nothing.
- Pointer geometry is not modelled: `getCanvasCoords` and the ray casting. Events enter the model as grid cells, or as the hit point and hit block.
- I/O and the network are not modelled. This covers:
  - recording with MediaRecorder and audio decoding (the decoded buffer is a parameter of `Recorder.Recorder.Stop`);
  - the DAW's save and media-delete requests and the report request;
  - the MP3 conversion and its share or download path (`Recorder.Recorder.Download` stops at the WAV bytes it uploads);
  - file reading and writing, `exportAsPNG`, the block builder's `saveToFile` and STL export, and the DAW's project export;
  - the copy button and console logging.
  - `alert`s are left out; `confirm` answers are boolean parameters.
- JSON parsing is not modelled: parsed bodies and files enter as datatypes.
  - Duplicate keys, and values of unexpected JSON types, are not represented, except where the code tests the type: `ReportViews.JsonValue` keeps integers, booleans and strings apart.
- The DAW's effects chain is not modelled (fade in and out, echo, radio, `applyLiveEffects`, `scheduleFade`). Neither are clip preview, clip selection, the library and uploads lists, or the upload drop zone.
- Randomness and the clock enter as parameters:
  - `random.choice` is a pick index;
  - the DAW's fresh instance id (from `Date.now()` and `Math.random()`) is an argument;
  - frame timestamps are arguments of `Daw.Project.PlayLoop`.
  - The ids that `createClipElement` gives to clips lacking one are not modelled.
  - Durations from `loadedmetadata` are not modelled; a missing duration is represented by 0, which the drop rule turns into 5 seconds.
- Floating point is not modelled. Sample values, times and hit points are exact reals, so double rounding (for instance in `Math.round` of a product) is not captured.
- The sentence bank's text is in `ReportLogic`'s per-list methods, which carry no contracts. The proofs use only the bank's shape: five sections, three levels, nine templates each.
- ReportViews.Respond: a strongest project's title that is not text makes the report fail whenever it occurs. The source fails only when some section has a template to format. The two agree for the sentence bank the view uses, where every section has nine.
- ReportViews.Request: a body that is not a JSON object, a `projects` value that is not a list, and a name or level that is not a string are not represented. So the view's catch-all "Internal server error" reply is not modelled.
- ReportForm.ParseInt: precision loss on very long digit strings is not modelled. The white space skipped is the ASCII white space, the Unicode space separators, the line and paragraph separators and the byte-order mark, as `JsSpace` lists them.
- ReportForm.FormGet: a form field with several values is represented by the value `FormData.get` returns.
- Recorder.Recorder.Drag: requires a waveform wider than 0. With width 0 the source divides by zero and produces a NaN time, which is not modelled.
- PixelEditor.Editor.SetupCanvas: a pending rectangle or circle snapshot is dropped when the canvas is set up anew. The source keeps it, but a snapshot of another size cannot be restored meaningfully.
- PixelEditor.Editor.SetupCanvas: requires a size of at least 1. The callers pass sizes from the size buttons, from the custom-size check (8 to 256) or from a validated file.
