/** The comic compositor: the 2x2 layout arithmetic, a canvas that logs
    what is drawn on it, and downloadComic, which fills the background,
    waits for every panel image to load and only then draws and saves. */
module FileUtils {
  import opened Types

  const PanelSize: int := 1024
  const Gap: int := 40
  const Background: string := "#1f2937"
  const ExportType: string := "image/png"

  /** The side of the square comic canvas: two panels and three gaps. */
  const CanvasSide: int := PanelSize * 2 + Gap * 3

  /** An HTML canvas starts at 300 by 150 with a black fill style. */
  const DefaultWidth: int := 300
  const DefaultHeight: int := 150
  const DefaultFillStyle: string := "#000000"

  datatype Point = Point(x: int, y: int)

  /** The top-left corners of the four cells, in reading order. */
  const Positions: seq<Point> := [
    Point(Gap, Gap),
    Point(PanelSize + Gap * 2, Gap),
    Point(Gap, PanelSize + Gap * 2),
    Point(PanelSize + Gap * 2, PanelSize + Gap * 2)
  ]

  /** A drawing command issued on the canvas's 2D context. */
  datatype DrawOp =
    | FillRect(color: string, x: int, y: int, w: int, h: int)
    | DrawImage(source: string, x: int, y: int, w: int, h: int)

  /** What downloadComic hands to the download sink: the file name and the
      image encoded from the canvas, represented by the commands drawn on it. */
  datatype Download = Download(filename: string, mimeType: string, drawn: seq<DrawOp>)

  /** The cell [x, x + PanelSize) x [y, y + PanelSize) holds the point (px, py). */
  predicate InCell(p: Point, px: int, py: int) {
    p.x <= px < p.x + PanelSize && p.y <= py < p.y + PanelSize
  }

  lemma CanvasSideValue()
    ensures CanvasSide == 2 * PanelSize + 3 * Gap == 2168
  {
  }

  /** Every cell lies inside the canvas. */
  lemma CellsInsideCanvas(i: int)
    requires 0 <= i < |Positions|
    ensures 0 <= Positions[i].x && Positions[i].x + PanelSize <= CanvasSide
    ensures 0 <= Positions[i].y && Positions[i].y + PanelSize <= CanvasSide
  {
  }

  /** Distinct cells share no point. */
  lemma CellsDisjoint(i: int, j: int, px: int, py: int)
    requires 0 <= i < |Positions| && 0 <= j < |Positions| && i != j
    ensures !(InCell(Positions[i], px, py) && InCell(Positions[j], px, py))
  {
  }

  /** Cells are in reading order: top-left, top-right, bottom-left,
      bottom-right; an earlier cell is in an earlier row or further left. */
  lemma CellsInReadingOrder(i: int, j: int)
    requires 0 <= i < j < |Positions|
    ensures Positions[i].y < Positions[j].y
            || (Positions[i].y == Positions[j].y && Positions[i].x < Positions[j].x)
    ensures Positions[i].x == Positions[j].x <==> j - i == 2
  {
  }

  /** The gaps between the canvas edge and a cell, and between adjacent
      cells, are all exactly Gap, horizontally and vertically. */
  lemma UniformGaps()
    ensures Positions[0].x == Gap && Positions[0].y == Gap
    ensures Positions[1].x - (Positions[0].x + PanelSize) == Gap
    ensures CanvasSide - (Positions[1].x + PanelSize) == Gap
    ensures Positions[2].y - (Positions[0].y + PanelSize) == Gap
    ensures CanvasSide - (Positions[2].y + PanelSize) == Gap
    ensures Positions[3] == Point(Positions[1].x, Positions[2].y)
  {
  }

  /** The draw command for the panel image at `source` into cell `i`. */
  function DrawAt(source: string, i: nat): DrawOp
    requires i < |Positions|
  {
    DrawImage(source, Positions[i].x, Positions[i].y, PanelSize, PanelSize)
  }

  function Min(a: int, b: int): int {
    if a <= b then a else b
  }

  /** The draw loop's commands: image i into cell i, for the first four. */
  function PanelDraws(sources: seq<string>): (ops: seq<DrawOp>)
    ensures |ops| == Min(|sources|, |Positions|)
    ensures forall i :: 0 <= i < |ops| ==> ops[i] == DrawAt(sources[i], i)
  {
    seq(Min(|sources|, |Positions|), i requires 0 <= i < Min(|sources|, |Positions|) => DrawAt(sources[i], i))
  }

  /** At most four draws; each draws its own image at full panel size,
      inside the canvas. */
  lemma PanelDrawInCanvas(sources: seq<string>, i: int)
    ensures |PanelDraws(sources)| <= 4
    ensures 0 <= i < |PanelDraws(sources)| ==>
              var a := PanelDraws(sources)[i];
              a.DrawImage? && a.source == sources[i] && a.w == a.h == PanelSize
              && 0 <= a.x && a.x + a.w <= CanvasSide && 0 <= a.y && a.y + a.h <= CanvasSide
  {
    if 0 <= i < |PanelDraws(sources)| {
      CellsInsideCanvas(i);
    }
  }

  /** No two panel draws overlap. */
  lemma PanelDrawsDisjoint(sources: seq<string>, i: int, j: int)
    requires 0 <= i < |PanelDraws(sources)| && 0 <= j < |PanelDraws(sources)| && i != j
    ensures var a, b := PanelDraws(sources)[i], PanelDraws(sources)[j];
            a.x + a.w <= b.x || b.x + b.w <= a.x || a.y + a.h <= b.y || b.y + b.h <= a.y
  {
  }

  /** The 2D canvas: its size and the log of commands drawn on it. */
  class Canvas {
    var width: int
    var height: int
    var fillStyle: string
    var drawn: seq<DrawOp>

    constructor ()
      ensures width == DefaultWidth && height == DefaultHeight
      ensures fillStyle == DefaultFillStyle && drawn == []
    {
      width, height := DefaultWidth, DefaultHeight;
      fillStyle := DefaultFillStyle;
      drawn := [];
    }

    /** Setting the width and height resets the context's state (the fill
        style returns to its default) and clears the bitmap. */
    method SetSize(w: int, h: int)
      modifies this
      ensures width == w && height == h
      ensures fillStyle == DefaultFillStyle && drawn == []
    {
      width, height := w, h;
      fillStyle := DefaultFillStyle;
      drawn := [];
    }

    method SetFillStyle(color: string)
      modifies this
      ensures fillStyle == color
      ensures width == old(width) && height == old(height) && drawn == old(drawn)
    {
      fillStyle := color;
    }

    /** fillRect paints with the current fill style. */
    method FillRectangle(x: int, y: int, w: int, h: int)
      modifies this
      ensures drawn == old(drawn) + [FillRect(fillStyle, x, y, w, h)]
      ensures width == old(width) && height == old(height) && fillStyle == old(fillStyle)
    {
      drawn := drawn + [FillRect(fillStyle, x, y, w, h)];
    }

    method DrawImageAt(source: string, x: int, y: int, w: int, h: int)
      modifies this
      ensures drawn == old(drawn) + [DrawImage(source, x, y, w, h)]
      ensures width == old(width) && height == old(height) && fillStyle == old(fillStyle)
    {
      drawn := drawn + [DrawImage(source, x, y, w, h)];
    }
  }

  /** True when every panel URL decodes as an image (the Promise.all join). */
  predicate AllLoad(panelUrls: seq<string>, loads: string -> bool) {
    forall i :: 0 <= i < |panelUrls| ==> loads(panelUrls[i])
  }

  /** downloadComic. Without a 2D context nothing is done. Otherwise the
      canvas is sized to the grid and filled with the background before any
      image is drawn; if every image loads, image i goes into cell i (the
      first four only) and the canvas is saved under `filename`; if any load
      fails nothing is drawn over the background, nothing is saved and an
      alert is shown. `loads` says which URLs decode as images. */
  method DownloadComic(panelUrls: seq<string>, filename: string, hasContext: bool, loads: string -> bool)
    returns (canvas: Canvas, saved: Option<Download>, alerted: bool)
    ensures fresh(canvas)
    ensures !hasContext ==>
              canvas.width == DefaultWidth && canvas.height == DefaultHeight
              && canvas.drawn == [] && saved.None? && !alerted
    ensures hasContext ==>
              canvas.width == CanvasSide && canvas.height == CanvasSide
              && canvas.drawn != [] && canvas.drawn[0] == FillRect(Background, 0, 0, CanvasSide, CanvasSide)
    ensures hasContext && AllLoad(panelUrls, loads) ==>
              canvas.drawn == [FillRect(Background, 0, 0, CanvasSide, CanvasSide)] + PanelDraws(panelUrls)
              && saved == Some(Download(filename, ExportType, canvas.drawn)) && !alerted
    ensures hasContext && !AllLoad(panelUrls, loads) ==>
              canvas.drawn == [FillRect(Background, 0, 0, CanvasSide, CanvasSide)]
              && saved.None? && alerted
  {
    canvas := new Canvas();
    saved, alerted := None, false;
    if !hasContext {
      return;
    }
    canvas.SetSize(CanvasSide, CanvasSide);
    canvas.SetFillStyle(Background);
    canvas.FillRectangle(0, 0, canvas.width, canvas.height);
    var background := canvas.drawn;
    if exists i :: 0 <= i < |panelUrls| && !loads(panelUrls[i]) {
      alerted := true;
      return;
    }
    var index := 0;
    while index < |panelUrls|
      invariant 0 <= index <= |panelUrls|
      invariant canvas.width == CanvasSide && canvas.height == CanvasSide
      invariant canvas.drawn == background + PanelDraws(panelUrls[..index])
    {
      if index < |Positions| {
        canvas.DrawImageAt(panelUrls[index], Positions[index].x, Positions[index].y, PanelSize, PanelSize);
      }
      index := index + 1;
    }
    assert panelUrls[..index] == panelUrls;
    saved := Some(Download(filename, ExportType, canvas.drawn));
  }
}
