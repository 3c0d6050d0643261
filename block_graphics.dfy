/**
 * The editor's graphics items: an ordinary block and the connector variant
 * (one class, told apart by `kind`), and the scene that holds them.  The
 * layout arithmetic comes from module Geometry; this module adds the state
 * each item keeps and the operations that update it.
 */
module BlockGraphics {
  import opened Wrappers
  import opened Geometry

  /** An ordinary block, or a connector: a pass-through routing point with one input and one output. */
  datatype Kind = Plain | Connector

  /** Colours are 32-bit ARGB values. */
  const White: nat := 0xFFFF_FFFF
  const Black: nat := 0xFF00_0000
  const LightPen: nat := 0x7F00_0000
  const LightBrush: nat := 0xFFE1_E0E8
  /** Width of a block's outline when it is not selected. */
  const LineThickness: real := 3.0

  /** The colours a block is painted with. */
  datatype Palette = Palette(titleColor: nat, penColor: nat, penWidth: real, brushColor: nat)

  const DarkPalette: Palette := Palette(White, White, LineThickness, White)
  const LightPalette: Palette := Palette(Black, LightPen, LineThickness, LightBrush)

  /** The colour modes a block accepts. */
  const SupportedModes: set<string> := {"Light", "Dark", "Off"}

  /** The palette for a colour mode: only "Dark" has its own; every other mode is painted light. */
  function PaletteFor(mode: string): (p: Palette)
    ensures p == DarkPalette <==> mode == "Dark"
    ensures p == LightPalette <==> mode != "Dark"
  {
    if mode == "Dark" then DarkPalette else LightPalette
  }

  /** "Light" and "Off" look the same; "Dark" looks different from both. */
  lemma OffLooksLight()
    ensures PaletteFor("Off") == PaletteFor("Light")
    ensures PaletteFor("Dark") != PaletteFor("Light")
  {
  }

  datatype Button = LeftButton | MiddleButton | RightButton

  /** The calls a pointer press makes on the item's block. */
  datatype PressEffect = PressEffect(raisesFocus: bool, togglesParamWindow: bool)

  class Block {
    const kind: Kind
    /** Width, taken from the block when the item is made and never changed. */
    const width: real
    /** The height the item was made with; it never shrinks below it. */
    const defaultHeight: real
    /** Corner rounding, title band height and inner padding. */
    const edgeSize: real
    const titleHeight: real
    const padding: real

    /** Position in the scene. */
    var x: real
    var y: real
    /** The item's height, and the height stored on the block it draws. */
    var height: real
    var blockHeight: real

    var mode: string
    var palette: Palette
    var selected: bool

    /** Whether the title must still be laid out, the title text and where it sits. */
    var drawTitle: bool
    var titleText: string
    var titlePos: Point

    ghost predicate Valid()
      reads this
    {
      && (kind.Plain? ==>
            && edgeSize == 10.0 && titleHeight == 25.0 && padding == 5.0
            && palette == PaletteFor(mode)
            && height == blockHeight
            && height >= defaultHeight)
      && (kind.Connector? ==> edgeSize == 0.0 && titleHeight == 0.0 && padding == 0.0)
    }

    /** An ordinary block's item: unselected, painted for `mode`, title still to be laid out. */
    constructor Plain(width: real, height: real, mode: string)
      ensures Valid() && kind.Plain?
      ensures this.width == width && this.height == height && blockHeight == height && defaultHeight == height
      ensures this.mode == mode && !selected && drawTitle
      ensures x == 0.0 && y == 0.0
    {
      kind := Kind.Plain;
      this.width := width;
      defaultHeight := height;
      edgeSize, titleHeight, padding := 10.0, 25.0, 5.0;
      x, y := 0.0, 0.0;
      this.height, blockHeight := height, height;
      this.mode := mode;
      palette := PaletteFor(mode);
      selected := false;
      drawTitle, titleText, titlePos := true, "", Point(0.0, 0.0);
    }

    /** A connector's item: no corner, title band or padding, and it starts selected. */
    constructor Connector(width: real, height: real)
      ensures Valid() && kind.Connector?
      ensures this.width == width && this.height == height
      ensures edgeSize == 0.0 && titleHeight == 0.0 && padding == 0.0
      ensures selected && drawTitle
      ensures x == 0.0 && y == 0.0
    {
      kind := Kind.Connector;
      this.width := width;
      defaultHeight := height;
      edgeSize, titleHeight, padding := 0.0, 0.0, 0.0;
      x, y := 0.0, 0.0;
      this.height, blockHeight := height, height;
      mode := "";
      palette := LightPalette;
      selected := true;
      drawTitle, titleText, titlePos := true, "", Point(0.0, 0.0);
    }

    /**
     * Lays out the title `title`, measured by the font as `rawWidth` pixels:
     * centred under the block, and no longer pending.
     */
    method SetTitle(title: string, rawWidth: nat)
      requires Valid() && kind.Plain?
      modifies this`drawTitle, this`titleText, this`titlePos
      ensures Valid()
      ensures !drawTitle && titleText == title
      ensures titlePos == TitlePosition(width, height, padding, TitleLength(rawWidth))
      ensures titlePos.x + TitleLength(rawWidth) as real / 2.0 == (width - 5.0) / 2.0
      ensures titlePos.y == height + 5.0
    {
      drawTitle := false;
      titleText := title;
      var len := TitleLength(rawWidth);
      titlePos := TitlePosition(width, height, padding, len);
    }

    /**
     * Switches to colour mode `value` when it is one of "Light", "Dark" or
     * "Off" and repaints; any other value is rejected and changes nothing.
     */
    method UpdateMode(value: string) returns (accepted: bool)
      requires Valid() && kind.Plain?
      modifies this`mode, this`palette
      ensures Valid()
      ensures accepted <==> value in SupportedModes
      ensures accepted ==> mode == value && palette == PaletteFor(value)
      ensures !accepted ==> mode == old(mode) && palette == old(palette)
    {
      accepted := value in SupportedModes;
      if accepted {
        mode := value;
        palette := PaletteFor(mode);
      }
    }

    /**
     * Grows the block so that its last input and output sockets (y of each,
     * `None` for a side without sockets) keep the socket spacer below them,
     * never shrinking it below its default height.
     */
    method Resize(lastIn: Option<real>, lastOut: Option<real>)
      requires Valid() && kind.Plain?
      modifies this`height, this`blockHeight
      ensures Valid()
      ensures height == blockHeight
      ensures height == RequiredHeight(defaultHeight, lastIn, lastOut, SocketSpacer(padding, edgeSize, titleHeight))
      ensures height >= defaultHeight
      ensures height - 40.0 >= LastY(lastIn) && height - 40.0 >= LastY(lastOut)
    {
      var spacer := SocketSpacer(padding, edgeSize, titleHeight);
      var inHeight := LastY(lastIn) + spacer;
      var outHeight := LastY(lastOut) + spacer;
      var needed := if inHeight >= outHeight then inHeight else outHeight;
      if needed > defaultHeight {
        blockHeight := needed;
      } else {
        blockHeight := defaultHeight;
      }
      height := blockHeight;
    }

    /** The area a pointer event must hit to reach this item. */
    function BoundingRect(): (r: Rect)
      reads this
      ensures kind.Connector? ==> r.w >= 0.0 && r.h >= 0.0
      ensures kind.Plain? ==> forall p: Point :: r.Contains(p) <==> 0.0 <= p.x <= width && 0.0 <= p.y <= height
      ensures kind.Connector? && width >= 0.0 ==> forall p: Point :: 0.0 <= p.x <= width && 0.0 <= p.y <= width ==> r.Contains(p)
    {
      if kind.Plain? then BlockRect(width, height)
      else
        var r := ConnectorRect(width);
        assert width >= 0.0 ==> forall p: Point :: 0.0 <= p.x <= width && 0.0 <= p.y <= width ==> r.Contains(p) by {
          if width >= 0.0 {
            forall p: Point | 0.0 <= p.x <= width && 0.0 <= p.y <= width ensures r.Contains(p) {
              ConnectorRectCoversWidthSquare(width, p);
            }
          }
        }
        r
    }

    /**
     * A pointer press always brings the item's block to the front; a right
     * press on an ordinary block that is already selected also toggles its
     * parameter window.
     */
    method Press(button: Button) returns (e: PressEffect)
      ensures e.raisesFocus
      ensures e.togglesParamWindow <==> kind.Plain? && button == RightButton && selected
    {
      e := PressEffect(true, false);
      if kind.Plain? && button == RightButton {
        if selected {
          e := e.(togglesParamWindow := true);
        }
      }
    }
  }

  class Scene {
    /** The scene rectangle items are kept inside. */
    var rect: Rect
    var blocks: seq<Block>
    /** How many times each block has had its connected wires refreshed. */
    var refreshes: seq<nat>

    ghost predicate Valid()
      reads this
    {
      |refreshes| == |blocks|
    }

    constructor (rect: Rect, blocks: seq<Block>)
      ensures Valid() && this.rect == rect && this.blocks == blocks
      ensures forall i :: 0 <= i < |refreshes| ==> refreshes[i] == 0
    {
      this.rect := rect;
      this.blocks := blocks;
      refreshes := seq(|blocks|, _ => 0);
    }

    /** Refreshes the connected wires of every selected block once, and of no other. */
    method RefreshSelected()
      requires Valid()
      modifies this`refreshes
      ensures Valid()
      ensures forall i :: 0 <= i < |blocks| ==>
        refreshes[i] == old(refreshes[i]) + (if blocks[i].selected then 1 else 0)
    {
      var i := 0;
      while i < |blocks|
        invariant 0 <= i <= |blocks| && |refreshes| == |blocks|
        invariant forall j :: 0 <= j < i ==>
          refreshes[j] == old(refreshes[j]) + (if blocks[j].selected then 1 else 0)
        invariant forall j :: i <= j < |blocks| ==> refreshes[j] == old(refreshes[j])
      {
        if blocks[i].selected {
          refreshes := refreshes[i := refreshes[i] + 1];
        }
        i := i + 1;
      }
    }

    /**
     * Handles a drag of `b` after the pointer has put it at `raw`: snaps to
     * the grid, clamps left, top, right and bottom in that order, then
     * refreshes the wires of every selected block.
     */
    method Drag(b: Block, raw: Point)
      requires Valid() && b.Valid()
      modifies b`x, b`y, this`refreshes
      ensures Valid() && b.Valid()
      ensures Point(b.x, b.y) == DragTarget(raw, rect, b.width, b.height, b.titleHeight)
      ensures rect.w >= b.width + 2.0 * ScenePadding ==> LeftLimit(rect) <= b.x <= RightLimit(rect, b.width)
      ensures b.y <= rect.y + rect.h - b.height - ScenePadding - (if b.kind.Plain? then 25.0 else 0.0)
      ensures forall i :: 0 <= i < |blocks| ==>
        refreshes[i] == old(refreshes[i]) + (if blocks[i].selected then 1 else 0)
    {
      b.x, b.y := Snap(raw.x), Snap(raw.y);
      if b.x < rect.x + ScenePadding {
        b.x := rect.x + ScenePadding;                                   // left
      }
      if b.y < rect.y + ScenePadding {
        b.y := rect.y + ScenePadding;                                   // top
      }
      if b.x > rect.x + rect.w - b.width - ScenePadding {
        b.x := rect.x + rect.w - b.width - ScenePadding;                // right
      }
      if b.y > rect.y + rect.h - b.height - b.titleHeight - ScenePadding {
        b.y := rect.y + rect.h - b.height - b.titleHeight - ScenePadding;  // bottom
      }
      RefreshSelected();
    }
  }
}
