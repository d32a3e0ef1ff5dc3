/**
 * The level editor's state machine: five mode flags, the fixed texture type
 * "tiles", and the one brush shared by every editor, which gate the
 * placement and removal requests forwarded to the texture renderer.
 */
module Design {

  datatype Option<T> = None | Some(value: T)

  datatype Brush = Brush(id: string, group: string, name: string)

  /** One call made on the renderer, with its arguments and, for placement and removal, its result. */
  datatype RendererCall =
    | AddTextureCall(clipping: bool, textureType: string, group: string, id: string, x: int, y: int, result: seq<int>)
    | RemoveTextureCall(clipping: bool, textureType: string, group: string, id: string, x: int, y: int, result: seq<int>)
    | RemoveAllTextureCall
    | RenderCall

  const Tiles: string := "tiles"

  /**
   * The rendering backend, kept abstract: it answers placement and removal
   * with some list of affected coordinates, and records every call it gets.
   */
  class TextureRenderer {
    ghost var calls: seq<RendererCall>

    constructor ()
      ensures calls == []
    {
      calls := [];
    }

    method AddTexture(clipping: bool, textureType: string, group: string, id: string, x: int, y: int)
      returns (res: seq<int>)
      modifies this
      ensures calls == old(calls) + [AddTextureCall(clipping, textureType, group, id, x, y, res)]
    {
      res :| true;
      calls := calls + [AddTextureCall(clipping, textureType, group, id, x, y, res)];
    }

    method RemoveTexture(clipping: bool, textureType: string, group: string, id: string, x: int, y: int)
      returns (res: seq<int>)
      modifies this
      ensures calls == old(calls) + [RemoveTextureCall(clipping, textureType, group, id, x, y, res)]
    {
      res :| true;
      calls := calls + [RemoveTextureCall(clipping, textureType, group, id, x, y, res)];
    }

    method RemoveAllTexture()
      modifies this
      ensures calls == old(calls) + [RemoveAllTextureCall]
    {
      calls := calls + [RemoveAllTextureCall];
    }

    method Render()
      modifies this
      ensures calls == old(calls) + [RenderCall]
    {
      calls := calls + [RenderCall];
    }
  }

  /** The process-wide brush slot; unset until a brush is first selected. */
  class BrushRegistry {
    var brush: Option<Brush>

    constructor ()
      ensures brush == None
    {
      brush := None;
    }
  }

  class LevelEditorDesign {
    var editable: bool
    var clipping: bool
    var trash: bool
    var drag: bool
    var safety: bool
    const textureType: string := Tiles
    const renderer: TextureRenderer
    /** The shared brush slot, standing for the class's static `brush` field. */
    const brushes: BrushRegistry

    constructor (brushes: BrushRegistry)
      ensures !editable && clipping && !trash && !drag && safety
      ensures this.brushes == brushes
      ensures fresh(renderer) && renderer.calls == []
    {
      editable := false;
      clipping := true;
      trash := false;
      drag := false;
      safety := true;
      renderer := new TextureRenderer();
      this.brushes := brushes;
    }

    function CurrentBrush(): Option<Brush>
      reads this, brushes
    {
      brushes.brush
    }

    /**
     * Places the current brush at (x, y). Only when the editor is editable
     * and a brush is selected does it ask the renderer, redraw, and return
     * the renderer's answer; otherwise it returns [] without calling it.
     */
    method Add(x: int, y: int) returns (r: seq<int>)
      modifies renderer
      ensures !(editable && CurrentBrush().Some?) ==> r == [] && renderer.calls == old(renderer.calls)
      ensures editable && CurrentBrush().Some? ==>
        renderer.calls == old(renderer.calls)
          + [AddTextureCall(clipping, Tiles, CurrentBrush().value.group, CurrentBrush().value.id, x, y, r), RenderCall]
    {
      if editable && brushes.brush.Some? {
        var res := renderer.AddTexture(clipping, textureType, brushes.brush.value.group, brushes.brush.value.id, x, y);
        renderer.Render();
        return res;
      }
      return [];
    }

    /**
     * Removes the current brush's texture at (x, y) whatever `editable`
     * says, and returns the renderer's answer without redrawing. A brush
     * must be selected: it is dereferenced unguarded.
     */
    method Remove(x: int, y: int) returns (r: seq<int>)
      requires CurrentBrush().Some?
      modifies renderer
      ensures renderer.calls == old(renderer.calls)
        + [RemoveTextureCall(clipping, Tiles, CurrentBrush().value.group, CurrentBrush().value.id, x, y, r)]
    {
      r := renderer.RemoveTexture(clipping, textureType, brushes.brush.value.group, brushes.brush.value.id, x, y);
    }

    /** Clears every texture, whatever `safety` says. */
    method RemoveAll()
      modifies renderer
      ensures renderer.calls == old(renderer.calls) + [RemoveAllTextureCall]
    {
      renderer.RemoveAllTexture();
    }

    /** Selects the brush {brushId, group, name} for every editor sharing `brushes`. */
    static method SetBrush(brushes: BrushRegistry, brushId: string, group: string, name: string)
      modifies brushes
      ensures brushes.brush == Some(Brush(brushId, group, name))
      ensures forall e: LevelEditorDesign :: e.brushes == brushes ==> e.CurrentBrush() == Some(Brush(brushId, group, name))
    {
      brushes.brush := Some(Brush(brushId, group, name));
    }

    function Safety(): bool reads this { safety }
    function Drag(): bool reads this { drag }
    function Trash(): bool reads this { trash }
    function Editable(): bool reads this { editable }
    function Clipping(): bool reads this { clipping }

    method SetSafety(val: bool)
      modifies this
      ensures Safety() == val
      ensures Drag() == old(Drag()) && Trash() == old(Trash()) && Editable() == old(Editable())
      ensures Clipping() == old(Clipping())
    {
      safety := val;
    }

    method SetDrag(val: bool)
      modifies this
      ensures Drag() == val
      ensures Safety() == old(Safety()) && Trash() == old(Trash()) && Editable() == old(Editable())
      ensures Clipping() == old(Clipping())
    {
      drag := val;
    }

    method SetTrash(val: bool)
      modifies this
      ensures Trash() == val
      ensures Safety() == old(Safety()) && Drag() == old(Drag()) && Editable() == old(Editable())
      ensures Clipping() == old(Clipping())
    {
      trash := val;
    }

    method SetEditable(val: bool)
      modifies this
      ensures Editable() == val
      ensures Safety() == old(Safety()) && Drag() == old(Drag()) && Trash() == old(Trash())
      ensures Clipping() == old(Clipping())
    {
      editable := val;
    }

    method SetClipping(val: bool)
      modifies this
      ensures Clipping() == val
      ensures Safety() == old(Safety()) && Drag() == old(Drag()) && Trash() == old(Trash())
      ensures Editable() == old(Editable())
    {
      clipping := val;
    }
  }

  /** With no brush selected, placing does nothing, even in an editable editor. */
  method AddWithoutBrush()
  {
    var brushes := new BrushRegistry();
    var editor := new LevelEditorDesign(brushes);
    editor.SetEditable(true);
    var r := editor.Add(10, 10);
    assert r == [] && editor.renderer.calls == [];
  }

  /** Selecting a brush then placing in an editable editor forwards exactly these arguments. */
  method PaintWithBrush()
  {
    var brushes := new BrushRegistry();
    var editor := new LevelEditorDesign(brushes);
    var other := new LevelEditorDesign(brushes);
    LevelEditorDesign.SetBrush(brushes, "1-1", "dungeon", "floor");
    assert other.CurrentBrush() == Some(Brush("1-1", "dungeon", "floor"));
    editor.SetEditable(true);
    var r := editor.Add(5, 5);
    assert editor.renderer.calls == [AddTextureCall(true, "tiles", "dungeon", "1-1", 5, 5, r), RenderCall];
    editor.SetEditable(false);
    var gone := editor.Remove(5, 5);
    assert editor.renderer.calls[2] == RemoveTextureCall(true, "tiles", "dungeon", "1-1", 5, 5, gone);
  }
}
