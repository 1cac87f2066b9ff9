/** A display object of the server: its size and rotation, and the screen it is bound to. */
module DisplayObject {
  import opened DmTypes
  import opened ScreenState

  class AbstractDisplay {
    const id: DisplayId
    var screenId: ScreenId
    var groupId: ScreenId
    var offsetX: int
    var offsetY: int
    var width: int
    var height: int
    var rotation: Rotation
    var orientation: Orientation
    var compressed: bool

    function View(): Display
      reads this
    {
      Display(screenId, groupId, Point(offsetX, offsetY), width, height, rotation, orientation)
    }

    constructor (id: DisplayId, screenId: ScreenId, s: Screen, m: Mode)
      ensures this.id == id && View() == NewDisplay(screenId, s, m) && !compressed
    {
      this.id := id;
      this.screenId, this.groupId := screenId, s.groupId;
      offsetX, offsetY := 0, 0;
      width, height := m.width, m.height;
      rotation, orientation := ROTATION_0, s.orientation;
      compressed := false;
      new;
      var _ := RequestRotation(s.rotation);
    }

    method RequestRotation(r: Rotation) returns (changed: bool)
      modifies this`width, this`height, this`rotation
      ensures View() == Rotate(old(View()), r)
      ensures changed == (r != old(rotation))
    {
      if rotation == r {
        return false;
      }
      if IsVertical(r) != IsVertical(rotation) {
        width, height := height, width;
      }
      rotation := r;
      return true;
    }

    /** BindAbstractScreen, for a screen with an active mode. */
    method BindAbstractScreen(screenId: ScreenId, m: Mode, p: Point)
      modifies this`screenId, this`offsetX, this`offsetY, this`width, this`height
      ensures View() == old(View()).(offset := p, width := m.width, height := m.height, screenId := screenId)
    {
      offsetX, offsetY := p.x, p.y;
      width, height := m.width, m.height;
      this.screenId := screenId;
    }

    method SetOffset(p: Point)
      modifies this`offsetX, this`offsetY
      ensures View() == old(View()).(offset := p)
    {
      offsetX, offsetY := p.x, p.y;
    }

    /** UpdateDisplaySize: the size is written back without regard to the rotation. */
    method UpdateDisplaySize(m: Mode, p: Point)
      modifies this`offsetX, this`offsetY, this`width, this`height
      ensures View() == Resize(old(View()), m, p)
    {
      var upright := IsVertical(rotation);
      var currentWidth := if upright then width else height;
      var currentHeight := if upright then height else width;
      if m.width != currentWidth || m.height != currentHeight {
        width, height := m.width, m.height;
      }
      SetOffset(p);
    }
  }
}
