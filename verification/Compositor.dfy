/** The Wayland side: surfaces, their roles, the windows they back and the pointer. Client
    requests and input events drive a stream of window commands. */
module Compositor {
  import opened Prelude

  /** A `wl_surface`, which belongs to one client. */
  datatype Surface = Surface(client: nat, num: nat)

  /** A protocol object that gives a surface a role. */
  type Obj = nat

  /** A native window; ids are allocated upwards. */
  type Win = nat

  /** A buffer whose pixels can be read, or not. */
  datatype Buffer = Buffer(readable: bool)

  datatype Pointer = Pointer(client: nat, num: nat)

  datatype SurfaceRec = SurfaceRec(pending: Option<Buffer>, attached: bool)

  datatype Toplevel = Toplevel(surface: Surface, win: Win, configured: bool, created: bool)

  datatype Popup = Popup(surface: Surface, parent: Win, win: Win, configured: bool, created: bool)

  /** Anchor bits: top 1, bottom 2, left 4, right 8. */
  datatype Layer = Layer(surface: Surface, win: Win, anchor: U32, exclusive: I32, configured: bool, created: bool)

  datatype Sub = Sub(surface: Surface, parent: Surface, x: I32, y: I32, subId: Win)

  datatype Cmd =
    | Create(win: Win)
    | CreatePopup(win: Win, parent: Win)
    | CreateLayer(win: Win)
    | Frame(win: Win)
    | SubFrame(win: Win, subId: Win, x: I32, y: I32)
    | SubDestroy(win: Win, subId: Win)
    | SetCursorImage
    | HideCursor
    | SetGrab(grab: Option<Win>)
    | Destroy(win: Win)

  /** Events sent to pointers; `win` is the window the surface stands for. */
  datatype Sent =
    | Enter(pointer: Pointer, surface: Surface, win: Win)
    | Leave(pointer: Pointer, surface: Surface, win: Win)
    | Motion(pointer: Pointer, surface: Surface)
    | Button(pointer: Pointer, surface: Surface)

  datatype State = State(
    nextWin: Win,
    surfaces: map<Surface, SurfaceRec>,
    toplevels: map<Obj, Toplevel>,
    surfaceToplevel: map<Surface, Obj>,
    popups: map<Obj, Popup>,
    surfacePopup: map<Surface, Obj>,
    layers: map<Obj, Layer>,
    surfaceLayer: map<Surface, Obj>,
    subs: map<Obj, Sub>,
    surfaceSub: map<Surface, Obj>,
    windowSurface: map<Win, Surface>,
    cursor: Option<Surface>,
    insets: Insets,
    pointers: seq<Pointer>,
    focus: Option<Win>,
    posted: seq<Cmd>,
    sent: seq<Sent>)

  function Start(pointers: seq<Pointer>): State {
    State(1, map[], map[], map[], map[], map[], map[], map[], map[], map[], map[], None,
          Insets(0, 0, 0, 0), pointers, None, [], [])
  }

  function Post(s: State, cmd: Cmd): State { s.(posted := s.posted + [cmd]) }

  // ---- role objects ------------------------------------------------------

  function GetToplevel(s: State, obj: Obj, sid: Surface): State {
    s.(nextWin := s.nextWin + 1,
       toplevels := s.toplevels[obj := Toplevel(sid, s.nextWin, false, false)],
       surfaceToplevel := s.surfaceToplevel[sid := obj],
       windowSurface := s.windowSurface[s.nextWin := sid])
  }

  /** The command that closes a window, if it was created. */
  function Closing(created: bool, win: Win): seq<Cmd> { if created then [Destroy(win)] else [] }

  function ReapToplevel(s: State, obj: Obj): State {
    if obj !in s.toplevels then s
    else
      var t := s.toplevels[obj];
      s.(toplevels := s.toplevels - {obj},
         surfaceToplevel := s.surfaceToplevel - {t.surface},
         windowSurface := s.windowSurface - {t.win},
         posted := s.posted + Closing(t.created, t.win))
  }

  /** The window backing a surface, created or not. */
  function WindowFor(s: State, sid: Surface): Option<Win> {
    if sid in s.surfaceToplevel then
      var obj := s.surfaceToplevel[sid];
      if obj in s.toplevels then Some(s.toplevels[obj].win) else None
    else if sid in s.surfacePopup then
      var obj := s.surfacePopup[sid];
      if obj in s.popups then Some(s.popups[obj].win) else None
    else None
  }

  /** The window a popup is placed against, 0 when its parent has none. */
  function ParentWindow(s: State, parent: Option<Surface>): Win {
    if parent.Some? && WindowFor(s, parent.value).Some? then WindowFor(s, parent.value).value else 0
  }

  function GetPopup(s: State, obj: Obj, sid: Surface, parent: Option<Surface>): State {
    s.(nextWin := s.nextWin + 1,
       popups := s.popups[obj := Popup(sid, ParentWindow(s, parent), s.nextWin, false, false)],
       surfacePopup := s.surfacePopup[sid := obj],
       windowSurface := s.windowSurface[s.nextWin := sid])
  }

  /** A popup's window is destroyed whether or not it was ever created. */
  function ReapPopup(s: State, obj: Obj): State {
    if obj !in s.popups then s
    else
      var p := s.popups[obj];
      Post(s.(popups := s.popups - {obj},
              surfacePopup := s.surfacePopup - {p.surface},
              windowSurface := s.windowSurface - {p.win}), Destroy(p.win))
  }

  function GetLayer(s: State, obj: Obj, sid: Surface): State {
    s.(nextWin := s.nextWin + 1,
       layers := s.layers[obj := Layer(sid, s.nextWin, 0, 0, false, false)],
       surfaceLayer := s.surfaceLayer[sid := obj],
       windowSurface := s.windowSurface[s.nextWin := sid])
  }

  ghost function ReapLayer(s: State, obj: Obj): State {
    if obj !in s.layers then s.(insets := Reserved(s.layers))
    else
      var l := s.layers[obj];
      s.(layers := s.layers - {obj},
         surfaceLayer := s.surfaceLayer - {l.surface},
         windowSurface := s.windowSurface - {l.win},
         posted := s.posted + Closing(l.created, l.win),
         insets := Reserved(s.layers - {obj}))
  }

  ghost function SetAnchor(s: State, obj: Obj, anchor: U32): State {
    if obj !in s.layers then s
    else
      var layers := s.layers[obj := s.layers[obj].(anchor := anchor)];
      s.(layers := layers, insets := Reserved(layers))
  }

  ghost function SetExclusive(s: State, obj: Obj, zone: I32): State {
    if obj !in s.layers then s
    else
      var layers := s.layers[obj := s.layers[obj].(exclusive := zone)];
      s.(layers := layers, insets := Reserved(layers))
  }

  // ---- reserved insets ---------------------------------------------------

  datatype Edge = Top | Bottom | Left | Right

  function EdgeBit(edge: Edge): (b: U32)
    ensures b > 0
  {
    match edge case Top => 1 case Bottom => 2 case Left => 4 case Right => 8
  }

  function Opposite(edge: Edge): Edge {
    match edge case Top => Bottom case Bottom => Top case Left => Right case Right => Left
  }

  /** The bar is anchored to the edge and not to the opposite one, and reserves space. */
  predicate Reserves(l: Layer, edge: Edge) {
    l.exclusive > 0 && HasBit(l.anchor, EdgeBit(edge)) && !HasBit(l.anchor, EdgeBit(Opposite(edge)))
  }

  /** The largest zone reserved at an edge. */
  ghost predicate IsReserved(layers: map<Obj, Layer>, edge: Edge, z: int) {
    && z >= 0
    && (forall o :: o in layers && Reserves(layers[o], edge) ==> layers[o].exclusive <= z)
    && (z > 0 ==> exists o :: o in layers && Reserves(layers[o], edge) && layers[o].exclusive == z)
  }

  lemma ReservedExists(layers: map<Obj, Layer>, edge: Edge)
    ensures exists z :: IsReserved(layers, edge, z)
  {
    var zones := map o | o in layers && Reserves(layers[o], edge) :: layers[o].exclusive as int;
    var z := MaxExists(zones.Keys, zones);
    forall o | o in layers && Reserves(layers[o], edge) ensures layers[o].exclusive <= z {
      assert o in zones.Keys && zones[o] <= z;
    }
    if z > 0 {
      var k :| k in zones.Keys && zones[k] == z;
      assert k in layers && Reserves(layers[k], edge);
    }
    assert IsReserved(layers, edge, z);
  }

  lemma ReservedUnique(layers: map<Obj, Layer>, edge: Edge, z: int, z': int)
    requires IsReserved(layers, edge, z) && IsReserved(layers, edge, z')
    ensures z == z'
  {
  }

  ghost function ReservedAt(layers: map<Obj, Layer>, edge: Edge): (z: int)
    ensures IsReserved(layers, edge, z)
  {
    ReservedExists(layers, edge);
    var z :| IsReserved(layers, edge, z);
    z
  }

  ghost function Reserved(layers: map<Obj, Layer>): Insets {
    Insets(ReservedAt(layers, Top), ReservedAt(layers, Right), ReservedAt(layers, Bottom), ReservedAt(layers, Left))
  }

  // ---- subsurfaces -------------------------------------------------------

  function GetSub(s: State, obj: Obj, sid: Surface, parent: Surface): State {
    if sid == parent then s
    else
      s.(nextWin := s.nextWin + 1,
         subs := s.subs[obj := Sub(sid, parent, 0, 0, s.nextWin)],
         surfaceSub := s.surfaceSub[sid := obj])
  }

  function SetPosition(s: State, obj: Obj, x: I32, y: I32): State {
    if obj in s.subs then s.(subs := s.subs[obj := s.subs[obj].(x := x, y := y)]) else s
  }

  /** The subsurface record of a surface. */
  function Link(s: State, sid: Surface): Option<Sub> {
    if sid in s.surfaceSub && s.surfaceSub[sid] in s.subs then Some(s.subs[s.surfaceSub[sid]]) else None
  }

  /** The walk up the parents from `cur`, stopping at the first windowed one, at a missing
      link, or at a surface already seen. Positions add up in 32 bits. */
  function Walk(s: State, cur: Surface, ox: I32, oy: I32, seen: set<Surface>): Option<(Win, I32, I32)>
    decreases s.surfaceSub.Keys - seen
  {
    if cur in seen then None
    else match Link(s, cur)
      case None => None
      case Some(rec) =>
        match WindowFor(s, rec.parent)
        case Some(w) => Some((w, WrapI32(ox + rec.x), WrapI32(oy + rec.y)))
        case None => Walk(s, rec.parent, WrapI32(ox + rec.x), WrapI32(oy + rec.y), seen + {cur})
  }

  /** The window a subsurface is composited onto, its offset there, and its own id. */
  function Resolve(s: State, sid: Surface): Option<(Win, I32, I32, Win)> {
    match Link(s, sid)
    case None => None
    case Some(leaf) =>
      match Walk(s, sid, 0, 0, {})
      case None => None
      case Some((w, x, y)) => Some((w, x, y, leaf.subId))
  }

  function ReapSub(s: State, obj: Obj): State {
    if obj !in s.subs then s
    else
      var rec := s.subs[obj];
      s.(subs := s.subs - {obj}, surfaceSub := s.surfaceSub - {rec.surface},
         posted := s.posted + Removal(Resolve(s, rec.surface), rec.subId))
  }

  function Removal(at: Option<(Win, I32, I32, Win)>, subId: Win): seq<Cmd> {
    match at case None => [] case Some((w, _, _, _)) => [SubDestroy(w, subId)]
  }

  function SubPainting(at: Option<(Win, I32, I32, Win)>, buffer: Buffer): seq<Cmd> {
    match at
    case None => []
    case Some((w, x, y, subId)) => if buffer.readable then [SubFrame(w, subId, x, y)] else []
  }

  function PresentSub(s: State, sid: Surface, buffer: Buffer): State {
    s.(posted := s.posted + SubPainting(Resolve(s, sid), buffer))
  }

  // ---- commits -----------------------------------------------------------

  /** Every role record of the surface is configured by its first commit. */
  function Configure(s: State, sid: Surface): State {
    s.(toplevels := ConfiguredToplevels(s.toplevels, s.surfaceToplevel, sid),
       popups := ConfiguredPopups(s.popups, s.surfacePopup, sid),
       layers := ConfiguredLayers(s.layers, s.surfaceLayer, sid))
  }

  function ConfiguredToplevels(m: map<Obj, Toplevel>, index: map<Surface, Obj>, sid: Surface): map<Obj, Toplevel> {
    if sid in index && index[sid] in m then m[index[sid] := m[index[sid]].(configured := true)] else m
  }

  function ConfiguredPopups(m: map<Obj, Popup>, index: map<Surface, Obj>, sid: Surface): map<Obj, Popup> {
    if sid in index && index[sid] in m then m[index[sid] := m[index[sid]].(configured := true)] else m
  }

  function ConfiguredLayers(m: map<Obj, Layer>, index: map<Surface, Obj>, sid: Surface): map<Obj, Layer> {
    if sid in index && index[sid] in m then m[index[sid] := m[index[sid]].(configured := true)] else m
  }

  /** The commands that show a buffer in a window: it is created by its first frame. */
  function Painting(created: bool, create: Cmd, win: Win): seq<Cmd> {
    if created then [Frame(win)] else [create, Frame(win)]
  }

  function PresentToplevel(s: State, obj: Obj): State {
    if obj !in s.toplevels then s
    else
      var t := s.toplevels[obj];
      s.(toplevels := s.toplevels[obj := t.(created := true)],
         posted := s.posted + Painting(t.created, Create(t.win), t.win))
  }

  function PresentPopup(s: State, obj: Obj): State {
    if obj !in s.popups then s
    else
      var p := s.popups[obj];
      s.(popups := s.popups[obj := p.(created := true)],
         posted := s.posted + Painting(p.created, CreatePopup(p.win, p.parent), p.win))
  }

  function PresentLayer(s: State, obj: Obj): State {
    if obj !in s.layers then s
    else
      var l := s.layers[obj];
      s.(layers := s.layers[obj := l.(created := true)],
         posted := s.posted + Painting(l.created, CreateLayer(l.win), l.win))
  }

  function Present(s: State, sid: Surface, buffer: Buffer): State {
    if !buffer.readable then s
    else if sid in s.surfaceToplevel then PresentToplevel(s, s.surfaceToplevel[sid])
    else if sid in s.surfacePopup then PresentPopup(s, s.surfacePopup[sid])
    else s
  }

  function HidePopup(s: State, obj: Obj): State {
    if obj in s.popups && s.popups[obj].created then
      var p := s.popups[obj];
      Post(s.(popups := s.popups[obj := p.(created := false)]), Destroy(p.win))
    else s
  }

  /** A null attach hides a popup and keeps its window id for a later buffer. */
  function Unmap(s: State, sid: Surface): State {
    if sid in s.surfacePopup then HidePopup(s, s.surfacePopup[sid]) else s
  }

  function ShowBuffer(s: State, sid: Surface, buffer: Buffer): State {
    if s.cursor == Some(sid) then (if buffer.readable then Post(s, SetCursorImage) else s)
    else if sid in s.surfaceSub then PresentSub(s, sid, buffer)
    else if sid in s.surfaceLayer then (if buffer.readable then PresentLayer(s, s.surfaceLayer[sid]) else s)
    else Present(s, sid, buffer)
  }

  /** The buffer and the attach mark staged since the last commit. */
  function Staged(s: State, sid: Surface): SurfaceRec {
    if sid in s.surfaces then s.surfaces[sid] else SurfaceRec(None, false)
  }

  function Unstaged(surfaces: map<Surface, SurfaceRec>, sid: Surface): map<Surface, SurfaceRec> {
    if sid in surfaces then surfaces[sid := SurfaceRec(None, false)] else surfaces
  }

  function Commit(s: State, sid: Surface): State {
    var staged := Staged(s, sid);
    var s' := Configure(s.(surfaces := Unstaged(s.surfaces, sid)), sid);
    if staged.pending.Some? then ShowBuffer(s', sid, staged.pending.value)
    else if staged.attached then Unmap(s', sid)
    else s'
  }

  function Attach(s: State, sid: Surface, buffer: Option<Buffer>): State {
    if sid in s.surfaces then s.(surfaces := s.surfaces[sid := SurfaceRec(buffer, true)]) else s
  }

  /** The toplevel part of destroying a surface: the record goes, the window's registration
      stays. */
  function LoseToplevel(s: State, sid: Surface): State {
    if sid !in s.surfaceToplevel then s
    else
      var obj := s.surfaceToplevel[sid];
      s.(surfaceToplevel := s.surfaceToplevel - {sid}, toplevels := s.toplevels - {obj},
         posted := s.posted + if obj in s.toplevels then Closing(s.toplevels[obj].created, s.toplevels[obj].win) else [])
  }

  function LoseSub(s: State, sid: Surface): State {
    if sid in s.surfaceSub then ReapSub(s, s.surfaceSub[sid]) else s
  }

  ghost function LoseLayer(s: State, sid: Surface): State {
    if sid in s.surfaceLayer then ReapLayer(s, s.surfaceLayer[sid]) else s
  }

  function Forget(s: State, sid: Surface): State {
    s.(cursor := if s.cursor == Some(sid) then None else s.cursor, surfaces := s.surfaces - {sid})
  }

  ghost function DestroySurface(s: State, sid: Surface): State {
    Forget(LoseLayer(LoseSub(LoseToplevel(s, sid), sid), sid), sid)
  }

  function Grab(s: State, obj: Obj): State {
    if obj in s.popups then Post(s, SetGrab(Some(s.popups[obj].win))) else s
  }

  /** The buffer staged on a cursor surface, which becomes the cursor at once. */
  function CursorBuffer(s: State, surface: Option<Surface>): Option<Buffer> {
    if surface.Some? then Staged(s, surface.value).pending else None
  }

  function CursorCommands(s: State, surface: Option<Surface>): seq<Cmd> {
    if surface.None? then [HideCursor]
    else match CursorBuffer(s, surface)
      case None => []
      case Some(buffer) => if buffer.readable then [SetCursorImage] else []
  }

  function SetCursor(s: State, surface: Option<Surface>): State {
    s.(cursor := surface,
       surfaces := if CursorBuffer(s, surface).Some? then
                     s.surfaces[surface.value := SurfaceRec(None, Staged(s, surface.value).attached)]
                   else s.surfaces,
       posted := s.posted + CursorCommands(s, surface))
  }

  // ---- the pointer -------------------------------------------------------

  function PointersFor(pointers: seq<Pointer>, client: nat): (r: seq<Pointer>)
    ensures forall p :: p in r <==> p in pointers && p.client == client
  {
    if |pointers| == 0 then []
    else (if pointers[0].client == client then [pointers[0]] else []) + PointersFor(pointers[1..], client)
  }

  datatype Kind = KEnter | KLeave | KMotion | KButton

  function Message(kind: Kind, p: Pointer, sid: Surface, win: Win): Sent {
    match kind
    case KEnter => Enter(p, sid, win)
    case KLeave => Leave(p, sid, win)
    case KMotion => Motion(p, sid)
    case KButton => Button(p, sid)
  }

  function Messages(kind: Kind, ps: seq<Pointer>, sid: Surface, win: Win): seq<Sent> {
    if |ps| == 0 then [] else [Message(kind, ps[0], sid, win)] + Messages(kind, ps[1..], sid, win)
  }

  /** One message to every pointer of the surface's client. */
  function ToSurface(s: State, kind: Kind, sid: Surface, win: Win): seq<Sent> {
    Messages(kind, PointersFor(s.pointers, sid.client), sid, win)
  }

  /** Input only moves the focus and sends messages. */
  function Pointed(s: State, focus: Option<Win>, sent: seq<Sent>): State {
    s.(focus := focus, sent := sent)
  }

  function LeaveFocus(s: State): State {
    Pointed(s, None, s.sent + LeaveMessages(s))
  }

  function LeaveMessages(s: State): seq<Sent> {
    if s.focus.Some? && s.focus.value in s.windowSurface then
      ToSurface(s, KLeave, s.windowSurface[s.focus.value], s.focus.value)
    else []
  }

  function EnsuredFocus(s: State, win: Win): Option<Win> {
    if win in s.windowSurface then Some(win) else s.focus
  }

  function EnsuredSent(s: State, win: Win): seq<Sent> {
    if win !in s.windowSurface || s.focus == Some(win) then s.sent
    else s.sent + LeaveMessages(s) + ToSurface(s, KEnter, s.windowSurface[win], win)
  }

  function EnsureFocus(s: State, win: Win): State {
    Pointed(s, EnsuredFocus(s, win), EnsuredSent(s, win))
  }

  /** The messages of a motion or button, once the window is sure to have the focus. */
  function DeliveredSent(s: State, kind: Kind, win: Win): seq<Sent> {
    if win in s.windowSurface then EnsuredSent(s, win) + ToSurface(s, kind, s.windowSurface[win], win) else s.sent
  }

  function OnMotion(s: State, win: Win): State {
    Pointed(s, EnsuredFocus(s, win), DeliveredSent(s, KMotion, win))
  }

  function OnButton(s: State, win: Win): State {
    Pointed(s, EnsuredFocus(s, win), DeliveredSent(s, KButton, win))
  }

  /** A leave for a window without the focus is stale and dropped; so is one for a window
      that is no longer registered, and then the focus stays. */
  predicate Leaves(s: State, win: Win) { s.focus == Some(win) && win in s.windowSurface }

  function OnLeave(s: State, win: Win): State {
    Pointed(s, if Leaves(s, win) then None else s.focus, if Leaves(s, win) then s.sent + LeaveMessages(s) else s.sent)
  }
}
