/** Runs of the compositor: any sequence of client requests and pointer input. */
module CompositorRun {
  import opened Prelude
  import opened Compositor

  datatype Event =
    | CreateSurface(sid: Surface)
    | AttachBuffer(sid: Surface, buffer: Option<Buffer>)
    | CommitSurface(sid: Surface)
    | SurfaceDestroyed(sid: Surface)
    | ToplevelMade(obj: Obj, sid: Surface)
    | ToplevelGone(obj: Obj)
    | PopupMade(obj: Obj, sid: Surface, parent: Option<Surface>)
    | PopupGrab(obj: Obj)
    | PopupGone(obj: Obj)
    | LayerMade(obj: Obj, sid: Surface)
    | LayerAnchor(obj: Obj, anchor: U32)
    | LayerExclusive(obj: Obj, zone: I32)
    | LayerGone(obj: Obj)
    | SubMade(obj: Obj, sid: Surface, above: Surface)
    | SubMoved(obj: Obj, x: I32, y: I32)
    | SubGone(obj: Obj)
    | CursorSet(surface: Option<Surface>)
    | Pointing(input: Input)

  /** Pointer input, by the window it happened in. */
  datatype Input = PointerEnter(win: Win) | PointerMotion(win: Win) | PointerButton(win: Win) | PointerLeave(win: Win)

  function React(s: State, i: Input): State {
    match i
    case PointerEnter(win) => EnsureFocus(s, win)
    case PointerMotion(win) => OnMotion(s, win)
    case PointerButton(win) => OnButton(s, win)
    case PointerLeave(win) => OnLeave(s, win)
  }

  /** Requests of toplevels and popups; of docked bars; and of surfaces, subsurfaces and the
      cursor. */
  predicate IsShell(e: Event) { e.ToplevelMade? || e.ToplevelGone? || e.PopupMade? || e.PopupGrab? || e.PopupGone? }
  predicate IsBar(e: Event) { e.LayerMade? || e.LayerAnchor? || e.LayerExclusive? || e.LayerGone? }
  predicate IsSide(e: Event) { e.CreateSurface? || e.AttachBuffer? || e.SubMade? || e.SubMoved? || e.SubGone? || e.CursorSet? }

  function ShellStep(s: State, e: Event): State
    requires IsShell(e)
  {
    match e
    case ToplevelMade(obj, sid) => GetToplevel(s, obj, sid)
    case ToplevelGone(obj) => ReapToplevel(s, obj)
    case PopupMade(obj, sid, parent) => GetPopup(s, obj, sid, parent)
    case PopupGrab(obj) => Grab(s, obj)
    case PopupGone(obj) => ReapPopup(s, obj)
  }

  ghost function BarStep(s: State, e: Event): State
    requires IsBar(e)
  {
    match e
    case LayerMade(obj, sid) => GetLayer(s, obj, sid)
    case LayerAnchor(obj, anchor) => SetAnchor(s, obj, anchor)
    case LayerExclusive(obj, zone) => SetExclusive(s, obj, zone)
    case LayerGone(obj) => ReapLayer(s, obj)
  }

  function AddSurface(s: State, sid: Surface): State {
    s.(surfaces := s.surfaces[sid := SurfaceRec(None, false)])
  }

  function SideStep(s: State, e: Event): State
    requires IsSide(e)
  {
    match e
    case CreateSurface(sid) => AddSurface(s, sid)
    case AttachBuffer(sid, buffer) => Attach(s, sid, buffer)
    case SubMade(obj, sid, above) => GetSub(s, obj, sid, above)
    case SubMoved(obj, x, y) => SetPosition(s, obj, x, y)
    case SubGone(obj) => ReapSub(s, obj)
    case CursorSet(surface) => SetCursor(s, surface)
  }

  ghost function Step(s: State, e: Event): State {
    if IsShell(e) then ShellStep(s, e)
    else if IsBar(e) then BarStep(s, e)
    else if IsSide(e) then SideStep(s, e)
    else match e
      case CommitSurface(sid) => Commit(s, sid)
      case SurfaceDestroyed(sid) => DestroySurface(s, sid)
      case Pointing(input) => React(s, input)
  }

  /** Pointer input moves the focus and sends messages, nothing else. */
  lemma ReactOnly(s: State, i: Input)
    ensures React(s, i) == Pointed(s, React(s, i).focus, React(s, i).sent)
  {
  }

  /** A request that makes an object brings an id no living object of that kind has. */
  predicate FreshId(s: State, e: Event) {
    match e
    case ToplevelMade(obj, _) => obj !in s.toplevels
    case PopupMade(obj, _, _) => obj !in s.popups
    case LayerMade(obj, _) => obj !in s.layers
    case SubMade(obj, _, _) => obj !in s.subs
    case _ => true
  }

  ghost function Run(pointers: seq<Pointer>, events: seq<Event>): State {
    if |events| == 0 then Start(pointers) else Step(Run(pointers, events[..|events| - 1]), events[|events| - 1])
  }

  ghost predicate FreshIds(pointers: seq<Pointer>, events: seq<Event>) {
    forall k :: 0 <= k < |events| ==> FreshId(Run(pointers, events[..k]), events[k])
  }

  lemma FreshInit(pointers: seq<Pointer>, events: seq<Event>)
    requires |events| > 0 && FreshIds(pointers, events)
    ensures var n := |events| - 1;
            FreshIds(pointers, events[..n]) && FreshId(Run(pointers, events[..n]), events[n])
  {
    var init := events[..|events| - 1];
    forall k | 0 <= k < |init| ensures init[..k] == events[..k] {}
  }
}
