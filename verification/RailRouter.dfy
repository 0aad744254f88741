/** The RAIL window router: which windows are mirrored, which are frames or tools, and
    which window a surface's pixels belong to. */
module RailRouter {
  import opened Prelude
  import opened RailGeometry

  const WS_EX_TOOLWINDOW: U32 := 0x0000_0080
  const WS_EX_NOACTIVATE: U32 := 0x0800_0000
  const OWNER_NONE_A: U32 := 0
  const OWNER_NONE_B: U32 := 0xFFFF_FFFF

  datatype Kind = Mirror | Filtered

  datatype Win = Win(kind: Kind, owner: Option<U32>, rect: Rect)

  type Windows = map<U32, Win>

  datatype Order = NewMirror | KnownMirror | NowFiltered | Suppressed

  /** The style part of an order, when it carried one. */
  datatype Style = Style(exstyle: U32, owner: U32)

  datatype State = State(windows: Windows, surfMap: map<U16, U32>, demoted: seq<U32>)

  const EMPTY := State(map[], map[], [])

  // ---- classification ----------------------------------------------------

  predicate IsDecoration(exstyle: U32, owner: Option<U32>) {
    HasBit(exstyle, WS_EX_TOOLWINDOW) || (owner.Some? && HasBit(exstyle, WS_EX_NOACTIVATE))
  }

  function NormalizeOwner(owner: U32): Option<U32> {
    if owner == OWNER_NONE_A || owner == OWNER_NONE_B then None else Some(owner)
  }

  /** `cid` is another window that `id` owns and that covers `id`. */
  predicate CoveringChild(ws: Windows, cid: U32, id: U32) {
    cid in ws && id in ws && cid != id && ws[cid].owner == Some(id) && ws[cid].rect.Covers(ws[id].rect)
  }

  predicate HasCoveringChild(ws: Windows, id: U32) {
    exists cid | cid in ws :: CoveringChild(ws, cid, id)
  }

  predicate Mirrored(ws: Windows, id: U32) {
    id in ws && ws[id].kind == Mirror
  }

  function MirrorIds(ws: Windows): set<U32> {
    set id | id in ws && ws[id].kind == Mirror
  }

  function OrderOwner(ws: Windows, id: U32, style: Option<Style>): Option<U32> {
    var named := if style.Some? then NormalizeOwner(style.value.owner) else None;
    if named.Some? then named else if id in ws then ws[id].owner else None
  }

  /** The kind an order gives its own window, `ws` already holding the new geometry. */
  function Classify(ws: Windows, id: U32, style: Option<Style>, owner: Option<U32>, prev: Option<Kind>): Kind {
    if style.Some? && IsDecoration(style.value.exstyle, owner) then Filtered
    else if HasCoveringChild(ws, id) then Filtered
    else if style.None? && prev.Some? then prev.value
    else Mirror
  }

  function Verdict(prev: Option<Kind>, kind: Kind): Order {
    match kind
    case Mirror => if prev == Some(Mirror) then KnownMirror else NewMirror
    case Filtered => if prev == Some(Mirror) then NowFiltered else Suppressed
  }

  function PrevKind(ws: Windows, id: U32): Option<Kind> {
    if id in ws then Some(ws[id].kind) else None
  }

  /** The window table once the ordered window itself has been filed and classified. */
  function Filed(ws: Windows, id: U32, style: Option<Style>, rect: Rect): Windows {
    var owner := OrderOwner(ws, id, style);
    var prev := PrevKind(ws, id);
    var placed := ws[id := Win(if prev.Some? then prev.value else Mirror, owner, rect)];
    placed[id := Win(Classify(placed, id, style, owner, prev), owner, rect)]
  }

  /** The owner this order reveals to be a frame, if any. */
  function Exposed(ws: Windows, owner: Option<U32>): Option<U32> {
    if owner.Some? && Mirrored(ws, owner.value) && HasCoveringChild(ws, owner.value) then owner else None
  }

  function WindowOrder(s: State, id: U32, style: Option<Style>, rect: Rect): (State, Order) {
    var filed := Filed(s.windows, id, style, rect);
    var verdict := Verdict(PrevKind(s.windows, id), filed[id].kind);
    match Exposed(filed, filed[id].owner)
    case None => (s.(windows := filed), verdict)
    case Some(p) =>
      (s.(windows := filed[p := filed[p].(kind := Filtered)], demoted := s.demoted + [p]), verdict)
  }

  function WindowDeleted(s: State, id: U32): (State, bool) {
    (State(s.windows - {id}, Unmapped(s.surfMap, id), Without(s.demoted, id)), Mirrored(s.windows, id))
  }

  function Unmapped(surfMap: map<U16, U32>, id: U32): map<U16, U32> {
    map sid | sid in surfMap && surfMap[sid] != id :: surfMap[sid]
  }

  function MirroredOrNone(ws: Windows, id: U32): Option<U32> {
    if Mirrored(ws, id) then Some(id) else None
  }

  lemma SoleIdUnique(ws: Windows, a: U32, b: U32)
    requires |ws| == 1 && a in ws && b in ws
    ensures a == b
  {
    assert |ws.Keys - {a}| == 0;
    assert b !in ws.Keys - {a};
  }

  function SoleId(ws: Windows): (id: U32)
    requires |ws| == 1
    ensures ws.Keys == {id}
  {
    assert |ws.Keys| == 1 && ws.Keys != {};
    assert forall a, b | a in ws && b in ws :: a == b by {
      forall a, b | a in ws && b in ws ensures a == b { SoleIdUnique(ws, a, b); }
    }
    var id :| id in ws;
    id
  }

  function Resolve(s: State, sid: U16, surfaceWindow: U32): Option<U32> {
    if sid in s.surfMap then MirroredOrNone(s.windows, s.surfMap[sid])
    else if surfaceWindow != 0 then MirroredOrNone(s.windows, surfaceWindow)
    else if |s.windows| == 1 then MirroredOrNone(s.windows, SoleId(s.windows))
    else None
  }

  // ---- the mutable router ------------------------------------------------

  class Router {
    var windows: Windows
    var surfMap: map<U16, U32>
    var demoted: seq<U32>

    ghost function St(): State
      reads this
    {
      State(windows, surfMap, demoted)
    }

    constructor ()
      ensures St() == EMPTY
    {
      windows, surfMap, demoted := map[], map[], [];
    }

    method Reset()
      modifies this
      ensures St() == EMPTY
    {
      windows, surfMap, demoted := map[], map[], [];
    }

    method Order(id: U32, style: Option<Style>, rect: Rect) returns (verdict: Order)
      modifies this
      ensures (St(), verdict) == WindowOrder(old(St()), id, style, rect)
    {
      var prev := PrevKind(windows, id);
      var owner := OrderOwner(windows, id, style);
      windows := windows[id := Win(if prev.Some? then prev.value else Mirror, owner, rect)];
      var kind := Classify(windows, id, style, owner, prev);
      windows := windows[id := windows[id].(kind := kind)];
      if owner.Some? {
        var p := owner.value;
        if Mirrored(windows, p) && HasCoveringChild(windows, p) {
          windows := windows[p := windows[p].(kind := Filtered)];
          demoted := demoted + [p];
        }
      }
      verdict := Verdict(prev, kind);
    }

    method Pop() returns (id: Option<U32>)
      modifies this`demoted
      ensures var n := |old(demoted)|;
              if n == 0 then id == None && demoted == []
              else id == Some(old(demoted)[n - 1]) && demoted == old(demoted)[..n - 1]
    {
      if |demoted| == 0 {
        id := None;
      } else {
        id := Some(demoted[|demoted| - 1]);
        demoted := demoted[..|demoted| - 1];
      }
    }

    method Delete(id: U32) returns (wasMirror: bool)
      modifies this
      ensures (St(), wasMirror) == WindowDeleted(old(St()), id)
    {
      wasMirror := Mirrored(windows, id);
      windows := windows - {id};
      surfMap := Unmapped(surfMap, id);
      demoted := Without(demoted, id);
    }

    method MapSurface(sid: U16, id: U32)
      modifies this`surfMap
      ensures St() == old(St()).(surfMap := old(surfMap)[sid := id])
    {
      surfMap := surfMap[sid := id];
    }

    method UnmapWindow(id: U32)
      modifies this`surfMap
      ensures St() == old(St()).(surfMap := Unmapped(old(surfMap), id))
    {
      surfMap := Unmapped(surfMap, id);
    }
  }

  // ---- what every order keeps --------------------------------------------

  /** No mirrored window has another window that it owns and that covers it. */
  ghost predicate NoCoveredMirror(ws: Windows) {
    forall id :: Mirrored(ws, id) ==> !HasCoveringChild(ws, id)
  }

  /** No window is owned by either of the two "unowned" codes. */
  ghost predicate OwnersNamed(ws: Windows) {
    forall id :: id in ws ==> ws[id].owner != Some(OWNER_NONE_A) && ws[id].owner != Some(OWNER_NONE_B)
  }

  ghost predicate Sound(ws: Windows) {
    NoCoveredMirror(ws) && OwnersNamed(ws)
  }

  /** Covering does not depend on kinds, so reclassifying a window moves no child. */
  lemma CoveringIgnoresKind(ws: Windows, id: U32, kind: Kind, q: U32)
    requires id in ws
    ensures HasCoveringChild(ws[id := ws[id].(kind := kind)], q) == HasCoveringChild(ws, q)
  {
    var ws' := ws[id := ws[id].(kind := kind)];
    forall c ensures CoveringChild(ws', c, q) == CoveringChild(ws, c, q) {}
    if HasCoveringChild(ws, q) {
      var c :| c in ws && CoveringChild(ws, c, q);
      assert c in ws' && CoveringChild(ws', c, q);
    }
  }

  /** A mirrored window that is covered just after an order was filed is the ordered
      window's owner, and not the ordered window itself. */
  lemma OnlyOwnerExposed(ws: Windows, id: U32, style: Option<Style>, rect: Rect, q: U32)
    requires NoCoveredMirror(ws)
    ensures var filed := Filed(ws, id, style, rect);
            Mirrored(filed, q) && HasCoveringChild(filed, q) ==> filed[id].owner == Some(q) && q != id
  {
    var filed := Filed(ws, id, style, rect);
    var prev := PrevKind(ws, id);
    var placed := ws[id := Win(if prev.Some? then prev.value else Mirror, filed[id].owner, rect)];
    assert filed == placed[id := placed[id].(kind := filed[id].kind)];
    CoveringIgnoresKind(placed, id, filed[id].kind, q);
    if Mirrored(filed, q) && HasCoveringChild(filed, q) && q != id {
      var c :| c in filed && CoveringChild(filed, c, q);
      if c != id {
        assert CoveringChild(ws, c, q) && Mirrored(ws, q);
      }
    }
  }

  /** The table after an order, in terms of the filed one. */
  lemma OrderTable(s: State, id: U32, style: Option<Style>, rect: Rect)
    ensures var filed := Filed(s.windows, id, style, rect);
            var p := Exposed(filed, filed[id].owner);
            && filed.Keys == s.windows.Keys + {id}
            && (p.Some? ==> p.value in filed)
            && WindowOrder(s, id, style, rect).0.windows ==
               if p.Some? then filed[p.value := filed[p.value].(kind := Filtered)] else filed
  {
  }

  lemma OrderUncovers(s: State, id: U32, style: Option<Style>, rect: Rect, q: U32)
    requires NoCoveredMirror(s.windows)
    ensures var ws := WindowOrder(s, id, style, rect).0.windows;
            !(Mirrored(ws, q) && HasCoveringChild(ws, q))
  {
    var filed := Filed(s.windows, id, style, rect);
    OrderTable(s, id, style, rect);
    OnlyOwnerExposed(s.windows, id, style, rect, q);
    var exposed := Exposed(filed, filed[id].owner);
    if exposed.Some? { CoveringIgnoresKind(filed, exposed.value, Filtered, q); }
  }

  lemma OrderNamesOwners(s: State, id: U32, style: Option<Style>, rect: Rect)
    requires OwnersNamed(s.windows)
    ensures OwnersNamed(WindowOrder(s, id, style, rect).0.windows)
  {
    OrderTable(s, id, style, rect);
    assert OwnersNamed(Filed(s.windows, id, style, rect));
  }

  /** Every order keeps the invariant, whatever it changes: geometry, owner or style. */
  lemma OrderKeepsSound(s: State, id: U32, style: Option<Style>, rect: Rect)
    requires Sound(s.windows)
    ensures Sound(WindowOrder(s, id, style, rect).0.windows)
  {
    OrderNamesOwners(s, id, style, rect);
    forall q { OrderUncovers(s, id, style, rect, q); }
  }

  lemma DeleteKeepsSound(s: State, id: U32)
    requires Sound(s.windows)
    ensures Sound(WindowDeleted(s, id).0.windows)
  {
    var ws := WindowDeleted(s, id).0.windows;
    forall q | Mirrored(ws, q) ensures !HasCoveringChild(ws, q) {
      if HasCoveringChild(ws, q) {
        var c :| c in ws && CoveringChild(ws, c, q);
        assert CoveringChild(s.windows, c, q) && Mirrored(s.windows, q);
      }
    }
  }

  /** Pending demotions and surface maps play no part in an order's verdict, nor in what it
      does to the table. */
  lemma OrderReadsWindowsOnly(s: State, s': State, id: U32, style: Option<Style>, rect: Rect)
    requires s.windows == s'.windows
    ensures WindowOrder(s, id, style, rect).0.windows == WindowOrder(s', id, style, rect).0.windows
    ensures WindowOrder(s, id, style, rect).1 == WindowOrder(s', id, style, rect).1
  {
  }

  /** Before the order: the window is mirrored, its style will not make it decoration, and no
      window it owns covers the rectangle it is about to have. */
  predicate StaysMirrored(ws: Windows, id: U32, style: Option<Style>, rect: Rect) {
    && Mirrored(ws, id)
    && !(style.Some? && IsDecoration(style.value.exstyle, OrderOwner(ws, id, style)))
    && !HasCoveringChild(ws[id := ws[id].(rect := rect)], id)
  }

  /** Whether a window is covered does not depend on its own kind or owner. */
  lemma CoveringIgnoresSelf(ws: Windows, id: U32, w: Win)
    requires id in ws
    ensures HasCoveringChild(ws[id := w], id) == HasCoveringChild(ws[id := ws[id].(rect := w.rect)], id)
  {
    var one, two := ws[id := w], ws[id := ws[id].(rect := w.rect)];
    forall c ensures CoveringChild(one, c, id) == CoveringChild(two, c, id) {}
  }

  /** An order keeps a mirrored window mirrored exactly then. */
  lemma KnownMirrorIff(s: State, id: U32, style: Option<Style>, rect: Rect)
    ensures WindowOrder(s, id, style, rect).1.KnownMirror? <==> StaysMirrored(s.windows, id, style, rect)
  {
    if id in s.windows {
      CoveringIgnoresSelf(s.windows, id, Win(s.windows[id].kind, OrderOwner(s.windows, id, style), rect));
    }
  }

  /** What an order does to the mirrored set, read off the verdict and the demotion
      queue: at most one demotion, of a window other than 0 and other than the ordered
      one, which was mirrored and no longer is. */
  lemma OrderEffect(s: State, id: U32, style: Option<Style>, rect: Rect)
    requires Sound(s.windows)
    ensures var (s', v) := WindowOrder(s, id, style, rect);
            var before := MirrorIds(s.windows);
            var own := if v.NewMirror? || v.KnownMirror? then before + {id} else before - {id};
            && s'.windows.Keys == s.windows.Keys + {id}
            && s'.surfMap == s.surfMap
            && (v.NewMirror? ==> id !in before)
            && (v.KnownMirror? || v.NowFiltered? ==> id in before)
            && (v.Suppressed? ==> id !in before)
            && (|| (s'.demoted == s.demoted && MirrorIds(s'.windows) == own)
                || exists p {:trigger s.demoted + [p]} ::
                     && p != 0 && p != id && p in before && s'.demoted == s.demoted + [p]
                     && MirrorIds(s'.windows) == own - {p})
  {
    var filed := Filed(s.windows, id, style, rect);
    FiledMirrors(s, id, style, rect);
    match Exposed(filed, filed[id].owner) {
      case None =>
      case Some(p) =>
        OnlyOwnerExposed(s.windows, id, style, rect, p);
        ExposedNamed(s.windows, id, style, rect, p);
        Demoted(filed, p);
    }
  }

  /** What filing does to the mirrored set, by the verdict. */
  lemma FiledMirrors(s: State, id: U32, style: Option<Style>, rect: Rect)
    ensures var v := WindowOrder(s, id, style, rect).1;
            var before := MirrorIds(s.windows);
            && (v.NewMirror? ==> id !in before)
            && (v.KnownMirror? || v.NowFiltered? ==> id in before)
            && (v.Suppressed? ==> id !in before)
            && MirrorIds(Filed(s.windows, id, style, rect)) ==
               if v.NewMirror? || v.KnownMirror? then before + {id} else before - {id}
  {
  }

  /** An exposed owner has a real id and was mirrored already. */
  lemma ExposedNamed(ws: Windows, id: U32, style: Option<Style>, rect: Rect, p: U32)
    requires Sound(ws)
    requires var filed := Filed(ws, id, style, rect); filed[id].owner == Some(p) && Mirrored(filed, p) && p != id
    ensures p != 0 && p in MirrorIds(ws)
  {
  }

  lemma Demoted(ws: Windows, p: U32)
    requires p in ws
    ensures MirrorIds(ws[p := ws[p].(kind := Filtered)]) == MirrorIds(ws) - {p}
  {
  }
}
