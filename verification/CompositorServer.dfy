/** The compositor's tables as they are updated in place, request by request. */
module CompositorServer {
  import opened Prelude
  import opened Compositor
  import C = Compositor

  // ---- the reserved-zone loop --------------------------------------------

  /** The largest zone so far, after looking at one more bar. */
  lemma ReservedAdd(layers: map<Obj, Layer>, todo: set<Obj>, o: Obj, edge: Edge, z: int)
    requires o in todo && o in layers && IsReserved(layers - todo, edge, z)
    ensures IsReserved(layers - (todo - {o}), edge, With(layers[o], edge, z))
  {
    var done, more := layers - todo, layers - (todo - {o});
    assert forall k :: k in done ==> k in more && more[k] == done[k];
    assert o in more && more[o] == layers[o];
    assert forall k :: k in more && k != o ==> k in done;
    if z > 0 {
      var k :| k in done && Reserves(done[k], edge) && done[k].exclusive == z;
      assert k in more && Reserves(more[k], edge);
    }
  }

  lemma AllReserved(layers: map<Obj, Layer>, edge: Edge, z: int)
    requires IsReserved(layers - {}, edge, z)
    ensures z == ReservedAt(layers, edge)
  {
    assert layers - {} == layers;
    ReservedUnique(layers, edge, z, ReservedAt(layers, edge));
  }

  /** The four edges together. */
  ghost predicate SoFar(layers: map<Obj, Layer>, top: int, right: int, bottom: int, left: int) {
    && IsReserved(layers, Top, top) && IsReserved(layers, Right, right)
    && IsReserved(layers, Bottom, bottom) && IsReserved(layers, Left, left)
  }

  function With(l: Layer, edge: Edge, z: int): int { if Reserves(l, edge) then Max(z, l.exclusive) else z }

  lemma OneMoreBar(layers: map<Obj, Layer>, todo: set<Obj>, o: Obj, top: int, right: int, bottom: int, left: int)
    requires o in todo && o in layers && SoFar(layers - todo, top, right, bottom, left)
    ensures var l := layers[o];
            SoFar(layers - (todo - {o}),
                  With(l, Top, top), With(l, Right, right), With(l, Bottom, bottom), With(l, Left, left))
  {
    ReservedAdd(layers, todo, o, Top, top);
    ReservedAdd(layers, todo, o, Right, right);
    ReservedAdd(layers, todo, o, Bottom, bottom);
    ReservedAdd(layers, todo, o, Left, left);
  }

  lemma AllBars(layers: map<Obj, Layer>, top: int, right: int, bottom: int, left: int)
    requires SoFar(layers - {}, top, right, bottom, left)
    ensures Insets(top, right, bottom, left) == Reserved(layers)
  {
    AllReserved(layers, Top, top);
    AllReserved(layers, Right, right);
    AllReserved(layers, Bottom, bottom);
    AllReserved(layers, Left, left);
  }

  lemma NextMessage(kind: Kind, ps: seq<Pointer>, sid: Surface, win: Win)
    requires |ps| > 0
    ensures Messages(kind, PointersFor(ps, sid.client), sid, win)
            == (if ps[0].client == sid.client then [Message(kind, ps[0], sid, win)] else [])
               + Messages(kind, PointersFor(ps[1..], sid.client), sid, win)
  {
    var rest := PointersFor(ps[1..], sid.client);
    if ps[0].client == sid.client {
      assert ([ps[0]] + rest)[1..] == rest;
    } else {
      assert [] + rest == rest;
    }
  }

  /** States that agree on records agree when they agree on everything else. */
  lemma Assembled(s: State, t: State)
    requires s.toplevels == t.toplevels && s.popups == t.popups && s.layers == t.layers
    requires s.(toplevels := t.toplevels, popups := t.popups, layers := t.layers) == t
    ensures s == t
  {
  }

  class Server {
    var nextWin: Win
    var surfaces: map<Surface, SurfaceRec>
    var toplevels: map<Obj, Toplevel>
    var surfaceToplevel: map<Surface, Obj>
    var popups: map<Obj, Popup>
    var surfacePopup: map<Surface, Obj>
    var layers: map<Obj, Layer>
    var surfaceLayer: map<Surface, Obj>
    var subs: map<Obj, Sub>
    var surfaceSub: map<Surface, Obj>
    var windowSurface: map<Win, Surface>
    var cursor: Option<Surface>
    var insets: Insets
    var pointers: seq<Pointer>
    var focus: Option<Win>
    var posted: seq<Cmd>
    var sent: seq<Sent>

    ghost function St(): State
      reads this
    {
      State(nextWin, surfaces, toplevels, surfaceToplevel, popups, surfacePopup, layers, surfaceLayer, subs, surfaceSub,
            windowSurface, cursor, insets, pointers, focus, posted, sent)
    }

    constructor (bound: seq<Pointer>)
      ensures St() == Start(bound)
    {
      nextWin := 1;
      surfaces, windowSurface := map[], map[];
      toplevels, surfaceToplevel := map[], map[];
      popups, surfacePopup := map[], map[];
      layers, surfaceLayer := map[], map[];
      subs, surfaceSub := map[], map[];
      cursor, focus := None, None;
      insets := Insets(0, 0, 0, 0);
      pointers, posted, sent := bound, [], [];
    }

    method AllocWindow(sid: Surface) returns (win: Win)
      modifies this`nextWin, this`windowSurface
      ensures win == old(nextWin) && nextWin == win + 1 && windowSurface == old(windowSurface)[win := sid]
    {
      win := nextWin;
      nextWin := nextWin + 1;
      windowSurface := windowSurface[win := sid];
    }

    // ---- toplevels and popups --------------------------------------------

    method GetToplevel(obj: Obj, sid: Surface)
      modifies this
      ensures St() == C.GetToplevel(old(St()), obj, sid)
    {
      var win := AllocWindow(sid);
      toplevels := toplevels[obj := Toplevel(sid, win, false, false)];
      surfaceToplevel := surfaceToplevel[sid := obj];
    }

    method ReapToplevel(obj: Obj)
      modifies this
      ensures St() == C.ReapToplevel(old(St()), obj)
    {
      if obj in toplevels {
        var rec := toplevels[obj];
        toplevels := toplevels - {obj};
        surfaceToplevel := surfaceToplevel - {rec.surface};
        windowSurface := windowSurface - {rec.win};
        if rec.created { posted := posted + [Destroy(rec.win)]; }
        assert posted == old(posted) + Closing(rec.created, rec.win);
      }
    }

    method WindowForSurface(sid: Surface) returns (w: Option<Win>)
      ensures w == WindowFor(St(), sid)
    {
      w := None;
      if sid in surfaceToplevel {
        if surfaceToplevel[sid] in toplevels { w := Some(toplevels[surfaceToplevel[sid]].win); }
      } else if sid in surfacePopup {
        if surfacePopup[sid] in popups { w := Some(popups[surfacePopup[sid]].win); }
      }
    }

    method GetPopup(obj: Obj, sid: Surface, parent: Option<Surface>)
      modifies this
      ensures St() == C.GetPopup(old(St()), obj, sid, parent)
    {
      var above := ParentWindow(parent);
      var win := AllocWindow(sid);
      popups := popups[obj := Popup(sid, above, win, false, false)];
      surfacePopup := surfacePopup[sid := obj];
    }

    method ParentWindow(parent: Option<Surface>) returns (above: Win)
      ensures above == C.ParentWindow(St(), parent)
    {
      above := 0;
      if parent.Some? {
        var w := WindowForSurface(parent.value);
        if w.Some? { above := w.value; }
      }
    }

    method ReapPopup(obj: Obj)
      modifies this
      ensures St() == C.ReapPopup(old(St()), obj)
    {
      if obj in popups {
        var rec := popups[obj];
        popups := popups - {obj};
        surfacePopup := surfacePopup - {rec.surface};
        windowSurface := windowSurface - {rec.win};
        posted := posted + [Destroy(rec.win)];
      }
    }

    method Grab(obj: Obj)
      modifies this
      ensures St() == C.Grab(old(St()), obj)
    {
      if obj in popups { posted := posted + [SetGrab(Some(popups[obj].win))]; }
    }

    // ---- layer surfaces --------------------------------------------------

    method GetLayer(obj: Obj, sid: Surface)
      modifies this
      ensures St() == C.GetLayer(old(St()), obj, sid)
    {
      var win := AllocWindow(sid);
      layers := layers[obj := Layer(sid, win, 0, 0, false, false)];
      surfaceLayer := surfaceLayer[sid := obj];
    }

    /** Looks at the bars in any order. */
    method RecomputeReserved()
      modifies this`insets
      ensures insets == Reserved(layers)
    {
      var top, right, bottom, left := 0, 0, 0, 0;
      var todo := layers.Keys;
      while todo != {}
        invariant todo <= layers.Keys
        invariant SoFar(layers - todo, top, right, bottom, left)
      {
        var o :| o in todo;
        var rec := layers[o];
        OneMoreBar(layers, todo, o, top, right, bottom, left);
        todo := todo - {o};
        if rec.exclusive > 0 {
          var t, b, l, r := HasBit(rec.anchor, 1), HasBit(rec.anchor, 2), HasBit(rec.anchor, 4), HasBit(rec.anchor, 8);
          if t && !b { top := Max(top, rec.exclusive); } else if b && !t { bottom := Max(bottom, rec.exclusive); }
          if l && !r { left := Max(left, rec.exclusive); } else if r && !l { right := Max(right, rec.exclusive); }
        }
      }
      AllBars(layers, top, right, bottom, left);
      insets := Insets(top, right, bottom, left);
    }

    /** A bar's record changes, and the insets with it. */
    method Rearrange(obj: Obj, rec: Layer)
      modifies this`layers, this`insets
      ensures layers == old(layers)[obj := rec] && insets == Reserved(layers)
    {
      layers := layers[obj := rec];
      RecomputeReserved();
    }

    method SetAnchor(obj: Obj, anchor: U32)
      modifies this
      ensures St() == C.SetAnchor(old(St()), obj, anchor)
    {
      if obj in layers {
        Rearrange(obj, layers[obj].(anchor := anchor));
      }
    }

    method SetExclusive(obj: Obj, zone: I32)
      modifies this
      ensures St() == C.SetExclusive(old(St()), obj, zone)
    {
      if obj in layers {
        Rearrange(obj, layers[obj].(exclusive := zone));
      }
    }

    method DropLayer(obj: Obj)
      requires obj in layers
      modifies this
      ensures var rec := old(layers)[obj];
              St() == old(St()).(layers := old(layers) - {obj},
                                 surfaceLayer := old(surfaceLayer) - {rec.surface},
                                 windowSurface := old(windowSurface) - {rec.win},
                                 posted := old(posted) + Closing(rec.created, rec.win))
    {
      var rec := layers[obj];
      layers := layers - {obj};
      surfaceLayer := surfaceLayer - {rec.surface};
      windowSurface := windowSurface - {rec.win};
      if rec.created { posted := posted + [Destroy(rec.win)]; }
    }

    method ReapLayer(obj: Obj)
      modifies this
      ensures St() == C.ReapLayer(old(St()), obj)
    {
      if obj in layers { DropLayer(obj); }
      RecomputeReserved();
    }

    // ---- subsurfaces -----------------------------------------------------

    method GetSub(obj: Obj, sid: Surface, parent: Surface)
      modifies this
      ensures St() == C.GetSub(old(St()), obj, sid, parent)
    {
      if sid != parent {
        subs := subs[obj := Sub(sid, parent, 0, 0, nextWin)];
        surfaceSub := surfaceSub[sid := obj];
        nextWin := nextWin + 1;
      }
    }

    method SetPosition(obj: Obj, x: I32, y: I32)
      modifies this
      ensures St() == C.SetPosition(old(St()), obj, x, y)
    {
      if obj in subs { subs := subs[obj := subs[obj].(x := x, y := y)]; }
    }

    /** Walks up the parents, remembering every surface passed. */
    method ResolveSubsurface(sid: Surface) returns (r: Option<(Win, I32, I32, Win)>)
      ensures r == Resolve(St(), sid)
    {
      if sid !in surfaceSub || surfaceSub[sid] !in subs { return None; }
      var subId := subs[surfaceSub[sid]].subId;
      var ox: I32, oy: I32 := 0, 0;
      var cur, seen := sid, {};
      while true
        invariant Link(St(), sid).Some? && Link(St(), sid).value.subId == subId
        invariant Walk(St(), sid, 0, 0, {}) == Walk(St(), cur, ox, oy, seen)
        decreases surfaceSub.Keys - seen
      {
        if cur in seen { return None; }
        if cur !in surfaceSub || surfaceSub[cur] !in subs { return None; }
        var rec := subs[surfaceSub[cur]];
        seen := seen + {cur};
        ox := WrapI32(ox + rec.x);
        oy := WrapI32(oy + rec.y);
        var w := WindowForSurface(rec.parent);
        if w.Some? { return Some((w.value, ox, oy, subId)); }
        cur := rec.parent;
      }
    }

    method ReapSub(obj: Obj)
      modifies this
      ensures St() == C.ReapSub(old(St()), obj)
    {
      if obj in subs {
        var rec := subs[obj];
        var at := ResolveSubsurface(rec.surface);
        DropSub(obj, at);
      }
    }

    method DropSub(obj: Obj, at: Option<(Win, I32, I32, Win)>)
      requires obj in subs
      modifies this
      ensures var rec := old(subs)[obj];
              St() == old(St()).(subs := old(subs) - {obj}, surfaceSub := old(surfaceSub) - {rec.surface},
                                 posted := old(posted) + Removal(at, rec.subId))
    {
      var rec := subs[obj];
      subs := subs - {obj};
      surfaceSub := surfaceSub - {rec.surface};
      if at.Some? { posted := posted + [SubDestroy(at.value.0, rec.subId)]; }
      assert posted == old(posted) + Removal(at, rec.subId);
    }

    method PresentSub(sid: Surface, buffer: Buffer)
      modifies this
      ensures St() == C.PresentSub(old(St()), sid, buffer)
    {
      var at := ResolveSubsurface(sid);
      if at.Some? && buffer.readable { posted := posted + [SubFrame(at.value.0, at.value.3, at.value.1, at.value.2)]; }
    }

    // ---- surfaces --------------------------------------------------------

    method CreateSurface(sid: Surface)
      modifies this
      ensures St() == old(St()).(surfaces := old(surfaces)[sid := SurfaceRec(None, false)])
    {
      surfaces := surfaces[sid := SurfaceRec(None, false)];
    }

    method Attach(sid: Surface, buffer: Option<Buffer>)
      modifies this
      ensures St() == C.Attach(old(St()), sid, buffer)
    {
      if sid in surfaces { surfaces := surfaces[sid := SurfaceRec(buffer, true)]; }
    }

    method Configure(sid: Surface)
      modifies this`toplevels, this`popups, this`layers
      ensures St() == C.Configure(old(St()), sid)
    {
      ConfigureRecords(sid);
      Assembled(St(), C.Configure(old(St()), sid));
    }

    method ConfigureRecords(sid: Surface)
      modifies this`toplevels, this`popups, this`layers
      ensures toplevels == ConfiguredToplevels(old(toplevels), surfaceToplevel, sid)
      ensures popups == ConfiguredPopups(old(popups), surfacePopup, sid)
      ensures layers == ConfiguredLayers(old(layers), surfaceLayer, sid)
    {
      ConfigureToplevel(sid);
      ConfigurePopup(sid);
      ConfigureLayer(sid);
    }

    method ConfigureToplevel(sid: Surface)
      modifies this`toplevels
      ensures toplevels == ConfiguredToplevels(old(toplevels), surfaceToplevel, sid)
    {
      if sid in surfaceToplevel && surfaceToplevel[sid] in toplevels {
        var obj := surfaceToplevel[sid];
        toplevels := toplevels[obj := toplevels[obj].(configured := true)];
      }
    }

    method ConfigurePopup(sid: Surface)
      modifies this`popups
      ensures popups == ConfiguredPopups(old(popups), surfacePopup, sid)
    {
      if sid in surfacePopup && surfacePopup[sid] in popups {
        var obj := surfacePopup[sid];
        popups := popups[obj := popups[obj].(configured := true)];
      }
    }

    method ConfigureLayer(sid: Surface)
      modifies this`layers
      ensures layers == ConfiguredLayers(old(layers), surfaceLayer, sid)
    {
      if sid in surfaceLayer && surfaceLayer[sid] in layers {
        var obj := surfaceLayer[sid];
        layers := layers[obj := layers[obj].(configured := true)];
      }
    }

    method PresentLayer(obj: Obj)
      modifies this
      ensures St() == C.PresentLayer(old(St()), obj)
    {
      if obj in layers {
        var rec := layers[obj];
        if !rec.created {
          posted := posted + [CreateLayer(rec.win)];
          layers := layers[obj := rec.(created := true)];
        }
        posted := posted + [Frame(rec.win)];
      }
    }

    method PresentToplevel(obj: Obj)
      modifies this
      ensures St() == C.PresentToplevel(old(St()), obj)
    {
      if obj in toplevels {
        var rec := toplevels[obj];
        if !rec.created {
          posted := posted + [Create(rec.win)];
          toplevels := toplevels[obj := rec.(created := true)];
        }
        posted := posted + [Frame(rec.win)];
      }
    }

    method PresentPopup(obj: Obj)
      modifies this
      ensures St() == C.PresentPopup(old(St()), obj)
    {
      if obj in popups {
        var rec := popups[obj];
        if !rec.created {
          posted := posted + [CreatePopup(rec.win, rec.parent)];
          popups := popups[obj := rec.(created := true)];
        }
        posted := posted + [Frame(rec.win)];
      }
    }

    method Unmap(sid: Surface)
      modifies this
      ensures St() == C.Unmap(old(St()), sid)
    {
      if sid in surfacePopup && surfacePopup[sid] in popups && popups[surfacePopup[sid]].created {
        var obj := surfacePopup[sid];
        popups := popups[obj := popups[obj].(created := false)];
        posted := posted + [Destroy(popups[obj].win)];
      }
    }

    method ShowBuffer(sid: Surface, buffer: Buffer)
      modifies this
      ensures St() == C.ShowBuffer(old(St()), sid, buffer)
    {
      if cursor == Some(sid) {
        if buffer.readable { posted := posted + [SetCursorImage]; }
      } else if sid in surfaceSub {
        PresentSub(sid, buffer);
      } else if !buffer.readable {
      } else if sid in surfaceLayer {
        PresentLayer(surfaceLayer[sid]);
      } else if sid in surfaceToplevel {
        PresentToplevel(surfaceToplevel[sid]);
      } else if sid in surfacePopup {
        PresentPopup(surfacePopup[sid]);
      }
    }

    method Commit(sid: Surface)
      modifies this
      ensures St() == C.Commit(old(St()), sid)
    {
      var staged := SurfaceRec(None, false);
      if sid in surfaces {
        staged := surfaces[sid];
        surfaces := surfaces[sid := SurfaceRec(None, false)];
      }
      Configure(sid);
      if staged.pending.Some? {
        ShowBuffer(sid, staged.pending.value);
      } else if staged.attached {
        Unmap(sid);
      }
    }

    method LoseToplevel(sid: Surface)
      modifies this
      ensures St() == C.LoseToplevel(old(St()), sid)
    {
      if sid in surfaceToplevel {
        var obj := surfaceToplevel[sid];
        surfaceToplevel := surfaceToplevel - {sid};
        if obj in toplevels {
          var rec := toplevels[obj];
          toplevels := toplevels - {obj};
          if rec.created { posted := posted + [Destroy(rec.win)]; }
          assert posted == old(posted) + Closing(rec.created, rec.win);
        } else {
          assert toplevels - {obj} == toplevels && posted + [] == posted;
        }
      }
    }

    method DestroySurface(sid: Surface)
      modifies this
      ensures St() == C.DestroySurface(old(St()), sid)
    {
      LoseToplevel(sid);
      if sid in surfaceSub { ReapSub(surfaceSub[sid]); }
      if sid in surfaceLayer { ReapLayer(surfaceLayer[sid]); }
      if cursor == Some(sid) { cursor := None; }
      surfaces := surfaces - {sid};
    }

    method SetCursor(surface: Option<Surface>)
      modifies this
      ensures St() == C.SetCursor(old(St()), surface)
    {
      cursor := surface;
      if surface.None? {
        posted := posted + [HideCursor];
      } else if surface.value in surfaces && surfaces[surface.value].pending.Some? {
        var rec := surfaces[surface.value];
        surfaces := surfaces[surface.value := rec.(pending := None)];
        if rec.pending.value.readable { posted := posted + [SetCursorImage]; }
      }
      assert posted == old(posted) + CursorCommands(old(St()), surface);
    }

    // ---- the pointer -----------------------------------------------------

    /** One message to each pointer of the surface's client, in the order they were bound. */
    method SendEach(kind: Kind, sid: Surface, win: Win)
      modifies this`sent
      ensures sent == old(sent) + ToSurface(old(St()), kind, sid, win)
    {
      ghost var goal := sent + ToSurface(St(), kind, sid, win);
      var i := 0;
      assert pointers[0..] == pointers;
      while i < |pointers|
        invariant i <= |pointers|
        invariant sent + Messages(kind, PointersFor(pointers[i..], sid.client), sid, win) == goal
      {
        NextMessage(kind, pointers[i..], sid, win);
        assert pointers[i..][1..] == pointers[i + 1..];
        ghost var first := if pointers[i].client == sid.client then [Message(kind, pointers[i], sid, win)] else [];
        ConcatAssoc(sent, first, Messages(kind, PointersFor(pointers[i + 1..], sid.client), sid, win));
        assert sent + [] == sent;
        if pointers[i].client == sid.client { sent := sent + [Message(kind, pointers[i], sid, win)]; }
        i := i + 1;
      }
      assert sent + [] == sent;
    }

    method EnsureFocus(win: Win) returns (surface: Option<Surface>)
      modifies this
      ensures St() == C.EnsureFocus(old(St()), win)
      ensures surface == if win in windowSurface then Some(windowSurface[win]) else None
    {
      if win !in windowSurface { return None; }
      surface := Some(windowSurface[win]);
      if focus == Some(win) { return; }
      if focus.Some? && focus.value in windowSurface { SendEach(KLeave, windowSurface[focus.value], focus.value); }
      SendEach(KEnter, surface.value, win);
      focus := Some(win);
    }

    method OnMotion(win: Win)
      modifies this
      ensures St() == C.OnMotion(old(St()), win)
    {
      var surface := EnsureFocus(win);
      if surface.Some? { SendEach(KMotion, surface.value, win); }
    }

    method OnButton(win: Win)
      modifies this
      ensures St() == C.OnButton(old(St()), win)
    {
      if win !in windowSurface { return; }
      var surface := EnsureFocus(win);
      SendEach(KButton, surface.value, win);
    }

    method OnLeave(win: Win)
      modifies this
      ensures St() == C.OnLeave(old(St()), win)
    {
      if focus != Some(win) || win !in windowSurface { return; }
      SendEach(KLeave, windowSurface[win], win);
      focus := None;
    }
  }
}
