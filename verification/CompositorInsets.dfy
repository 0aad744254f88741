/** The published insets agree with the docked bars in every reachable state. */
module CompositorInsets {
  import opened Prelude
  import opened Compositor
  import opened CompositorRun

  function At(insets: Insets, edge: Edge): int {
    match edge case Top => insets.top case Right => insets.right case Bottom => insets.bottom case Left => insets.left
  }

  /** Each inset is the largest zone reserved at its edge, whatever order the bars come in. */
  ghost predicate Coherent(s: State) {
    forall edge :: IsReserved(s.layers, edge, At(s.insets, edge))
  }

  /** The zone a bar reserves at an edge, 0 when none. */
  function Zone(layers: map<Obj, Layer>, o: Obj, edge: Edge): int {
    if o in layers && Reserves(layers[o], edge) then layers[o].exclusive else 0
  }

  /** Layer maps that reserve the same zones have the same insets. */
  lemma SameZones(layers: map<Obj, Layer>, layers': map<Obj, Layer>, edge: Edge, z: int)
    requires IsReserved(layers, edge, z) && forall o :: Zone(layers', o, edge) == Zone(layers, o, edge)
    ensures IsReserved(layers', edge, z)
  {
    forall o | o in layers' && Reserves(layers'[o], edge) ensures layers'[o].exclusive <= z {
      assert Zone(layers, o, edge) == Zone(layers', o, edge);
    }
    if z > 0 {
      var o :| o in layers && Reserves(layers[o], edge) && layers[o].exclusive == z;
      assert Zone(layers', o, edge) == Zone(layers, o, edge) == z;
    }
  }

  lemma CoherentStays(s: State, s': State)
    requires Coherent(s) && s'.insets == s.insets
    requires forall edge, o :: Zone(s'.layers, o, edge) == Zone(s.layers, o, edge)
    ensures Coherent(s')
  {
    forall edge { SameZones(s.layers, s'.layers, edge, At(s.insets, edge)); }
  }

  lemma Recomputed(s: State)
    requires s.insets == Reserved(s.layers)
    ensures Coherent(s)
  {
  }

  predicate SameBars(s: State, s': State) {
    s'.layers == s.layers && s'.insets == s.insets
  }

  lemma ConfigureCoherent(s: State, sid: Surface)
    requires Coherent(s)
    ensures Coherent(Configure(s, sid))
  {
    CoherentStays(s, Configure(s, sid));
  }

  lemma PresentLayerCoherent(s: State, obj: Obj)
    requires Coherent(s)
    ensures Coherent(PresentLayer(s, obj))
  {
    CoherentStays(s, PresentLayer(s, obj));
  }

  lemma PresentToplevelBars(s: State, obj: Obj)
    ensures SameBars(s, PresentToplevel(s, obj))
  {
  }

  lemma PresentPopupBars(s: State, obj: Obj)
    ensures SameBars(s, PresentPopup(s, obj))
  {
  }

  lemma ShowOther(s: State, sid: Surface, buffer: Buffer)
    requires s.cursor == Some(sid) || sid in s.surfaceSub || sid !in s.surfaceLayer
    ensures SameBars(s, ShowBuffer(s, sid, buffer))
  {
    if s.cursor == Some(sid) || sid in s.surfaceSub {
    } else if sid in s.surfaceToplevel {
      PresentToplevelBars(s, s.surfaceToplevel[sid]);
    } else if sid in s.surfacePopup {
      PresentPopupBars(s, s.surfacePopup[sid]);
    }
  }

  lemma LoseToplevelBars(s: State, sid: Surface)
    ensures SameBars(s, LoseToplevel(s, sid))
  {
  }

  lemma LoseSubBars(s: State, sid: Surface)
    ensures SameBars(s, LoseSub(s, sid))
  {
  }

  lemma ForgetBars(s: State, sid: Surface)
    ensures SameBars(s, Forget(s, sid))
  {
  }

  lemma SameCoherent(s: State, s': State)
    requires Coherent(s) && SameBars(s, s')
    ensures Coherent(s')
  {
  }

  lemma CommitCoherent(s: State, sid: Surface)
    requires Coherent(s)
    ensures Coherent(Commit(s, sid))
  {
    var s0 := s.(surfaces := Unstaged(s.surfaces, sid));
    var s1 := Configure(s0, sid);
    ConfigureCoherent(s0, sid);
    var staged := Staged(s, sid);
    if staged.pending.Some? {
      if s1.cursor == Some(sid) || sid in s1.surfaceSub || sid !in s1.surfaceLayer {
        ShowOther(s1, sid, staged.pending.value);
      } else {
        PresentLayerCoherent(s1, s1.surfaceLayer[sid]);
      }
    }
  }

  lemma LayerMadeCoherent(s: State, obj: Obj, sid: Surface)
    requires Coherent(s) && obj !in s.layers
    ensures Coherent(GetLayer(s, obj, sid))
  {
    CoherentStays(s, GetLayer(s, obj, sid));
  }

  lemma ReapLayerPublishes(s: State, obj: Obj)
    ensures ReapLayer(s, obj).insets == Reserved(ReapLayer(s, obj).layers)
  {
    if obj in s.layers {
      assert ReapLayer(s, obj).layers == s.layers - {obj};
    }
  }

  lemma ReapLayerCoherent(s: State, obj: Obj)
    ensures Coherent(ReapLayer(s, obj))
  {
    ReapLayerPublishes(s, obj);
    Recomputed(ReapLayer(s, obj));
  }

  lemma LoseLayerCoherent(s: State, sid: Surface)
    requires Coherent(s)
    ensures Coherent(LoseLayer(s, sid))
  {
    if sid in s.surfaceLayer { ReapLayerCoherent(s, s.surfaceLayer[sid]); }
  }

  lemma DestroyCoherent(s: State, sid: Surface)
    requires Coherent(s)
    ensures Coherent(DestroySurface(s, sid))
  {
    var s1 := LoseToplevel(s, sid);
    var s2 := LoseSub(s1, sid);
    LoseToplevelBars(s, sid);
    LoseSubBars(s1, sid);
    SameCoherent(s, s2);
    LoseLayerCoherent(s2, sid);
    ForgetBars(LoseLayer(s2, sid), sid);
    SameCoherent(LoseLayer(s2, sid), DestroySurface(s, sid));
  }

  lemma ReapToplevelBars(s: State, obj: Obj)
    ensures SameBars(s, ReapToplevel(s, obj))
  {
  }

  lemma ReapPopupBars(s: State, obj: Obj)
    ensures SameBars(s, ReapPopup(s, obj))
  {
  }

  lemma ReapSubBars(s: State, obj: Obj)
    ensures SameBars(s, ReapSub(s, obj))
  {
  }

  lemma ReactBars(s: State, i: Input)
    ensures SameBars(s, React(s, i))
  {
    ReactOnly(s, i);
  }

  lemma CursorBars(s: State, surface: Option<Surface>)
    ensures SameBars(s, SetCursor(s, surface))
  {
  }

  lemma AttachBars(s: State, sid: Surface, buffer: Option<Buffer>)
    ensures SameBars(s, Attach(s, sid, buffer))
  {
  }

  lemma SubMadeBars(s: State, obj: Obj, sid: Surface, above: Surface)
    ensures SameBars(s, GetSub(s, obj, sid, above))
  {
  }

  lemma SubMovedBars(s: State, obj: Obj, x: I32, y: I32)
    ensures SameBars(s, SetPosition(s, obj, x, y))
  {
  }

  lemma ToplevelMadeBars(s: State, obj: Obj, sid: Surface)
    ensures SameBars(s, GetToplevel(s, obj, sid))
  {
  }

  lemma PopupMadeBars(s: State, obj: Obj, sid: Surface, parent: Option<Surface>)
    ensures SameBars(s, GetPopup(s, obj, sid, parent))
  {
  }

  lemma GrabBars(s: State, obj: Obj)
    ensures SameBars(s, Grab(s, obj))
  {
  }

  /** Requests of toplevels and popups leave the bars and the insets alone. */
  lemma ShellBars(s: State, e: Event)
    requires IsShell(e)
    ensures SameBars(s, ShellStep(s, e))
  {
    match e {
      case ToplevelMade(obj, sid) => ToplevelMadeBars(s, obj, sid);
      case ToplevelGone(obj) => ReapToplevelBars(s, obj);
      case PopupMade(obj, sid, parent) => PopupMadeBars(s, obj, sid, parent);
      case PopupGrab(obj) => GrabBars(s, obj);
      case PopupGone(obj) => ReapPopupBars(s, obj);
    }
  }

  /** So do those of surfaces, subsurfaces and the cursor. */
  lemma SideBars(s: State, e: Event)
    requires IsSide(e)
    ensures SameBars(s, SideStep(s, e))
  {
    match e {
      case CreateSurface(sid) => assert SameBars(s, AddSurface(s, sid));
      case AttachBuffer(sid, buffer) => AttachBars(s, sid, buffer);
      case SubMade(obj, sid, above) => SubMadeBars(s, obj, sid, above);
      case SubMoved(obj, x, y) => SubMovedBars(s, obj, x, y);
      case SubGone(obj) => ReapSubBars(s, obj);
      case CursorSet(surface) => CursorBars(s, surface);
    }
  }

  lemma BarCoherent(s: State, e: Event)
    requires Coherent(s) && FreshId(s, e) && IsBar(e)
    ensures Coherent(BarStep(s, e))
  {
    match e {
      case LayerMade(obj, sid) => LayerMadeCoherent(s, obj, sid);
      case LayerAnchor(obj, anchor) => AnchorCoherent(s, obj, anchor);
      case LayerExclusive(obj, zone) => ExclusiveCoherent(s, obj, zone);
      case LayerGone(obj) => ReapLayerCoherent(s, obj);
    }
  }

  lemma AnchorCoherent(s: State, obj: Obj, anchor: U32)
    requires Coherent(s)
    ensures Coherent(SetAnchor(s, obj, anchor))
  {
    if obj in s.layers { Recomputed(SetAnchor(s, obj, anchor)); }
  }

  lemma ExclusiveCoherent(s: State, obj: Obj, zone: I32)
    requires Coherent(s)
    ensures Coherent(SetExclusive(s, obj, zone))
  {
    if obj in s.layers { Recomputed(SetExclusive(s, obj, zone)); }
  }

  lemma StepCoherent(s: State, e: Event)
    requires Coherent(s) && FreshId(s, e)
    ensures Coherent(Step(s, e))
  {
    if IsShell(e) {
      ShellBars(s, e);
      SameCoherent(s, ShellStep(s, e));
    } else if IsBar(e) {
      BarCoherent(s, e);
    } else if IsSide(e) {
      SideBars(s, e);
      SameCoherent(s, SideStep(s, e));
    } else {
      match e {
        case CommitSurface(sid) => CommitCoherent(s, sid);
        case SurfaceDestroyed(sid) => DestroyCoherent(s, sid);
        case Pointing(input) => ReactBars(s, input); SameCoherent(s, React(s, input));
      }
    }
  }

  /** In every reachable state each published inset is the largest positive exclusive zone
      of the bars anchored to that edge and not to the opposite one, and 0 without any. */
  lemma {:induction false} InsetsCoherent(pointers: seq<Pointer>, events: seq<Event>)
    requires FreshIds(pointers, events)
    ensures Coherent(Run(pointers, events))
  {
    if |events| > 0 {
      FreshInit(pointers, events);
      InsetsCoherent(pointers, events[..|events| - 1]);
      StepCoherent(Run(pointers, events[..|events| - 1]), events[|events| - 1]);
    }
  }
}
