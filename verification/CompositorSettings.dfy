/** What clients set stays set: on every run the anchors and zones of docked bars, the
    positions of subsurfaces and the cursor are those last requested, and the published insets
    follow from them. */
module CompositorSettings {
  import opened Prelude
  import opened Compositor
  import opened CompositorRun
  import opened CompositorLifecycle
  import K = CompositorCommit
  import I = CompositorInsets
  import F = CompositorFrames
  import N = CompositorRecords

  // ---- docked bars -------------------------------------------------------

  /** A bar's anchor bits and exclusive zone. */
  datatype Dock = Dock(anchor: U32, zone: I32)

  /** Those last requested since the bar was made; none at first. */
  function DockOf(events: seq<Event>, obj: Obj): Dock {
    if |events| == 0 then Dock(0, 0) else Docked(DockOf(events[..|events| - 1], obj), events[|events| - 1], obj)
  }

  function Docked(before: Dock, e: Event, obj: Obj): Dock {
    match e
    case LayerMade(o, _) => if o == obj then Dock(0, 0) else before
    case LayerAnchor(o, anchor) => if o == obj then before.(anchor := anchor) else before
    case LayerExclusive(o, zone) => if o == obj then before.(zone := zone) else before
    case _ => before
  }

  predicate Docks(s: State, obj: Obj, d: Dock) {
    obj in s.layers ==> s.layers[obj].anchor == d.anchor && s.layers[obj].exclusive == d.zone
  }

  lemma ReapLayerDocks(s: State, obj: Obj, o: Obj, d: Dock)
    requires Docks(s, o, d)
    ensures Docks(ReapLayer(s, obj), o, d)
  {
    if obj !in s.layers { assert ReapLayer(s, obj) == s.(insets := Reserved(s.layers)); }
  }

  lemma BarDocks(s: State, e: Event, o: Obj, d: Dock)
    requires IsBar(e) && Docks(s, o, d)
    ensures Docks(BarStep(s, e), o, Docked(d, e, o))
  {
    match e {
      case LayerMade(obj, sid) =>
      case LayerAnchor(obj, anchor) => AnchorDocks(s, obj, anchor, o, d);
      case LayerExclusive(obj, zone) => ExclusiveDocks(s, obj, zone, o, d);
      case LayerGone(obj) => ReapLayerDocks(s, obj, o, d);
    }
  }

  lemma AnchorDocks(s: State, obj: Obj, anchor: U32, o: Obj, d: Dock)
    requires Docks(s, o, d)
    ensures Docks(SetAnchor(s, obj, anchor), o, if o == obj then d.(anchor := anchor) else d)
  {
    if obj in s.layers { assert SetAnchor(s, obj, anchor).layers == s.layers[obj := s.layers[obj].(anchor := anchor)]; }
  }

  lemma ExclusiveDocks(s: State, obj: Obj, zone: I32, o: Obj, d: Dock)
    requires Docks(s, o, d)
    ensures Docks(SetExclusive(s, obj, zone), o, if o == obj then d.(zone := zone) else d)
  {
    if obj in s.layers { assert SetExclusive(s, obj, zone).layers == s.layers[obj := s.layers[obj].(exclusive := zone)]; }
  }

  lemma PresentLayerDocks(s: State, obj: Obj, o: Obj, d: Dock)
    requires Docks(s, o, d)
    ensures Docks(PresentLayer(s, obj), o, d)
  {
  }

  lemma CommitDocks(s: State, sid: Surface, o: Obj, d: Dock)
    requires Docks(s, o, d)
    ensures Docks(Commit(s, sid), o, d)
  {
    var taken, staged := K.Taken(s, sid), Staged(s, sid);
    assert Docks(taken, o, d);
    if staged.pending.Some? {
      if taken.cursor == Some(sid) || sid in taken.surfaceSub || sid !in taken.surfaceLayer {
        I.ShowOther(taken, sid, staged.pending.value);
      } else {
        PresentLayerDocks(taken, taken.surfaceLayer[sid], o, d);
      }
    }
  }

  lemma DestroyDocks(s: State, sid: Surface, o: Obj, d: Dock)
    requires Docks(s, o, d)
    ensures Docks(DestroySurface(s, sid), o, d)
  {
    var s1 := LoseToplevel(s, sid);
    var s2 := LoseSub(s1, sid);
    I.LoseToplevelBars(s, sid);
    I.LoseSubBars(s1, sid);
    if sid in s2.surfaceLayer { ReapLayerDocks(s2, s2.surfaceLayer[sid], o, d); }
    I.ForgetBars(LoseLayer(s2, sid), sid);
  }

  lemma StepDocks(s: State, e: Event, o: Obj, d: Dock)
    requires Docks(s, o, d)
    ensures Docks(Step(s, e), o, Docked(d, e, o))
  {
    if IsShell(e) {
      I.ShellBars(s, e);
    } else if IsBar(e) {
      BarDocks(s, e, o, d);
    } else if IsSide(e) {
      I.SideBars(s, e);
    } else {
      match e {
        case CommitSurface(sid) => CommitDocks(s, sid, o, d);
        case SurfaceDestroyed(sid) => DestroyDocks(s, sid, o, d);
        case Pointing(input) => I.ReactBars(s, input);
      }
    }
  }

  lemma {:induction false} DocksOfRun(pointers: seq<Pointer>, events: seq<Event>, obj: Obj)
    ensures Docks(Run(pointers, events), obj, DockOf(events, obj))
  {
    if |events| > 0 {
      var init := events[..|events| - 1];
      DocksOfRun(pointers, init, obj);
      StepDocks(Run(pointers, init), events[|events| - 1], obj, DockOf(init, obj));
    }
  }

  /** The bar reserves space: anchored by the near bit and not by the far one. */
  predicate Reserving(d: Dock, near: U32, far: U32)
    requires near > 0 && far > 0
  {
    d.zone > 0 && d.anchor / near % 2 == 1 && d.anchor / far % 2 == 0
  }

  /** The largest zone reserved by the bars there are, 0 when there is none. */
  ghost predicate Largest(s: State, events: seq<Event>, near: U32, far: U32, z: int)
    requires near > 0 && far > 0
  {
    && z >= 0
    && (forall o :: o in s.layers && Reserving(DockOf(events, o), near, far) ==> DockOf(events, o).zone <= z)
    && (z > 0 ==> exists o :: o in s.layers && Reserving(DockOf(events, o), near, far) && DockOf(events, o).zone == z)
  }

  lemma ReservedLargest(pointers: seq<Pointer>, events: seq<Event>, edge: Edge, z: int)
    requires IsReserved(Run(pointers, events).layers, edge, z)
    ensures Largest(Run(pointers, events), events, EdgeBit(edge), EdgeBit(Opposite(edge)), z)
  {
    var s := Run(pointers, events);
    forall o | o in s.layers
      ensures Reserves(s.layers[o], edge) <==> Reserving(DockOf(events, o), EdgeBit(edge), EdgeBit(Opposite(edge)))
      ensures s.layers[o].exclusive == DockOf(events, o).zone
    {
      DocksOfRun(pointers, events, o);
    }
  }

  /** On every run each published inset is the largest zone last requested by a bar anchored to
      that edge and not to the opposite one: bit 0 is the top, 1 the bottom, 2 the left and 3
      the right. */
  lemma InsetsOfRequests(pointers: seq<Pointer>, events: seq<Event>)
    requires FreshIds(pointers, events)
    ensures var s := Run(pointers, events);
            && Largest(s, events, 1, 2, s.insets.top) && Largest(s, events, 2, 1, s.insets.bottom)
            && Largest(s, events, 4, 8, s.insets.left) && Largest(s, events, 8, 4, s.insets.right)
  {
    var insets := Run(pointers, events).insets;
    I.InsetsCoherent(pointers, events);
    forall edge { ReservedLargest(pointers, events, edge, I.At(insets, edge)); }
    assert Largest(Run(pointers, events), events, EdgeBit(Top), EdgeBit(Bottom), I.At(insets, Top));
    assert Largest(Run(pointers, events), events, EdgeBit(Bottom), EdgeBit(Top), I.At(insets, Bottom));
    assert Largest(Run(pointers, events), events, EdgeBit(Left), EdgeBit(Right), I.At(insets, Left));
    assert Largest(Run(pointers, events), events, EdgeBit(Right), EdgeBit(Left), I.At(insets, Right));
  }

  // ---- the cursor --------------------------------------------------------

  /** The surface last made the cursor, unless it was destroyed since. */
  function CursorOf(events: seq<Event>): Option<Surface> {
    if |events| == 0 then None
    else
      var before := CursorOf(events[..|events| - 1]);
      match events[|events| - 1]
      case CursorSet(surface) => surface
      case SurfaceDestroyed(sid) => if before == Some(sid) then None else before
      case _ => before
  }

  lemma SideCursor(s: State, e: Event)
    requires IsSide(e)
    ensures SideStep(s, e).cursor == if e.CursorSet? then e.surface else s.cursor
  {
    match e {
      case CreateSurface(sid) =>
      case AttachBuffer(sid, buffer) => F.AttachOnly(s, sid, buffer);
      case SubMade(obj, sid, above) => F.GetSubOnly(s, obj, sid, above);
      case SubMoved(obj, x, y) => F.SetPositionOnly(s, obj, x, y);
      case SubGone(obj) => F.ReapSubOnly(s, obj);
      case CursorSet(surface) =>
    }
  }

  lemma {:induction false} CursorOfRun(pointers: seq<Pointer>, events: seq<Event>)
    ensures Run(pointers, events).cursor == CursorOf(events)
  {
    if |events| > 0 {
      var s, e := Run(pointers, events[..|events| - 1]), events[|events| - 1];
      CursorOfRun(pointers, events[..|events| - 1]);
      if IsShell(e) {
        F.ShellOnly(s, e);
      } else if IsBar(e) {
        F.BarOnly(s, e);
      } else if IsSide(e) {
        SideCursor(s, e);
      } else {
        match e {
          case CommitSurface(sid) => F.CommitOnly(s, sid);
          case SurfaceDestroyed(sid) => F.DestroyOnly(s, sid);
          case Pointing(input) => ReactOnly(s, input);
        }
      }
    }
  }

  // ---- subsurfaces -------------------------------------------------------

  /** The position last requested since the subsurface was made; the origin at first. */
  function PlaceOf(events: seq<Event>, obj: Obj): (I32, I32) {
    if |events| == 0 then (0, 0)
    else
      match events[|events| - 1]
      case SubMade(o, sid, above) => if o == obj && sid != above then (0, 0) else PlaceOf(events[..|events| - 1], obj)
      case SubMoved(o, x, y) => if o == obj then (x, y) else PlaceOf(events[..|events| - 1], obj)
      case _ => PlaceOf(events[..|events| - 1], obj)
  }

  /** The subsurface is as the request that made it says, with the id then due. */
  predicate SubMadeAt(events: seq<Event>, n: nat, obj: Obj, sub: Sub) {
    n < |events| && events[n] == SubMade(obj, sub.surface, sub.parent) && sub.surface != sub.parent && sub.subId == N.NextId(events[..n])
  }

  ghost predicate SubRight(events: seq<Event>, obj: Obj, sub: Sub) {
    (exists n: nat :: SubMadeAt(events, n, obj, sub)) && (sub.x, sub.y) == PlaceOf(events, obj)
  }

  function SubAt(s: State, obj: Obj): Option<Sub> { if obj in s.subs then Some(s.subs[obj]) else None }

  /** A subsurface that is there was just made, at the origin, or was there before and may
      have been moved. */
  predicate SubFollows(was: Option<Sub>, now: Option<Sub>, e: Event, obj: Obj, id: Win) {
    now.Some? ==>
      if e.SubMade? && e.obj == obj && e.sid != e.above then now.value == Sub(e.sid, e.above, 0, 0, id)
      else was.Some? && now.value == if e.SubMoved? && e.obj == obj then was.value.(x := e.x, y := e.y) else was.value
  }

  /** Any other request leaves the subsurfaces alone or removes some. */
  lemma FewerFollow(s: State, s': State, e: Event, obj: Obj)
    requires !e.SubMade? && !e.SubMoved?
    requires SubAt(s', obj).Some? ==> SubAt(s', obj) == SubAt(s, obj)
    ensures SubFollows(SubAt(s, obj), SubAt(s', obj), e, obj, s.nextWin)
  {
  }

  lemma ShellFollows(s: State, e: Event, obj: Obj)
    requires IsShell(e)
    ensures SubFollows(SubAt(s, obj), SubAt(ShellStep(s, e), obj), e, obj, s.nextWin)
  {
    F.ShellOnly(s, e);
  }

  lemma BarFollows(s: State, e: Event, obj: Obj)
    requires IsBar(e)
    ensures SubFollows(SubAt(s, obj), SubAt(BarStep(s, e), obj), e, obj, s.nextWin)
  {
    F.BarOnly(s, e);
  }

  lemma SideFollows(s: State, e: Event, obj: Obj)
    requires IsSide(e)
    ensures SubFollows(SubAt(s, obj), SubAt(SideStep(s, e), obj), e, obj, s.nextWin)
  {
    match e {
      case CreateSurface(sid) =>
      case AttachBuffer(sid, buffer) => F.AttachOnly(s, sid, buffer);
      case SubMade(o, sid, above) => GetSubSubs(s, o, sid, above);
      case SubMoved(o, x, y) => SetPositionSubs(s, o, x, y);
      case SubGone(o) => if o in s.subs { ReapSubIndex(s, o); }
      case CursorSet(surface) => F.SetCursorOnly(s, surface);
    }
  }

  /** What a step does to a subsurface. */
  lemma StepFollows(s: State, e: Event, obj: Obj)
    ensures SubFollows(SubAt(s, obj), SubAt(Step(s, e), obj), e, obj, s.nextWin)
  {
    if IsShell(e) {
      ShellFollows(s, e, obj);
    } else if IsBar(e) {
      BarFollows(s, e, obj);
    } else if IsSide(e) {
      SideFollows(s, e, obj);
    } else {
      match e {
        case CommitSurface(sid) => F.CommitOnly(s, sid); FewerFollow(s, Commit(s, sid), e, obj);
        case SurfaceDestroyed(sid) => DestroySubs(s, sid, obj); FewerFollow(s, DestroySurface(s, sid), e, obj);
        case Pointing(input) => ReactOnly(s, input); FewerFollow(s, React(s, input), e, obj);
      }
    }
  }

  lemma GetSubSubs(s: State, obj: Obj, sid: Surface, above: Surface)
    ensures GetSub(s, obj, sid, above).subs == if sid == above then s.subs else s.subs[obj := Sub(sid, above, 0, 0, s.nextWin)]
  {
  }

  lemma SetPositionSubs(s: State, obj: Obj, x: I32, y: I32)
    ensures SetPosition(s, obj, x, y).subs == if obj in s.subs then s.subs[obj := s.subs[obj].(x := x, y := y)] else s.subs
  {
  }

  lemma LoseSubSubs(s: State, sid: Surface, obj: Obj)
    ensures SubAt(LoseSub(s, sid), obj).Some? ==> SubAt(LoseSub(s, sid), obj) == SubAt(s, obj)
  {
    if sid in s.surfaceSub && s.surfaceSub[sid] in s.subs { ReapSubIndex(s, s.surfaceSub[sid]); }
  }

  lemma DestroySubs(s: State, sid: Surface, obj: Obj)
    ensures SubAt(DestroySurface(s, sid), obj).Some? ==> SubAt(DestroySurface(s, sid), obj) == SubAt(s, obj)
  {
    var s1 := LoseToplevel(s, sid);
    var s2 := LoseSub(s1, sid);
    F.LoseToplevelOnly(s, sid);
    if sid in s2.surfaceLayer { F.ReapLayerOnly(s2, s2.surfaceLayer[sid]); }
    LoseSubSubs(s1, sid, obj);
  }

  lemma SubEarlier(events: seq<Event>, obj: Obj, was: Sub, now: Sub)
    requires |events| > 0 && SubRight(events[..|events| - 1], obj, was)
    requires var e := events[|events| - 1];
             && !(e.SubMade? && e.obj == obj && e.sid != e.above)
             && now == if e.SubMoved? && e.obj == obj then was.(x := e.x, y := e.y) else was
    ensures SubRight(events, obj, now)
  {
    var init := events[..|events| - 1];
    var n: nat :| SubMadeAt(init, n, obj, was);
    assert init[..n] == events[..n];
    assert SubMadeAt(events, n, obj, now);
  }

  /** On every run each subsurface has the surface, parent and id of the request that made it
      and the position last requested for it. */
  lemma {:induction false} SubsOfRun(pointers: seq<Pointer>, events: seq<Event>, obj: Obj)
    requires SubAt(Run(pointers, events), obj).Some?
    ensures SubRight(events, obj, SubAt(Run(pointers, events), obj).value)
  {
    if |events| > 0 {
      var init, e := events[..|events| - 1], events[|events| - 1];
      var now := SubAt(Run(pointers, events), obj).value;
      StepFollows(Run(pointers, init), e, obj);
      if e.SubMade? && e.obj == obj && e.sid != e.above {
        N.IdsOfRun(pointers, init);
        assert SubMadeAt(events, |init|, obj, now);
      } else {
        SubsOfRun(pointers, init, obj);
        SubEarlier(events, obj, SubAt(Run(pointers, init), obj).value, now);
      }
    }
  }
}
