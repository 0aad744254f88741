/** Registered windows whose surface is gone: exactly then can a pointer message name a
    destroyed surface. */
module CompositorOrphans {
  import opened Prelude
  import opened Compositor
  import opened CompositorRun
  import opened CompositorRegistry
  import F = CompositorFrames

  /** The window is still registered, and its surface was destroyed. */
  predicate Orphaned(s: State, w: Win) { w in s.windowSurface && s.windowSurface[w] !in s.surfaces }

  // ---- which surfaces exist ----------------------------------------------

  /** The surface was created, and not destroyed since. */
  predicate Lives(events: seq<Event>, sid: Surface) {
    if |events| == 0 then false
    else
      match events[|events| - 1]
      case CreateSurface(x) => x == sid || Lives(events[..|events| - 1], sid)
      case SurfaceDestroyed(x) => x != sid && Lives(events[..|events| - 1], sid)
      case _ => Lives(events[..|events| - 1], sid)
  }

  lemma SideSurfaces(s: State, e: Event)
    requires IsSide(e)
    ensures SideStep(s, e).surfaces.Keys == s.surfaces.Keys + if e.CreateSurface? then {e.sid} else {}
  {
    match e {
      case CreateSurface(sid) => assert SideStep(s, e).surfaces == s.surfaces[sid := SurfaceRec(None, false)];
      case AttachBuffer(sid, buffer) => AttachSurfaces(s, sid, buffer);
      case SubMade(obj, sid, above) => F.GetSubOnly(s, obj, sid, above);
      case SubMoved(obj, x, y) => F.SetPositionOnly(s, obj, x, y);
      case SubGone(obj) => F.ReapSubOnly(s, obj);
      case CursorSet(surface) => CursorSurfaces(s, surface);
    }
  }

  lemma AttachSurfaces(s: State, sid: Surface, buffer: Option<Buffer>)
    ensures Attach(s, sid, buffer).surfaces.Keys == s.surfaces.Keys
  {
    if sid in s.surfaces { assert sid in Attach(s, sid, buffer).surfaces; }
  }

  lemma CursorSurfaces(s: State, surface: Option<Surface>)
    ensures SetCursor(s, surface).surfaces.Keys == s.surfaces.Keys
  {
  }

  /** The window of the surface's layer object, if it has one. */
  function LayerWins(s: State, sid: Surface): set<Win> {
    if sid in s.surfaceLayer && s.surfaceLayer[sid] in s.layers then {s.layers[s.surfaceLayer[sid]].win} else {}
  }

  lemma ReapLayerWindows(s: State, obj: Obj)
    ensures ReapLayer(s, obj).windowSurface ==
            if obj in s.layers then s.windowSurface - {s.layers[obj].win} else s.windowSurface
  {
  }

  lemma LoseLayerTables(s: State, sid: Surface)
    ensures LoseLayer(s, sid).windowSurface == s.windowSurface - LayerWins(s, sid)
  {
    if sid in s.surfaceLayer { ReapLayerWindows(s, s.surfaceLayer[sid]); }
    assert s.windowSurface - {} == s.windowSurface;
  }

  lemma DestroyTables(s: State, sid: Surface)
    ensures DestroySurface(s, sid).surfaces == s.surfaces - {sid}
    ensures DestroySurface(s, sid).windowSurface == s.windowSurface - LayerWins(s, sid)
  {
    var s1 := LoseToplevel(s, sid);
    var s2 := LoseSub(s1, sid);
    F.LoseToplevelOnly(s, sid);
    if sid in s1.surfaceSub { F.ReapSubOnly(s1, s1.surfaceSub[sid]); }
    LoseLayerTables(s2, sid);
    F.DestroyOnly(s, sid);
  }

  /** A request makes its surface or ends it, and does so to no other. */
  function SurfacesAfter(before: set<Surface>, e: Event): set<Surface> {
    match e
    case CreateSurface(sid) => before + {sid}
    case SurfaceDestroyed(sid) => before - {sid}
    case _ => before
  }

  lemma StepSurfaces(s: State, e: Event)
    ensures Step(s, e).surfaces.Keys == SurfacesAfter(s.surfaces.Keys, e)
  {
    if IsShell(e) {
      F.ShellOnly(s, e);
    } else if IsBar(e) {
      F.BarOnly(s, e);
    } else if IsSide(e) {
      SideSurfaces(s, e);
    } else {
      match e {
        case CommitSurface(sid) => F.CommitOnly(s, sid);
        case SurfaceDestroyed(sid) => DestroyTables(s, sid);
        case Pointing(input) => ReactOnly(s, input);
      }
    }
  }

  lemma {:induction false} SurfacesOfRun(pointers: seq<Pointer>, events: seq<Event>, sid: Surface)
    ensures sid in Run(pointers, events).surfaces <==> Lives(events, sid)
  {
    if |events| > 0 {
      var init := events[..|events| - 1];
      SurfacesOfRun(pointers, init, sid);
      StepSurfaces(Run(pointers, init), events[|events| - 1]);
    }
  }

  /** Destroying a surface orphans every window registered for it, a toplevel's or a popup's,
      except that of its layer object, which is reaped with it. */
  lemma DestroyOrphans(s: State, sid: Surface, w: Win)
    ensures Orphaned(DestroySurface(s, sid), w) <==>
            w in s.windowSurface && w !in LayerWins(s, sid) && (s.windowSurface[w] == sid || Orphaned(s, w))
  {
    DestroyTables(s, sid);
  }

  // ---- what messages name ------------------------------------------------

  /** The input makes the compositor send a message that names a destroyed surface. */
  predicate NamesDestroyed(s: State, i: Input) {
    exists k :: |s.sent| <= k < |React(s, i).sent| && React(s, i).sent[k].surface !in s.surfaces
  }

  predicate HasPointer(s: State, client: nat) {
    exists p :: p in s.pointers && p.client == client
  }

  lemma {:induction false} MessagesName(kind: Kind, ps: seq<Pointer>, sid: Surface, win: Win)
    ensures |Messages(kind, ps, sid, win)| == |ps|
    ensures forall m :: m in Messages(kind, ps, sid, win) ==> m.surface == sid
  {
    if |ps| > 0 { MessagesName(kind, ps[1..], sid, win); }
  }

  /** A batch names one registered window's surface, and goes to the pointers of its client. */
  lemma BatchNames(s: State, kind: Kind, w: Win)
    requires w in s.windowSurface
    ensures var msgs := ToSurface(s, kind, s.windowSurface[w], w);
            && (forall m :: m in msgs ==> m.surface == s.windowSurface[w])
            && (|msgs| > 0 <==> HasPointer(s, s.windowSurface[w].client))
  {
    var sid := s.windowSurface[w];
    var ps := PointersFor(s.pointers, sid.client);
    MessagesName(kind, ps, sid, w);
    if |ps| > 0 { assert ps[0] in ps && ps[0] in s.pointers; }
    if HasPointer(s, sid.client) {
      var p :| p in s.pointers && p.client == sid.client;
      assert p in ps;
    }
  }

  /** All that input can send: a leave for the focused window and, for its own window, an
      enter and a delivery. */
  predicate FromRegistered(s: State, m: Sent) {
    exists w :: w in s.windowSurface && m.surface == s.windowSurface[w] && HasPointer(s, m.surface.client)
  }

  lemma BatchRegistered(s: State, kind: Kind, w: Win, m: Sent)
    requires w in s.windowSurface && m in ToSurface(s, kind, s.windowSurface[w], w)
    ensures FromRegistered(s, m)
  {
    BatchNames(s, kind, w);
  }

  lemma LeaveRegistered(s: State, m: Sent)
    requires m in LeaveMessages(s)
    ensures FromRegistered(s, m)
  {
    BatchRegistered(s, KLeave, s.focus.value, m);
  }

  lemma EnsureRegistered(s: State, win: Win, k: nat)
    requires |s.sent| <= k < |EnsuredSent(s, win)|
    ensures FromRegistered(s, EnsuredSent(s, win)[k])
  {
    var m, leave, enter := EnsuredSent(s, win)[k], LeaveMessages(s), ToSurface(s, KEnter, s.windowSurface[win], win);
    assert m in leave || m in enter;
    if m in leave { LeaveRegistered(s, m); } else { BatchRegistered(s, KEnter, win, m); }
  }

  lemma DeliveredRegistered(s: State, kind: Kind, win: Win, k: nat)
    requires |s.sent| <= k < |DeliveredSent(s, kind, win)|
    ensures FromRegistered(s, DeliveredSent(s, kind, win)[k])
  {
    var n, m := |EnsuredSent(s, win)|, DeliveredSent(s, kind, win)[k];
    if k < n {
      assert m == EnsuredSent(s, win)[k];
      EnsureRegistered(s, win, k);
    } else {
      assert m in ToSurface(s, kind, s.windowSurface[win], win);
      BatchRegistered(s, kind, win, m);
    }
  }

  lemma ReactRegistered(s: State, i: Input, k: nat)
    requires |s.sent| <= k < |React(s, i).sent|
    ensures FromRegistered(s, React(s, i).sent[k])
  {
    match i {
      case PointerEnter(win) => EnsureRegistered(s, win, k);
      case PointerMotion(win) => DeliveredRegistered(s, KMotion, win, k);
      case PointerButton(win) => DeliveredRegistered(s, KButton, win, k);
      case PointerLeave(win) =>
        assert React(s, i).sent[k] in LeaveMessages(s);
        LeaveRegistered(s, React(s, i).sent[k]);
    }
  }

  /** Motion in an orphaned window is sent on its destroyed surface. */
  lemma MotionNames(s: State, w: Win)
    requires Orphaned(s, w) && HasPointer(s, s.windowSurface[w].client)
    ensures NamesDestroyed(s, PointerMotion(w))
  {
    var msgs := ToSurface(s, KMotion, s.windowSurface[w], w);
    var n, sent := |EnsuredSent(s, w)|, React(s, PointerMotion(w)).sent;
    BatchNames(s, KMotion, w);
    assert sent == EnsuredSent(s, w) + msgs && sent[n] == msgs[0] && msgs[0] in msgs;
    assert n >= |s.sent|;
  }

  /** In every state: some input has a message name a destroyed surface iff some window is
      orphaned whose client has a pointer. */
  lemma NamesDestroyedIff(s: State)
    ensures (exists i :: NamesDestroyed(s, i)) <==>
            exists w :: Orphaned(s, w) && HasPointer(s, s.windowSurface[w].client)
  {
    if i :| NamesDestroyed(s, i) {
      var k :| |s.sent| <= k < |React(s, i).sent| && React(s, i).sent[k].surface !in s.surfaces;
      ReactRegistered(s, i, k);
      var w :| w in s.windowSurface && React(s, i).sent[k].surface == s.windowSurface[w];
      assert Orphaned(s, w);
    }
    if w :| Orphaned(s, w) && HasPointer(s, s.windowSurface[w].client) {
      MotionNames(s, w);
    }
  }

  /** So after every run: iff a window is still registered for a surface the client does not
      have any more, and the client has a pointer. */
  lemma RunNamesDestroyedIff(pointers: seq<Pointer>, events: seq<Event>)
    ensures var s := Run(pointers, events);
            (exists i :: NamesDestroyed(s, i)) <==>
            exists w :: && w in s.windowSurface && !Lives(events, s.windowSurface[w])
                        && HasPointer(s, s.windowSurface[w].client)
  {
    var s := Run(pointers, events);
    NamesDestroyedIff(s);
    forall w | w in s.windowSurface ensures Orphaned(s, w) <==> !Lives(events, s.windowSurface[w]) {
      SurfacesOfRun(pointers, events, s.windowSurface[w]);
    }
  }

  // ---- both ways to get there --------------------------------------------

  /** A toplevel's surface destroyed before the toplevel: motion in its window enters and
      moves on the destroyed surface. */
  lemma ToplevelOrphan(p: Pointer, sid: Surface)
    requires p.client == sid.client
    ensures var s := Run([p], [CreateSurface(sid), ToplevelMade(1, sid), SurfaceDestroyed(sid)]);
            sid !in s.surfaces && React(s, PointerMotion(1)).sent == [Enter(p, sid, 1), Motion(p, sid)]
  {
    ToplevelThree([p], sid);
    DestroyFirst(GetToplevel(AddSurface(Start([p]), sid), 1, sid), p, sid);
    FirstMotion(DestroySurface(GetToplevel(AddSurface(Start([p]), sid), 1, sid), sid), p, sid);
  }

  /** A popup's surface destroyed before the popup: the same. */
  lemma PopupOrphan(p: Pointer, sid: Surface)
    requires p.client == sid.client
    ensures var s := Run([p], [CreateSurface(sid), PopupMade(1, sid, None), SurfaceDestroyed(sid)]);
            sid !in s.surfaces && React(s, PointerMotion(1)).sent == [Enter(p, sid, 1), Motion(p, sid)]
  {
    PopupThree([p], sid);
    DestroyFirst(GetPopup(AddSurface(Start([p]), sid), 1, sid, None), p, sid);
    FirstMotion(DestroySurface(GetPopup(AddSurface(Start([p]), sid), 1, sid, None), sid), p, sid);
  }

  lemma ToplevelThree(pointers: seq<Pointer>, sid: Surface)
    ensures Run(pointers, [CreateSurface(sid), ToplevelMade(1, sid), SurfaceDestroyed(sid)]) ==
            DestroySurface(GetToplevel(AddSurface(Start(pointers), sid), 1, sid), sid)
  {
    RunThree(pointers, CreateSurface(sid), ToplevelMade(1, sid), SurfaceDestroyed(sid));
    CreateStep(Start(pointers), sid);
    ToplevelStep(AddSurface(Start(pointers), sid), sid);
    DestroyStep(GetToplevel(AddSurface(Start(pointers), sid), 1, sid), sid);
  }

  lemma PopupThree(pointers: seq<Pointer>, sid: Surface)
    ensures Run(pointers, [CreateSurface(sid), PopupMade(1, sid, None), SurfaceDestroyed(sid)]) ==
            DestroySurface(GetPopup(AddSurface(Start(pointers), sid), 1, sid, None), sid)
  {
    RunThree(pointers, CreateSurface(sid), PopupMade(1, sid, None), SurfaceDestroyed(sid));
    CreateStep(Start(pointers), sid);
    PopupStep(AddSurface(Start(pointers), sid), sid);
    DestroyStep(GetPopup(AddSurface(Start(pointers), sid), 1, sid, None), sid);
  }

  lemma CreateStep(s: State, sid: Surface)
    ensures Step(s, CreateSurface(sid)) == AddSurface(s, sid)
  {
  }

  lemma ToplevelStep(s: State, sid: Surface)
    ensures Step(s, ToplevelMade(1, sid)) == GetToplevel(s, 1, sid)
  {
  }

  lemma PopupStep(s: State, sid: Surface)
    ensures Step(s, PopupMade(1, sid, None)) == GetPopup(s, 1, sid, None)
  {
  }

  lemma DestroyStep(s: State, sid: Surface)
    ensures Step(s, SurfaceDestroyed(sid)) == DestroySurface(s, sid)
  {
  }

  /** One registered window, nothing sent and no focus yet. */
  predicate Untouched(s: State, p: Pointer, sid: Surface) {
    s.pointers == [p] && s.windowSurface == map[1 := sid] && s.focus == None && s.sent == []
  }

  lemma DestroyFirst(made: State, p: Pointer, sid: Surface)
    requires Untouched(made, p, sid) && made.surfaceLayer == map[]
    ensures Untouched(DestroySurface(made, sid), p, sid) && sid !in DestroySurface(made, sid).surfaces
  {
    var s := DestroySurface(made, sid);
    DestroyBare(made, sid);
    DestroyGone(made, sid);
    DestroyQuiet(made, sid);
    SameUntouched(made, s, p, sid);
  }

  lemma SameUntouched(s: State, s': State, p: Pointer, sid: Surface)
    requires Untouched(s, p, sid) && Quiet(s, s') && s'.windowSurface == s.windowSurface
    ensures Untouched(s', p, sid)
  {
  }

  /** A surface without a layer object. */
  lemma DestroyBare(s: State, sid: Surface)
    requires sid !in s.surfaceLayer
    ensures DestroySurface(s, sid).windowSurface == s.windowSurface
  {
    DestroyTables(s, sid);
    NoneRemoved(s.windowSurface, LayerWins(s, sid));
  }

  lemma NoneRemoved(m: map<Win, Surface>, gone: set<Win>)
    requires gone == {}
    ensures m - gone == m
  {
  }

  lemma DestroyGone(s: State, sid: Surface)
    ensures sid !in DestroySurface(s, sid).surfaces
  {
    DestroyTables(s, sid);
  }

  lemma DestroyQuiet(s: State, sid: Surface)
    ensures Quiet(s, DestroySurface(s, sid))
  {
    F.DestroyOnly(s, sid);
  }

  lemma RunThree(pointers: seq<Pointer>, e: Event, f: Event, g: Event)
    ensures Run(pointers, [e, f, g]) == Step(Step(Step(Start(pointers), e), f), g)
  {
    RunSnoc(pointers, [], e);
    RunSnoc(pointers, [] + [e], f);
    RunSnoc(pointers, [] + [e] + [f], g);
    assert [e, f, g] == [] + [e] + [f] + [g];
  }

  lemma RunSnoc(pointers: seq<Pointer>, events: seq<Event>, e: Event)
    ensures Run(pointers, events + [e]) == Step(Run(pointers, events), e)
  {
    assert (events + [e])[..|events|] == events;
  }

  lemma FirstMotion(s: State, p: Pointer, sid: Surface)
    requires Untouched(s, p, sid) && p.client == sid.client
    ensures React(s, PointerMotion(1)).sent == [Enter(p, sid, 1), Motion(p, sid)]
  {
    OnlyPointer(p);
    OneMessage(KEnter, p, sid, 1);
    OneMessage(KMotion, p, sid, 1);
  }

  lemma OnlyPointer(p: Pointer)
    ensures PointersFor([p], p.client) == [p]
  {
    assert [p][1..] == [];
  }

  lemma OneMessage(kind: Kind, p: Pointer, sid: Surface, win: Win)
    ensures Messages(kind, [p], sid, win) == [Message(kind, p, sid, win)]
  {
    assert [p][1..] == [];
  }
}
