/** Where every record comes from: on every run the window ids, surfaces, parents, positions,
    anchors and zones on record are those of some request. */
module CompositorRecords {
  import opened Prelude
  import opened Compositor
  import opened CompositorRun
  import opened CompositorLifecycle
  import K = CompositorCommit
  import F = CompositorFrames
  import O = CompositorOrphans
  import G = CompositorRegistry
  import P = CompositorPointer

  // ---- window ids --------------------------------------------------------

  /** The request takes an id: every role object and every proper subsurface does. */
  predicate TakesId(e: Event) {
    e.ToplevelMade? || e.PopupMade? || e.LayerMade? || (e.SubMade? && e.sid != e.above)
  }

  /** The first id not taken yet. */
  function NextId(events: seq<Event>): Win {
    if |events| == 0 then 1 else NextId(events[..|events| - 1]) + if TakesId(events[|events| - 1]) then 1 else 0
  }

  lemma SubIds(s: State, obj: Obj, sid: Surface, above: Surface)
    ensures GetSub(s, obj, sid, above).nextWin == s.nextWin + if sid != above then 1 else 0
  {
    if sid == above { assert GetSub(s, obj, sid, above) == s; }
  }

  lemma SideIds(s: State, e: Event)
    requires IsSide(e)
    ensures SideStep(s, e).nextWin == s.nextWin + if TakesId(e) then 1 else 0
  {
    match e {
      case CreateSurface(sid) =>
      case AttachBuffer(sid, buffer) => F.AttachOnly(s, sid, buffer);
      case SubMade(obj, sid, above) => SubIds(s, obj, sid, above);
      case SubMoved(obj, x, y) => F.SetPositionOnly(s, obj, x, y);
      case SubGone(obj) => F.ReapSubOnly(s, obj);
      case CursorSet(surface) => F.SetCursorOnly(s, surface);
    }
  }

  lemma ShellIds(s: State, e: Event)
    requires IsShell(e)
    ensures ShellStep(s, e).nextWin == s.nextWin + if TakesId(e) then 1 else 0
  {
  }

  lemma BarIds(s: State, e: Event)
    requires IsBar(e)
    ensures BarStep(s, e).nextWin == s.nextWin + if TakesId(e) then 1 else 0
  {
    if e.LayerGone? { F.ReapLayerOnly(s, e.obj); }
  }

  lemma StepIds(s: State, e: Event)
    ensures Step(s, e).nextWin == s.nextWin + if TakesId(e) then 1 else 0
  {
    if IsShell(e) {
      ShellIds(s, e);
    } else if IsBar(e) {
      BarIds(s, e);
    } else if IsSide(e) {
      SideIds(s, e);
    } else {
      match e {
        case CommitSurface(sid) => F.CommitOnly(s, sid);
        case SurfaceDestroyed(sid) => F.DestroyOnly(s, sid);
        case Pointing(input) => ReactOnly(s, input);
      }
    }
  }

  lemma {:induction false} IdsOfRun(pointers: seq<Pointer>, events: seq<Event>)
    ensures Run(pointers, events).nextWin == NextId(events)
  {
    if |events| > 0 {
      IdsOfRun(pointers, events[..|events| - 1]);
      StepIds(Run(pointers, events[..|events| - 1]), events[|events| - 1]);
    }
  }

  // ---- role objects ------------------------------------------------------

  /** A role object's surface, window and, for a popup, parent window. */
  datatype Held = Held(surface: Surface, win: Win, parent: Win)

  function HeldBy(s: State, k: Key): Option<Held> {
    match k
    case KToplevel(o) => if o in s.toplevels then Some(Held(s.toplevels[o].surface, s.toplevels[o].win, 0)) else None
    case KPopup(o) => if o in s.popups then Some(Held(s.popups[o].surface, s.popups[o].win, s.popups[o].parent)) else None
    case KLayer(o) => if o in s.layers then Some(Held(s.layers[o].surface, s.layers[o].win, 0)) else None
  }

  /** The window a popup is made under: the one recorded for the parent surface's toplevel, or
      without a toplevel for its popup; 0 without a parent surface or with neither. */
  predicate MadeUnder(s: State, parent: Option<Surface>, w: Win) {
    match parent
    case None => w == 0
    case Some(x) =>
      if x in s.surfaceToplevel then s.surfaceToplevel[x] in s.toplevels && w == s.toplevels[s.surfaceToplevel[x]].win
      else if x in s.surfacePopup then s.surfacePopup[x] in s.popups && w == s.popups[s.surfacePopup[x]].win
      else w == 0
  }

  /** The request makes this object with these. */
  predicate Makes(s: State, e: Event, k: Key, h: Held) {
    && h.win == s.nextWin
    && match k
       case KToplevel(o) => e == ToplevelMade(o, h.surface) && h.parent == 0
       case KPopup(o) => e.PopupMade? && e.obj == o && e.sid == h.surface && MadeUnder(s, e.parent, h.parent)
       case KLayer(o) => e == LayerMade(o, h.surface) && h.parent == 0
  }

  /** Nothing else changes what an object holds. */
  predicate Stays(s: State, s': State, k: Key) { HeldBy(s', k).None? || HeldBy(s', k) == HeldBy(s, k) }

  lemma ReapLayerStays(s: State, obj: Obj, k: Key)
    ensures Stays(s, ReapLayer(s, obj), k)
  {
    if obj !in s.layers { assert ReapLayer(s, obj) == s.(insets := Reserved(s.layers)); }
  }

  lemma BystanderStays(s: State, s': State, k: Key)
    requires s'.toplevels == s.toplevels && s'.popups == s.popups && s'.layers == s.layers
    ensures Stays(s, s', k)
  {
  }

  lemma PresentToplevelStays(s: State, obj: Obj, k: Key)
    ensures HeldBy(PresentToplevel(s, obj), k) == HeldBy(s, k)
  {
  }

  lemma PresentPopupStays(s: State, obj: Obj, k: Key)
    ensures HeldBy(PresentPopup(s, obj), k) == HeldBy(s, k)
  {
  }

  lemma PresentLayerStays(s: State, obj: Obj, k: Key)
    ensures HeldBy(PresentLayer(s, obj), k) == HeldBy(s, k)
  {
  }

  lemma HidePopupStays(s: State, obj: Obj, k: Key)
    ensures HeldBy(HidePopup(s, obj), k) == HeldBy(s, k)
  {
  }

  lemma TakenStays(s: State, sid: Surface, k: Key)
    ensures HeldBy(K.Taken(s, sid), k) == HeldBy(s, k)
  {
  }

  lemma ShowStays(s: State, sid: Surface, buffer: Buffer, k: Key)
    ensures HeldBy(ShowBuffer(s, sid, buffer), k) == HeldBy(s, k)
  {
    if s.cursor == Some(sid) || sid in s.surfaceSub {
      ShowAside(s, sid, buffer);
    } else if sid in s.surfaceLayer {
      PresentLayerStays(s, s.surfaceLayer[sid], k);
    } else if sid in s.surfaceToplevel {
      PresentToplevelStays(s, s.surfaceToplevel[sid], k);
    } else if sid in s.surfacePopup {
      PresentPopupStays(s, s.surfacePopup[sid], k);
    }
  }

  lemma CommitStays(s: State, sid: Surface, k: Key)
    ensures HeldBy(Commit(s, sid), k) == HeldBy(s, k)
  {
    var taken, staged := K.Taken(s, sid), Staged(s, sid);
    TakenStays(s, sid, k);
    if staged.pending.Some? {
      ShowStays(taken, sid, staged.pending.value, k);
    } else if staged.attached && sid in taken.surfacePopup {
      HidePopupStays(taken, taken.surfacePopup[sid], k);
    }
  }

  lemma DestroyStays(s: State, sid: Surface, k: Key)
    ensures Stays(s, DestroySurface(s, sid), k)
  {
    var s1 := LoseToplevel(s, sid);
    var s2 := LoseSub(s1, sid);
    var s3 := LoseLayer(s2, sid);
    assert Stays(s, s1, k);
    if sid in s1.surfaceSub { ReapSubAside(s1, s1.surfaceSub[sid]); }
    BystanderStays(s1, s2, k);
    if sid in s2.surfaceLayer { ReapLayerStays(s2, s2.surfaceLayer[sid], k); }
    ForgetAside(s3, sid);
    BystanderStays(s3, Forget(s3, sid), k);
  }

  lemma ParentMadeUnder(s: State, parent: Option<Surface>)
    requires Linked(s)
    ensures MadeUnder(s, parent, ParentWindow(s, parent))
  {
  }

  lemma ShellHolds(s: State, e: Event, k: Key)
    requires Linked(s) && IsShell(e)
    ensures var s' := ShellStep(s, e);
            Stays(s, s', k) || Makes(s, e, k, HeldBy(s', k).value)
  {
    match e {
      case PopupMade(obj, sid, parent) => ParentMadeUnder(s, parent);
      case PopupGrab(obj) => GrabAside(s, obj);
      case _ =>
    }
  }

  lemma BarHolds(s: State, e: Event, k: Key)
    requires IsBar(e)
    ensures var s' := BarStep(s, e);
            Stays(s, s', k) || Makes(s, e, k, HeldBy(s', k).value)
  {
    match e {
      case LayerGone(obj) => ReapLayerStays(s, obj, k);
      case _ =>
    }
  }

  lemma SideHolds(s: State, e: Event, k: Key)
    requires IsSide(e)
    ensures Stays(s, SideStep(s, e), k)
  {
    F.SideOnly(s, e);
  }

  lemma StepHolds(s: State, e: Event, k: Key)
    requires Linked(s)
    ensures var s' := Step(s, e);
            Stays(s, s', k) || Makes(s, e, k, HeldBy(s', k).value)
  {
    if IsShell(e) {
      ShellHolds(s, e, k);
    } else if IsBar(e) {
      BarHolds(s, e, k);
    } else if IsSide(e) {
      SideHolds(s, e, k);
    } else {
      match e {
        case CommitSurface(sid) => CommitStays(s, sid, k);
        case SurfaceDestroyed(sid) => DestroyStays(s, sid, k);
        case Pointing(input) => ReactAside(s, input);
      }
    }
  }

  /** The object was made by some request of the run, with the id then due. */
  ghost predicate Made(pointers: seq<Pointer>, events: seq<Event>, k: Key, h: Held) {
    exists n :: 0 <= n < |events| && MadeAt(pointers, events, n, k, h)
  }

  ghost predicate MadeAt(pointers: seq<Pointer>, events: seq<Event>, n: nat, k: Key, h: Held)
    requires n < |events|
  {
    h.win == NextId(events[..n]) && Makes(Run(pointers, events[..n]), events[n], k, h)
  }

  lemma MadeEarlier(pointers: seq<Pointer>, events: seq<Event>, k: Key, h: Held)
    requires |events| > 0 && Made(pointers, events[..|events| - 1], k, h)
    ensures Made(pointers, events, k, h)
  {
    var init := events[..|events| - 1];
    var n :| 0 <= n < |init| && MadeAt(pointers, init, n, k, h);
    assert init[..n] == events[..n];
    assert MadeAt(pointers, events, n, k, h);
  }

  lemma MadeNow(pointers: seq<Pointer>, events: seq<Event>, k: Key, h: Held)
    requires |events| > 0 && Makes(Run(pointers, events[..|events| - 1]), events[|events| - 1], k, h)
    ensures Made(pointers, events, k, h)
  {
    IdsOfRun(pointers, events[..|events| - 1]);
    assert MadeAt(pointers, events, |events| - 1, k, h);
  }

  /** On every run each role object holds the surface its request named, the id then due and,
      if it is a popup, the window recorded for the parent its request named. */
  lemma {:induction false} RolesOfRun(pointers: seq<Pointer>, events: seq<Event>, k: Key)
    requires FreshIds(pointers, events) && HeldBy(Run(pointers, events), k).Some?
    ensures Made(pointers, events, k, HeldBy(Run(pointers, events), k).value)
  {
    if |events| > 0 {
      var init, e := events[..|events| - 1], events[|events| - 1];
      var h := HeldBy(Run(pointers, events), k).value;
      FreshInit(pointers, events);
      RunKeeps(pointers, init);
      StepHolds(Run(pointers, init), e, k);
      if Makes(Run(pointers, init), e, k, h) {
        MadeNow(pointers, events, k, h);
      } else {
        RolesOfRun(pointers, init, k);
        MadeEarlier(pointers, events, k, h);
      }
    }
  }

  // ---- the request that makes an object ----------------------------------

  predicate MakesRole(e: Event) { e.ToplevelMade? || e.PopupMade? || e.LayerMade? }

  /** The object a request makes. */
  function Maker(e: Event): Key
    requires MakesRole(e)
  {
    match e
    case ToplevelMade(obj, _) => KToplevel(obj)
    case PopupMade(obj, _, _) => KPopup(obj)
    case LayerMade(obj, _) => KLayer(obj)
  }

  /** It makes just this object, registers its window for the surface named, and sends nothing. */
  ghost predicate MakesOne(s: State, s': State, e: Event)
    requires MakesRole(e)
  {
    && HeldBy(s', Maker(e)).Some? && Makes(s, e, Maker(e), HeldBy(s', Maker(e)).value)
    && (forall k :: k != Maker(e) ==> HeldBy(s', k) == HeldBy(s, k))
    && s'.windowSurface == s.windowSurface[s.nextWin := e.sid]
    && s'.posted == s.posted && s'.sent == s.sent
  }

  lemma ToplevelMakesOne(s: State, e: Event)
    requires e.ToplevelMade?
    ensures MakesOne(s, GetToplevel(s, e.obj, e.sid), e)
  {
  }

  lemma PopupMakesOne(s: State, e: Event)
    requires Linked(s) && e.PopupMade?
    ensures MakesOne(s, GetPopup(s, e.obj, e.sid, e.parent), e)
  {
    ParentMadeUnder(s, e.parent);
  }

  lemma LayerMakesOne(s: State, e: Event)
    requires e.LayerMade?
    ensures MakesOne(s, GetLayer(s, e.obj, e.sid), e)
  {
  }

  lemma RequestMakes(pointers: seq<Pointer>, events: seq<Event>, e: Event)
    requires FreshIds(pointers, events) && MakesRole(e)
    ensures MakesOne(Run(pointers, events), Step(Run(pointers, events), e), e)
  {
    var s := Run(pointers, events);
    RunKeeps(pointers, events);
    match e {
      case ToplevelMade(obj, sid) => ToplevelMakesOne(s, e);
      case PopupMade(obj, sid, parent) => PopupMakesOne(s, e);
      case LayerMade(obj, sid) => LayerMakesOne(s, e);
    }
  }

  // ---- registrations -----------------------------------------------------

  lemma MadeRegisters(s: State, e: Event)
    requires MakesRole(e)
    ensures Step(s, e).windowSurface == s.windowSurface[s.nextWin := e.sid]
  {
  }

  lemma StepRegisters(s: State, e: Event, w: Win)
    requires P.Bounded(s) && w in Step(s, e).windowSurface
    ensures (w in s.windowSurface && Step(s, e).windowSurface[w] == s.windowSurface[w])
            || (MakesRole(e) && w == s.nextWin && Step(s, e).windowSurface[w] == e.sid)
  {
    if MakesRole(e) {
      MadeRegisters(s, e);
    } else if e.SurfaceDestroyed? {
      O.DestroyTables(s, e.sid);
    } else if e.Pointing? {
      ReactOnly(s, e.input);
    } else {
      P.RequestNarrows(s, e);
      StepIds(s, e);
      if e.SubMade? { G.SideApart(s, e); }
    }
  }

  /** Request `n` makes an object for the surface, and `w` is the id then due. */
  predicate Registers(events: seq<Event>, n: nat, w: Win, sid: Surface) {
    n < |events| && MakesRole(events[n]) && events[n].sid == sid && NextId(events[..n]) == w
  }

  ghost predicate Registered(events: seq<Event>, w: Win, sid: Surface) {
    exists n: nat :: Registers(events, n, w, sid)
  }

  lemma RegisteredEarlier(events: seq<Event>, w: Win, sid: Surface)
    requires |events| > 0 && Registered(events[..|events| - 1], w, sid)
    ensures Registered(events, w, sid)
  {
    var init := events[..|events| - 1];
    var n: nat :| Registers(init, n, w, sid);
    assert init[..n] == events[..n];
    assert Registers(events, n, w, sid);
  }

  /** On every run a registered window is registered for the surface of the request that took
      its id. */
  lemma {:induction false} WindowsOfRun(pointers: seq<Pointer>, events: seq<Event>, w: Win)
    requires Distinct(pointers) && w in Run(pointers, events).windowSurface
    ensures Registered(events, w, Run(pointers, events).windowSurface[w])
  {
    if |events| > 0 {
      var init, e := events[..|events| - 1], events[|events| - 1];
      var s, sid := Run(pointers, init), Run(pointers, events).windowSurface[w];
      P.RunKeepsProtocol(pointers, init);
      StepRegisters(s, e, w);
      if w in s.windowSurface && sid == s.windowSurface[w] {
        WindowsOfRun(pointers, init, w);
        RegisteredEarlier(events, w, sid);
      } else {
        IdsOfRun(pointers, init);
        assert Registers(events, |events| - 1, w, sid);
      }
    }
  }
}
