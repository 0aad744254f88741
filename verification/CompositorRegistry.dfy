/** Window registrations: which windows the input code can still find a surface for. */
module CompositorRegistry {
  import opened Prelude
  import opened Compositor
  import opened CompositorRun
  import opened CompositorLifecycle

  /** The window of a role object. */
  function RoleWin(s: State, k: Key): Option<Win> {
    if At(s, k).Some? then Some(At(s, k).value.win) else None
  }

  predicate Owned(s: State, w: Win, k: Key) { RoleWin(s, k) == Some(w) }

  /** Every role object's window is registered, and `stale` are exactly the registered
      windows no role object has. */
  ghost predicate Registered(s: State, stale: set<Win>) {
    && (forall k :: RoleWin(s, k).Some? ==>
          RoleWin(s, k).value in s.windowSurface)
    && (forall k, l :: RoleWin(s, k).Some? && RoleWin(s, k) == RoleWin(s, l) ==>
          k == l)
    && (forall w :: w in s.windowSurface ==> w < s.nextWin)
    && (forall w :: w in stale <==>
          w in s.windowSurface && Unowned(s, w))
  }

  /** No role object has the window. */
  ghost predicate Unowned(s: State, w: Win) { forall k :: !Owned(s, w, k) }

  /** Destroying a `wl_surface` drops its toplevel record and keeps the registration. */
  function Staled(s: State, sid: Surface): set<Win> {
    if sid in s.surfaceToplevel && s.surfaceToplevel[sid] in s.toplevels then {s.toplevels[s.surfaceToplevel[sid]].win} else {}
  }

  ghost function StaleAfter(pointers: seq<Pointer>, events: seq<Event>): set<Win> {
    if |events| == 0 then {}
    else
      var e := events[|events| - 1];
      StaleAfter(pointers, events[..|events| - 1]) +
      if e.SurfaceDestroyed? then Staled(Run(pointers, events[..|events| - 1]), e.sid) else {}
  }

  // ---- steps that touch no registration ----------------------------------

  predicate Quiet(s: State, s': State) {
    s'.focus == s.focus && s'.sent == s.sent && s'.pointers == s.pointers
  }

  /** No message, and every window and registration as before. */
  ghost predicate Apart(s: State, s': State) {
    && Quiet(s, s') && s'.windowSurface == s.windowSurface && s'.nextWin >= s.nextWin
    && forall k :: RoleWin(s', k) == RoleWin(s, k)
  }

  lemma ApartKeeps(s: State, s': State, stale: set<Win>)
    requires Registered(s, stale)
    requires s'.windowSurface == s.windowSurface && s'.nextWin >= s.nextWin && forall k :: RoleWin(s', k) == RoleWin(s, k)
    ensures Registered(s', stale)
  {
    forall w ensures Unowned(s', w) == Unowned(s, w) {
      forall k ensures Owned(s', w, k) == Owned(s, w, k) {}
    }
  }

  lemma ApartTrans(s: State, s': State, s'': State)
    requires Apart(s, s') && Apart(s', s'')
    ensures Apart(s, s'')
  {
  }

  lemma AttachApart(s: State, sid: Surface, buffer: Option<Buffer>)
    ensures Apart(s, Attach(s, sid, buffer))
  {
  }

  lemma GrabApart(s: State, obj: Obj)
    ensures Apart(s, Grab(s, obj))
  {
  }

  lemma CursorApart(s: State, surface: Option<Surface>)
    ensures Apart(s, SetCursor(s, surface))
  {
  }

  lemma SubMadeApart(s: State, obj: Obj, sid: Surface, above: Surface)
    ensures Apart(s, GetSub(s, obj, sid, above))
  {
    if sid != above {
      var s' := GetSub(s, obj, sid, above);
      assert s'.toplevels == s.toplevels && s'.popups == s.popups && s'.layers == s.layers;
      SameRecords(s, s');
    }
  }

  lemma SubMovedApart(s: State, obj: Obj, x: I32, y: I32)
    ensures Apart(s, SetPosition(s, obj, x, y))
  {
  }

  lemma ReapSubApart(s: State, obj: Obj)
    ensures Apart(s, ReapSub(s, obj))
  {
  }

  lemma LoseSubApart(s: State, sid: Surface)
    ensures Apart(s, LoseSub(s, sid))
  {
  }

  lemma ForgetApart(s: State, sid: Surface)
    ensures Apart(s, Forget(s, sid))
  {
  }

  lemma AnchorApart(s: State, obj: Obj, anchor: U32)
    ensures Apart(s, SetAnchor(s, obj, anchor))
  {
  }

  lemma ExclusiveApart(s: State, obj: Obj, zone: I32)
    ensures Apart(s, SetExclusive(s, obj, zone))
  {
  }

  lemma ConfigureApart(s: State, sid: Surface)
    ensures Apart(s, Configure(s, sid))
  {
  }

  lemma PresentToplevelApart(s: State, obj: Obj)
    ensures Apart(s, PresentToplevel(s, obj))
  {
  }

  lemma PresentPopupApart(s: State, obj: Obj)
    ensures Apart(s, PresentPopup(s, obj))
  {
  }

  lemma PresentLayerApart(s: State, obj: Obj)
    ensures Apart(s, PresentLayer(s, obj))
  {
  }

  lemma HidePopupApart(s: State, obj: Obj)
    ensures Apart(s, HidePopup(s, obj))
  {
  }

  lemma ShowApart(s: State, sid: Surface, buffer: Buffer)
    ensures Apart(s, ShowBuffer(s, sid, buffer))
  {
    if s.cursor == Some(sid) || sid in s.surfaceSub {
      assert ShowBuffer(s, sid, buffer) == s.(posted := ShowBuffer(s, sid, buffer).posted);
    } else if sid in s.surfaceLayer {
      PresentLayerApart(s, s.surfaceLayer[sid]);
    } else if sid in s.surfaceToplevel {
      PresentToplevelApart(s, s.surfaceToplevel[sid]);
    } else if sid in s.surfacePopup {
      PresentPopupApart(s, s.surfacePopup[sid]);
    }
  }

  lemma CommitApart(s: State, sid: Surface)
    ensures Apart(s, Commit(s, sid))
  {
    var s0 := s.(surfaces := Unstaged(s.surfaces, sid));
    var s1, staged := Configure(s0, sid), Staged(s, sid);
    assert Apart(s, s0);
    ConfigureApart(s0, sid);
    ApartTrans(s, s0, s1);
    if staged.pending.Some? {
      ShowApart(s1, sid, staged.pending.value);
      ApartTrans(s, s1, Commit(s, sid));
    } else if staged.attached && sid in s1.surfacePopup {
      HidePopupApart(s1, s1.surfacePopup[sid]);
      ApartTrans(s, s1, Commit(s, sid));
    }
  }

  // ---- steps that register or unregister ---------------------------------

  lemma AddedKeeps(s: State, s': State, stale: set<Win>, k: Key, sid: Surface)
    requires Registered(s, stale) && RoleWin(s, k).None?
    requires RoleWin(s', k) == Some(s.nextWin) && forall l :: l != k ==> RoleWin(s', l) == RoleWin(s, l)
    requires s'.nextWin == s.nextWin + 1 && s'.windowSurface == s.windowSurface[s.nextWin := sid]
    ensures Registered(s', stale)
  {
    assert s.nextWin !in stale;
    assert Owned(s', s.nextWin, k);
    forall w | w in s.windowSurface ensures Unowned(s', w) == Unowned(s, w) {
      forall l ensures Owned(s', w, l) == Owned(s, w, l) {}
    }
  }

  lemma OthersOwned(s: State, s': State, k: Key, w: Win)
    requires RoleWin(s, k).Some? && RoleWin(s, k).value != w
    requires RoleWin(s', k).None? && forall l :: l != k ==> RoleWin(s', l) == RoleWin(s, l)
    ensures Unowned(s', w) == Unowned(s, w)
  {
    forall l ensures Owned(s', w, l) == Owned(s, w, l) {}
  }

  lemma RemovedKeeps(s: State, s': State, stale: set<Win>, k: Key)
    requires Registered(s, stale) && RoleWin(s, k).Some?
    requires RoleWin(s', k).None? && forall l :: l != k ==> RoleWin(s', l) == RoleWin(s, l)
    requires s'.nextWin == s.nextWin && s'.windowSurface == s.windowSurface - {RoleWin(s, k).value}
    ensures Registered(s', stale)
  {
    assert Owned(s, RoleWin(s, k).value, k);
    forall w | w in s'.windowSurface { OthersOwned(s, s', k, w); }
  }

  lemma StaledKeeps(s: State, s': State, stale: set<Win>, k: Key)
    requires Registered(s, stale) && RoleWin(s, k).Some?
    requires RoleWin(s', k).None? && forall l :: l != k ==> RoleWin(s', l) == RoleWin(s, l)
    requires s'.nextWin == s.nextWin && s'.windowSurface == s.windowSurface
    ensures Registered(s', stale + {RoleWin(s, k).value})
  {
    var win := RoleWin(s, k).value;
    forall l ensures !Owned(s', win, l) {}
    assert Unowned(s', win);
    forall w | w != win { OthersOwned(s, s', k, w); }
  }

  lemma ToplevelMadeKeeps(s: State, stale: set<Win>, obj: Obj, sid: Surface)
    requires Registered(s, stale) && obj !in s.toplevels
    ensures Registered(GetToplevel(s, obj, sid), stale)
  {
    AddedKeeps(s, GetToplevel(s, obj, sid), stale, KToplevel(obj), sid);
  }

  lemma PopupMadeKeeps(s: State, stale: set<Win>, obj: Obj, sid: Surface, parent: Option<Surface>)
    requires Registered(s, stale) && obj !in s.popups
    ensures Registered(GetPopup(s, obj, sid, parent), stale)
  {
    AddedKeeps(s, GetPopup(s, obj, sid, parent), stale, KPopup(obj), sid);
  }

  lemma LayerMadeKeeps(s: State, stale: set<Win>, obj: Obj, sid: Surface)
    requires Registered(s, stale) && obj !in s.layers
    ensures Registered(GetLayer(s, obj, sid), stale)
  {
    AddedKeeps(s, GetLayer(s, obj, sid), stale, KLayer(obj), sid);
  }

  lemma ToplevelGoneKeeps(s: State, stale: set<Win>, obj: Obj)
    requires Registered(s, stale)
    ensures Registered(ReapToplevel(s, obj), stale)
  {
    if obj in s.toplevels { RemovedKeeps(s, ReapToplevel(s, obj), stale, KToplevel(obj)); }
  }

  lemma PopupGoneKeeps(s: State, stale: set<Win>, obj: Obj)
    requires Registered(s, stale)
    ensures Registered(ReapPopup(s, obj), stale)
  {
    if obj in s.popups { RemovedKeeps(s, ReapPopup(s, obj), stale, KPopup(obj)); }
  }

  lemma LayerGoneKeeps(s: State, stale: set<Win>, obj: Obj)
    requires Registered(s, stale)
    ensures Registered(ReapLayer(s, obj), stale)
  {
    if obj in s.layers { RemovedKeeps(s, ReapLayer(s, obj), stale, KLayer(obj)); }
    else { ApartKeeps(s, ReapLayer(s, obj), stale); }
  }

  lemma LostRoles(s: State, sid: Surface)
    requires sid in s.surfaceToplevel
    ensures var s', k := LoseToplevel(s, sid), KToplevel(s.surfaceToplevel[sid]);
            && s'.nextWin == s.nextWin && s'.windowSurface == s.windowSurface
            && RoleWin(s', k).None? && forall l :: l != k ==> RoleWin(s', l) == RoleWin(s, l)
  {
    ToplevelOnly(s, LoseToplevel(s, sid), s.surfaceToplevel[sid]);
  }

  lemma LoseToplevelKeeps(s: State, stale: set<Win>, sid: Surface)
    requires Registered(s, stale)
    ensures Registered(LoseToplevel(s, sid), stale + Staled(s, sid))
  {
    assert stale + {} == stale;
    if sid in s.surfaceToplevel {
      LostRoles(s, sid);
      var k := KToplevel(s.surfaceToplevel[sid]);
      if RoleWin(s, k).Some? { StaledKeeps(s, LoseToplevel(s, sid), stale, k); }
      else { ApartKeeps(s, LoseToplevel(s, sid), stale); }
    }
  }

  lemma DestroyKeeps(s: State, stale: set<Win>, sid: Surface)
    requires Registered(s, stale)
    ensures Registered(DestroySurface(s, sid), stale + Staled(s, sid))
  {
    var stale' := stale + Staled(s, sid);
    LoseToplevelKeeps(s, stale, sid);
    var s1 := LoseToplevel(s, sid);
    LoseSubApart(s1, sid);
    var s2 := LoseSub(s1, sid);
    ApartKeeps(s1, s2, stale');
    if sid in s2.surfaceLayer { LayerGoneKeeps(s2, stale', s2.surfaceLayer[sid]); }
    var s3 := LoseLayer(s2, sid);
    ForgetApart(s3, sid);
    ApartKeeps(s3, Forget(s3, sid), stale');
  }

  lemma SideApart(s: State, e: Event)
    requires IsSide(e)
    ensures Apart(s, SideStep(s, e))
  {
    match e {
      case CreateSurface(sid) => AddSurfaceApart(s, sid);
      case AttachBuffer(sid, buffer) => AttachApart(s, sid, buffer);
      case SubMade(obj, sid, above) => SubMadeApart(s, obj, sid, above);
      case SubMoved(obj, x, y) => SubMovedApart(s, obj, x, y);
      case SubGone(obj) => ReapSubApart(s, obj);
      case CursorSet(surface) => CursorApart(s, surface);
    }
  }

  lemma AddSurfaceApart(s: State, sid: Surface)
    ensures Apart(s, AddSurface(s, sid))
  {
  }

  lemma ReactKeeps(s: State, stale: set<Win>, i: Input)
    requires Registered(s, stale)
    ensures Registered(React(s, i), stale)
  {
    ReactOnly(s, i);
    SameRecords(s, React(s, i));
    ApartKeeps(s, React(s, i), stale);
  }

  lemma ShellKeepsRegistered(s: State, stale: set<Win>, e: Event)
    requires Registered(s, stale) && FreshId(s, e) && IsShell(e)
    ensures Registered(ShellStep(s, e), stale)
  {
    match e {
      case ToplevelMade(obj, sid) => ToplevelMadeKeeps(s, stale, obj, sid);
      case ToplevelGone(obj) => ToplevelGoneKeeps(s, stale, obj);
      case PopupMade(obj, sid, parent) => PopupMadeKeeps(s, stale, obj, sid, parent);
      case PopupGrab(obj) => GrabApart(s, obj); ApartKeeps(s, Grab(s, obj), stale);
      case PopupGone(obj) => PopupGoneKeeps(s, stale, obj);
    }
  }

  lemma BarKeepsRegistered(s: State, stale: set<Win>, e: Event)
    requires Registered(s, stale) && FreshId(s, e) && IsBar(e)
    ensures Registered(BarStep(s, e), stale)
  {
    match e {
      case LayerMade(obj, sid) => LayerMadeKeeps(s, stale, obj, sid);
      case LayerAnchor(obj, anchor) => AnchorApart(s, obj, anchor); ApartKeeps(s, SetAnchor(s, obj, anchor), stale);
      case LayerExclusive(obj, zone) => ExclusiveApart(s, obj, zone); ApartKeeps(s, SetExclusive(s, obj, zone), stale);
      case LayerGone(obj) => LayerGoneKeeps(s, stale, obj);
    }
  }

  lemma StepKeepsRegistered(s: State, stale: set<Win>, e: Event)
    requires Registered(s, stale) && FreshId(s, e)
    ensures Registered(Step(s, e), stale + if e.SurfaceDestroyed? then Staled(s, e.sid) else {})
  {
    assert stale + {} == stale;
    if IsShell(e) {
      ShellKeepsRegistered(s, stale, e);
    } else if IsBar(e) {
      BarKeepsRegistered(s, stale, e);
    } else if IsSide(e) {
      SideApart(s, e);
      ApartKeeps(s, SideStep(s, e), stale);
    } else {
      match e {
        case CommitSurface(sid) => CommitApart(s, sid); ApartKeeps(s, Commit(s, sid), stale);
        case SurfaceDestroyed(sid) => DestroyKeeps(s, stale, sid);
        case Pointing(input) => ReactKeeps(s, stale, input);
      }
    }
  }

  /** On every run a window is registered iff a role object has it or its toplevel's
      `wl_surface` was destroyed first; the latter registrations are never removed. */
  lemma {:induction false} RegistrationsOfRun(pointers: seq<Pointer>, events: seq<Event>)
    requires FreshIds(pointers, events)
    ensures Registered(Run(pointers, events), StaleAfter(pointers, events))
  {
    if |events| > 0 {
      FreshInit(pointers, events);
      var init := events[..|events| - 1];
      RegistrationsOfRun(pointers, init);
      StepKeepsRegistered(Run(pointers, init), StaleAfter(pointers, init), events[|events| - 1]);
    }
  }

  /** The request at `n` destroys a surface whose toplevel object still exists. */
  ghost predicate Loses(pointers: seq<Pointer>, events: seq<Event>, n: nat)
    requires n < |events|
  {
    events[n].SurfaceDestroyed? && Staled(Run(pointers, events[..n]), events[n].sid) != {}
  }

  lemma LosesInit(pointers: seq<Pointer>, events: seq<Event>, n: nat)
    requires n + 1 < |events|
    ensures Loses(pointers, events[..|events| - 1], n) == Loses(pointers, events, n)
  {
    assert events[..|events| - 1][..n] == events[..n];
  }

  lemma {:induction false} StaleSources(pointers: seq<Pointer>, events: seq<Event>)
    ensures StaleAfter(pointers, events) == {} <==> forall n :: 0 <= n < |events| ==> !Loses(pointers, events, n)
  {
    if |events| > 0 {
      var init := events[..|events| - 1];
      StaleSources(pointers, init);
      forall n | 0 <= n < |init| ensures Loses(pointers, init, n) == Loses(pointers, events, n) {
        LosesInit(pointers, events, n);
      }
      var lost := if events[|events| - 1].SurfaceDestroyed? then Staled(Run(pointers, init), events[|events| - 1].sid) else {};
      assert StaleAfter(pointers, events) == StaleAfter(pointers, init) + lost;
      assert Loses(pointers, events, |events| - 1) <==> lost != {};
    }
  }

  /** Every registered window has a role object. */
  ghost predicate Backed(s: State) {
    forall w :: w in s.windowSurface ==> exists k :: Owned(s, w, k)
  }

  ghost predicate NeverLoses(pointers: seq<Pointer>, events: seq<Event>) {
    forall n :: 0 <= n < |events| ==> !Loses(pointers, events, n)
  }

  lemma NoStale(s: State, stale: set<Win>)
    requires Registered(s, stale)
    ensures stale == {} <==> Backed(s)
  {
  }

  /** Every registered window has a role object iff no toplevel's surface was destroyed
      before the toplevel. */
  lemma NoLeakIff(pointers: seq<Pointer>, events: seq<Event>)
    requires FreshIds(pointers, events)
    ensures Backed(Run(pointers, events)) <==> NeverLoses(pointers, events)
  {
    RegistrationsOfRun(pointers, events);
    StaleSources(pointers, events);
    NoStale(Run(pointers, events), StaleAfter(pointers, events));
  }

  /** A client that destroys the surface and then the toplevel, as it may. */
  function SurfaceFirst(sid: Surface): seq<Event> {
    [CreateSurface(sid), ToplevelMade(1, sid), SurfaceDestroyed(sid), ToplevelGone(1)]
  }

  /** The failing case itself: the toplevel is gone and its window still registered. */
  lemma SurfaceFirstLeaks(pointers: seq<Pointer>, sid: Surface)
    ensures !Backed(Run(pointers, SurfaceFirst(sid)))
  {
    var events := SurfaceFirst(sid);
    SurfaceFirstFresh(pointers, sid);
    SurfaceFirstStates(pointers, sid);
    assert Staled(Run(pointers, events[..2]), sid) == {1};
    assert Loses(pointers, events, 2);
    NoLeakIff(pointers, events);
  }

  lemma SurfaceFirstStates(pointers: seq<Pointer>, sid: Surface)
    ensures var s := Run(pointers, SurfaceFirst(sid)[..2]);
            s.surfaceToplevel == map[sid := 1] && s.toplevels == map[1 := Toplevel(sid, 1, false, false)]
  {
    var events := SurfaceFirst(sid);
    assert events[..2][..1] == events[..1] && events[..1][..0] == [];
    assert Run(pointers, events[..1]) == Step(Start(pointers), events[0]);
    assert Run(pointers, events[..2]) == Step(Run(pointers, events[..1]), events[1]);
  }

  lemma SurfaceFirstFresh(pointers: seq<Pointer>, sid: Surface)
    ensures FreshIds(pointers, SurfaceFirst(sid))
  {
    var events := SurfaceFirst(sid);
    assert events[..1][..0] == [];
    assert Run(pointers, events[..1]) == Step(Start(pointers), events[0]);
    forall k | 0 <= k < |events| ensures FreshId(Run(pointers, events[..k]), events[k]) {
      if k == 1 { assert Run(pointers, events[..1]).toplevels == map[]; }
    }
  }
}
