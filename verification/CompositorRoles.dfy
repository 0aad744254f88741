/** Which objects have records and which surfaces lead to them, read off the requests. */
module CompositorRoles {
  import opened Prelude
  import opened Compositor
  import opened CompositorRun
  import opened CompositorLifecycle
  import F = CompositorFrames
  import N = CompositorRecords

  datatype Kind = Toplevels | Popups | Bars | Subs

  /** What a request does to the objects of a kind. */
  datatype Change = Makes(obj: Obj, sid: Surface) | Drops(obj: Obj) | Loses(sid: Surface) | Keeps

  /** The end of a surface takes its toplevel, bar and subsurface along, but not its popup; a
      subsurface is not made above itself. */
  function ChangeBy(kind: Kind, e: Event): Change {
    match (kind, e)
    case (Toplevels, ToplevelMade(o, x)) => Makes(o, x)
    case (Toplevels, ToplevelGone(o)) => Drops(o)
    case (Popups, PopupMade(o, x, _)) => Makes(o, x)
    case (Popups, PopupGone(o)) => Drops(o)
    case (Bars, LayerMade(o, x)) => Makes(o, x)
    case (Bars, LayerGone(o)) => Drops(o)
    case (Subs, SubMade(o, x, above)) => if x == above then Keeps else Makes(o, x)
    case (Subs, SubGone(o)) => Drops(o)
    case (_, SurfaceDestroyed(x)) => if kind == Popups then Keeps else Loses(x)
    case _ => Keeps
  }

  /** The surface each object was made on, and the object each surface leads to. */
  datatype Roles = Roles(of: map<Obj, Surface>, at: map<Surface, Obj>)

  /** A surface leads to the object last made on it, until any object made on it goes. */
  function Changed(r: Roles, c: Change): Roles {
    match c
    case Makes(o, x) => Roles(r.of[o := x], r.at[x := o])
    case Drops(o) => if o in r.of then Roles(r.of - {o}, r.at - {r.of[o]}) else r
    case Loses(x) => if x in r.at then Roles(r.of - {r.at[x]}, r.at - {x}) else r
    case Keeps => r
  }

  function RolesOf(events: seq<Event>, kind: Kind): Roles {
    if |events| == 0 then Roles(map[], map[])
    else Changed(RolesOf(events[..|events| - 1], kind), ChangeBy(kind, events[|events| - 1]))
  }

  function Entries(s: State, kind: Kind): map<Surface, Obj> {
    match kind
    case Toplevels => s.surfaceToplevel
    case Popups => s.surfacePopup
    case Bars => s.surfaceLayer
    case Subs => s.surfaceSub
  }

  function SurfaceOf(s: State, kind: Kind, o: Obj): Option<Surface> {
    match kind
    case Toplevels => if o in s.toplevels then Some(s.toplevels[o].surface) else None
    case Popups => if o in s.popups then Some(s.popups[o].surface) else None
    case Bars => if o in s.layers then Some(s.layers[o].surface) else None
    case Subs => if o in s.subs then Some(s.subs[o].surface) else None
  }

  ghost predicate Shows(s: State, kind: Kind, r: Roles) {
    && Entries(s, kind) == r.at
    && forall o :: SurfaceOf(s, kind, o) == if o in r.of then Some(r.of[o]) else None
  }

  lemma SameShows(s: State, s': State, kind: Kind, r: Roles)
    requires Shows(s, kind, r) && Entries(s', kind) == Entries(s, kind)
    requires forall o :: SurfaceOf(s', kind, o) == SurfaceOf(s, kind, o)
    ensures Shows(s', kind, r)
  {
  }

  // ---- what each request does --------------------------------------------

  lemma GetToplevelShows(s: State, obj: Obj, sid: Surface, r: Roles)
    requires Shows(s, Toplevels, r)
    ensures Shows(GetToplevel(s, obj, sid), Toplevels, Changed(r, Makes(obj, sid)))
  {
  }

  lemma ReapToplevelShows(s: State, obj: Obj, r: Roles)
    requires Shows(s, Toplevels, r)
    ensures Shows(ReapToplevel(s, obj), Toplevels, Changed(r, Drops(obj)))
  {
    assert SurfaceOf(s, Toplevels, obj).Some? <==> obj in r.of;
  }

  lemma GetPopupShows(s: State, obj: Obj, sid: Surface, parent: Option<Surface>, r: Roles)
    requires Shows(s, Popups, r)
    ensures Shows(GetPopup(s, obj, sid, parent), Popups, Changed(r, Makes(obj, sid)))
  {
  }

  lemma ReapPopupShows(s: State, obj: Obj, r: Roles)
    requires Shows(s, Popups, r)
    ensures Shows(ReapPopup(s, obj), Popups, Changed(r, Drops(obj)))
  {
    assert SurfaceOf(s, Popups, obj).Some? <==> obj in r.of;
  }

  predicate SamePopups(s: State, s': State) { s'.popups == s.popups && s'.surfacePopup == s.surfacePopup }
  predicate SameToplevels(s: State, s': State) { s'.toplevels == s.toplevels && s'.surfaceToplevel == s.surfaceToplevel }

  lemma ToplevelsApart(s: State, e: Event)
    requires e.ToplevelMade? || e.ToplevelGone?
    ensures SamePopups(s, ShellStep(s, e))
  {
  }

  lemma GetPopupApart(s: State, obj: Obj, sid: Surface, parent: Option<Surface>)
    ensures SameToplevels(s, GetPopup(s, obj, sid, parent))
  {
  }

  lemma ReapPopupApart(s: State, obj: Obj)
    ensures SameToplevels(s, ReapPopup(s, obj))
  {
  }

  lemma GrabApart(s: State, obj: Obj)
    ensures SameToplevels(s, Grab(s, obj)) && SamePopups(s, Grab(s, obj))
  {
    GrabAside(s, obj);
  }

  lemma PopupsApart(s: State, e: Event)
    requires e.PopupMade? || e.PopupGone? || e.PopupGrab?
    ensures SameToplevels(s, ShellStep(s, e))
    ensures e.PopupGrab? ==> SamePopups(s, ShellStep(s, e))
  {
    match e {
      case PopupMade(obj, sid, parent) => GetPopupApart(s, obj, sid, parent);
      case PopupGone(obj) => ReapPopupApart(s, obj);
      case PopupGrab(obj) => GrabApart(s, obj);
    }
  }

  lemma ShellAside(s: State, e: Event, kind: Kind, r: Roles)
    requires IsShell(e) && Shows(s, kind, r) && ChangeBy(kind, e) == Keeps
    ensures Shows(ShellStep(s, e), kind, r)
  {
    F.ShellOnly(s, e);
    if e.ToplevelMade? || e.ToplevelGone? { ToplevelsApart(s, e); } else { PopupsApart(s, e); }
    SameShows(s, ShellStep(s, e), kind, r);
  }

  lemma ShellShows(s: State, e: Event, kind: Kind, r: Roles)
    requires IsShell(e) && Shows(s, kind, r)
    ensures Shows(ShellStep(s, e), kind, Changed(r, ChangeBy(kind, e)))
  {
    if kind == Toplevels && e.ToplevelMade? {
      GetToplevelShows(s, e.obj, e.sid, r);
    } else if kind == Toplevels && e.ToplevelGone? {
      ReapToplevelShows(s, e.obj, r);
    } else if kind == Popups && e.PopupMade? {
      GetPopupShows(s, e.obj, e.sid, e.parent, r);
    } else if kind == Popups && e.PopupGone? {
      ReapPopupShows(s, e.obj, r);
    } else {
      ShellAside(s, e, kind, r);
    }
  }

  lemma GetLayerShows(s: State, e: Event, r: Roles)
    requires e.LayerMade? && Shows(s, Bars, r)
    ensures Shows(BarStep(s, e), Bars, Changed(r, Makes(e.obj, e.sid)))
  {
  }

  lemma AnchorShows(s: State, e: Event, r: Roles)
    requires e.LayerAnchor? && Shows(s, Bars, r)
    ensures Shows(BarStep(s, e), Bars, r)
  {
    F.SetAnchorOnly(s, e.obj, e.anchor);
  }

  lemma ExclusiveShows(s: State, e: Event, r: Roles)
    requires e.LayerExclusive? && Shows(s, Bars, r)
    ensures Shows(BarStep(s, e), Bars, r)
  {
    F.SetExclusiveOnly(s, e.obj, e.zone);
  }

  lemma LayerGoneShows(s: State, e: Event, r: Roles)
    requires e.LayerGone? && Shows(s, Bars, r)
    ensures Shows(BarStep(s, e), Bars, Changed(r, Drops(e.obj)))
  {
    ReapLayerShows(s, e.obj, r);
  }

  lemma BarShows(s: State, e: Event, r: Roles)
    requires IsBar(e) && Shows(s, Bars, r)
    ensures Shows(BarStep(s, e), Bars, Changed(r, ChangeBy(Bars, e)))
  {
    if e.LayerMade? { GetLayerShows(s, e, r); }
    else if e.LayerAnchor? { AnchorShows(s, e, r); }
    else if e.LayerExclusive? { ExclusiveShows(s, e, r); }
    else { LayerGoneShows(s, e, r); }
  }

  lemma BarAside(s: State, e: Event, kind: Kind, r: Roles)
    requires IsBar(e) && Shows(s, kind, r) && kind != Bars
    ensures Shows(BarStep(s, e), kind, Changed(r, ChangeBy(kind, e)))
  {
    F.BarOnly(s, e);
    SameShows(s, BarStep(s, e), kind, r);
  }

  lemma ReapLayerShows(s: State, obj: Obj, r: Roles)
    requires Shows(s, Bars, r)
    ensures Shows(ReapLayer(s, obj), Bars, Changed(r, Drops(obj)))
  {
    if obj !in s.layers {
      assert SurfaceOf(s, Bars, obj).None?;
      assert ReapLayer(s, obj) == s.(insets := Reserved(s.layers));
    }
  }

  lemma GetSubShows(s: State, e: Event, r: Roles)
    requires e.SubMade? && Shows(s, Subs, r)
    ensures Shows(SideStep(s, e), Subs, if e.sid == e.above then r else Changed(r, Makes(e.obj, e.sid)))
  {
    if e.sid == e.above { assert GetSub(s, e.obj, e.sid, e.above) == s; }
  }

  lemma SetPositionShows(s: State, e: Event, r: Roles)
    requires e.SubMoved? && Shows(s, Subs, r)
    ensures Shows(SideStep(s, e), Subs, r)
  {
  }

  lemma SubGoneShows(s: State, e: Event, r: Roles)
    requires e.SubGone? && Shows(s, Subs, r)
    ensures Shows(SideStep(s, e), Subs, Changed(r, Drops(e.obj)))
  {
    ReapSubShows(s, e.obj, r);
  }

  lemma SubsApart(s: State, e: Event)
    requires e.CreateSurface? || e.AttachBuffer? || e.CursorSet?
    ensures SideStep(s, e).subs == s.subs && SideStep(s, e).surfaceSub == s.surfaceSub
  {
    match e {
      case CreateSurface(sid) =>
      case AttachBuffer(sid, buffer) => F.AttachOnly(s, sid, buffer);
      case CursorSet(surface) => F.SetCursorOnly(s, surface);
    }
  }

  lemma OtherSideShows(s: State, e: Event, r: Roles)
    requires Shows(s, Subs, r) && (e.CreateSurface? || e.AttachBuffer? || e.CursorSet?)
    ensures Shows(SideStep(s, e), Subs, r)
  {
    SubsApart(s, e);
    SameShows(s, SideStep(s, e), Subs, r);
  }

  lemma SideShows(s: State, e: Event, r: Roles)
    requires IsSide(e) && Shows(s, Subs, r)
    ensures Shows(SideStep(s, e), Subs, Changed(r, ChangeBy(Subs, e)))
  {
    if e.SubMade? { GetSubShows(s, e, r); }
    else if e.SubMoved? { SetPositionShows(s, e, r); }
    else if e.SubGone? { SubGoneShows(s, e, r); }
    else { OtherSideShows(s, e, r); }
  }

  lemma SideAside(s: State, e: Event, kind: Kind, r: Roles)
    requires IsSide(e) && Shows(s, kind, r) && kind != Subs
    ensures Shows(SideStep(s, e), kind, Changed(r, ChangeBy(kind, e)))
  {
    F.SideOnly(s, e);
    SameShows(s, SideStep(s, e), kind, r);
  }

  lemma ReapSubShows(s: State, obj: Obj, r: Roles)
    requires Shows(s, Subs, r)
    ensures Shows(ReapSub(s, obj), Subs, Changed(r, Drops(obj)))
  {
    assert SurfaceOf(s, Subs, obj).Some? <==> obj in r.of;
  }

  lemma CommitShows(s: State, sid: Surface, kind: Kind, r: Roles)
    requires Shows(s, kind, r)
    ensures Shows(Commit(s, sid), kind, r)
  {
    F.CommitOnly(s, sid);
    forall o ensures SurfaceOf(Commit(s, sid), kind, o) == SurfaceOf(s, kind, o) {
      N.CommitStays(s, sid, KToplevel(o));
      N.CommitStays(s, sid, KPopup(o));
      N.CommitStays(s, sid, KLayer(o));
    }
    SameShows(s, Commit(s, sid), kind, r);
  }

  /** Losing an object by its surface is losing it by its id. */
  lemma LosesDrops(s: State, kind: Kind, r: Roles, sid: Surface)
    requires Linked(s) && Shows(s, kind, r)
    ensures Changed(r, Loses(sid)) == if sid in r.at then Changed(r, Drops(r.at[sid])) else r
  {
    if sid in r.at {
      assert SurfaceOf(s, kind, r.at[sid]) == Some(sid);
    }
  }

  lemma LoseToplevelShows(s: State, sid: Surface, kind: Kind, r: Roles)
    requires Shows(s, kind, r)
    ensures Shows(LoseToplevel(s, sid), kind, if kind == Toplevels then Changed(r, Loses(sid)) else r)
  {
    F.LoseToplevelOnly(s, sid);
    if kind != Toplevels { SameShows(s, LoseToplevel(s, sid), kind, r); }
  }

  lemma LoseSubShows(s: State, sid: Surface, kind: Kind, r: Roles)
    requires Linked(s) && Shows(s, kind, r)
    ensures Shows(LoseSub(s, sid), kind, if kind == Subs then Changed(r, Loses(sid)) else r)
  {
    if sid in s.surfaceSub {
      F.ReapSubOnly(s, s.surfaceSub[sid]);
      if kind == Subs { ReapSubShows(s, s.surfaceSub[sid], r); }
      else { SameShows(s, LoseSub(s, sid), kind, r); }
    }
    if kind == Subs { LosesDrops(s, kind, r, sid); }
  }

  lemma LoseLayerShows(s: State, sid: Surface, kind: Kind, r: Roles)
    requires Linked(s) && Shows(s, kind, r)
    ensures Shows(LoseLayer(s, sid), kind, if kind == Bars then Changed(r, Loses(sid)) else r)
  {
    if sid in s.surfaceLayer {
      F.ReapLayerOnly(s, s.surfaceLayer[sid]);
      if kind == Bars { ReapLayerShows(s, s.surfaceLayer[sid], r); }
      else { SameShows(s, LoseLayer(s, sid), kind, r); }
    }
    if kind == Bars { LosesDrops(s, kind, r, sid); }
  }
  lemma ForgetShows(s: State, sid: Surface, kind: Kind, r: Roles)
    requires Shows(s, kind, r)
    ensures Shows(Forget(s, sid), kind, r)
  {
    ForgetAside(s, sid);
    SameShows(s, Forget(s, sid), kind, r);
  }

  lemma DestroyShows(s: State, sid: Surface, kind: Kind, r: Roles)
    requires Linked(s) && Shows(s, kind, r)
    ensures Shows(DestroySurface(s, sid), kind, if kind == Popups then r else Changed(r, Loses(sid)))
  {
    var s1 := LoseToplevel(s, sid);
    var s2 := LoseSub(s1, sid);
    var s3 := LoseLayer(s2, sid);
    var r1 := if kind == Toplevels then Changed(r, Loses(sid)) else r;
    var r2 := if kind == Subs then Changed(r1, Loses(sid)) else r1;
    var r3 := if kind == Bars then Changed(r2, Loses(sid)) else r2;
    LoseToplevelKeeps(s, sid);
    if sid in s1.surfaceSub { ReapSubKeeps(s1, s1.surfaceSub[sid]); }
    LoseToplevelShows(s, sid, kind, r);
    LoseSubShows(s1, sid, kind, r1);
    LoseLayerShows(s2, sid, kind, r2);
    ForgetShows(s3, sid, kind, r3);
  }

  lemma ReactShows(s: State, i: Input, kind: Kind, r: Roles)
    requires Shows(s, kind, r)
    ensures Shows(React(s, i), kind, r)
  {
    ReactOnly(s, i);
    SameShows(s, React(s, i), kind, r);
  }

  lemma OtherShows(s: State, e: Event, kind: Kind, r: Roles)
    requires Linked(s) && Shows(s, kind, r) && !IsShell(e) && !IsBar(e) && !IsSide(e)
    ensures Shows(Step(s, e), kind, Changed(r, ChangeBy(kind, e)))
  {
    if e.CommitSurface? { CommitShows(s, e.sid, kind, r); }
    else if e.SurfaceDestroyed? { DestroyShows(s, e.sid, kind, r); }
    else { ReactShows(s, e.input, kind, r); }
  }

  lemma BarRequestShows(s: State, e: Event, kind: Kind, r: Roles)
    requires Shows(s, kind, r) && IsBar(e)
    ensures Shows(Step(s, e), kind, Changed(r, ChangeBy(kind, e)))
  {
    assert Step(s, e) == BarStep(s, e);
    if kind == Bars { BarShows(s, e, r); } else { BarAside(s, e, kind, r); }
  }

  lemma SideRequestShows(s: State, e: Event, kind: Kind, r: Roles)
    requires Shows(s, kind, r) && IsSide(e)
    ensures Shows(Step(s, e), kind, Changed(r, ChangeBy(kind, e)))
  {
    assert Step(s, e) == SideStep(s, e);
    if kind == Subs { SideShows(s, e, r); } else { SideAside(s, e, kind, r); }
  }

  lemma StepShows(s: State, e: Event, kind: Kind, r: Roles)
    requires Linked(s) && Shows(s, kind, r)
    ensures Shows(Step(s, e), kind, Changed(r, ChangeBy(kind, e)))
  {
    if IsShell(e) { ShellShows(s, e, kind, r); }
    else if IsBar(e) { BarRequestShows(s, e, kind, r); }
    else if IsSide(e) { SideRequestShows(s, e, kind, r); }
    else { OtherShows(s, e, kind, r); }
  }

  /** On every run the objects with records, their surfaces and the surfaces' entries are those
      the requests call for. */
  lemma {:induction false} RolesOfRequests(pointers: seq<Pointer>, events: seq<Event>, kind: Kind)
    requires FreshIds(pointers, events)
    ensures Shows(Run(pointers, events), kind, RolesOf(events, kind))
  {
    if |events| > 0 {
      var init := events[..|events| - 1];
      FreshInit(pointers, events);
      RunKeeps(pointers, init);
      RolesOfRequests(pointers, init, kind);
      StepShows(Run(pointers, init), events[|events| - 1], kind, RolesOf(init, kind));
    }
  }
}
