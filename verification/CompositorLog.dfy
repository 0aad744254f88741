/** What a run of the compositor tells the window hosts, in order: its commands and its
    inset broadcasts; and which requests open popups. */
module CompositorLog {
  import opened Prelude
  import opened Compositor
  import opened CompositorRun
  import opened CompositorLifecycle
  import K = CompositorCommit
  import F = CompositorFrames
  import O = CompositorOrphans

  datatype Item = Told(cmd: Cmd) | Published(insets: Insets)

  /** The commands one step posts. */
  function Fresh(s: State, s': State): seq<Cmd> {
    if |s.posted| <= |s'.posted| then s'.posted[|s.posted|..] else []
  }

  function Tellings(cmds: seq<Cmd>): seq<Item> { seq(|cmds|, i requires 0 <= i < |cmds| => Told(cmds[i])) }

  /** The request recomputes the insets: the anchor or zone of a known bar, or the end of a
      bar or of its surface. */
  predicate Publishes(s: State, e: Event) {
    match e
    case LayerAnchor(obj, _) => obj in s.layers
    case LayerExclusive(obj, _) => obj in s.layers
    case LayerGone(_) => true
    case SurfaceDestroyed(sid) => sid in s.surfaceLayer
    case _ => false
  }

  /** A step posts its commands and then publishes the insets, if it recomputes them. */
  function Part(s: State, s': State, publishes: bool): seq<Item> {
    Tellings(Fresh(s, s')) + if publishes then [Published(s'.insets)] else []
  }

  ghost function StepLog(s: State, e: Event): seq<Item> { Part(s, Step(s, e), Publishes(s, e)) }

  ghost function Log(pointers: seq<Pointer>, events: seq<Event>): seq<Item> {
    if |events| == 0 then []
    else Log(pointers, events[..|events| - 1]) + StepLog(Run(pointers, events[..|events| - 1]), events[|events| - 1])
  }

  function CmdsOf(items: seq<Item>): seq<Cmd> {
    if |items| == 0 then []
    else CmdsOf(items[..|items| - 1]) + if items[|items| - 1].Told? then [items[|items| - 1].cmd] else []
  }

  /** The insets published last. */
  function Latest(start: Insets, items: seq<Item>): Insets {
    if |items| == 0 then start
    else if items[|items| - 1].Published? then items[|items| - 1].insets
    else Latest(start, items[..|items| - 1])
  }

  lemma ItemsSnoc(start: Insets, items: seq<Item>, i: Item)
    ensures CmdsOf(items + [i]) == CmdsOf(items) + if i.Told? then [i.cmd] else []
    ensures Latest(start, items + [i]) == if i.Published? then i.insets else Latest(start, items)
  {
    assert (items + [i])[..|items|] == items;
  }

  lemma {:induction false} ItemsTold(start: Insets, items: seq<Item>, cmds: seq<Cmd>)
    ensures CmdsOf(items + Tellings(cmds)) == CmdsOf(items) + cmds
    ensures Latest(start, items + Tellings(cmds)) == Latest(start, items)
  {
    if |cmds| == 0 {
      assert items + Tellings(cmds) == items;
    } else {
      var init, last := cmds[..|cmds| - 1], cmds[|cmds| - 1];
      ItemsTold(start, items, init);
      assert Tellings(cmds) == Tellings(init) + [Told(last)];
      ConcatAssoc(items, Tellings(init), [Told(last)]);
      ItemsSnoc(start, items + Tellings(init), Told(last));
      ConcatAssoc(CmdsOf(items), init, [last]);
      assert cmds == init + [last];
    }
  }

  // ---- what steps post ---------------------------------------------------

  predicate NoPopup(cmds: seq<Cmd>) { forall c :: c in cmds ==> !c.CreatePopup? }

  /** More is posted, and it opens no popup. */
  predicate Extends(s: State, s': State) {
    s.posted <= s'.posted && NoPopup(Fresh(s, s'))
  }

  lemma ExtendsBy(s: State, s': State, cmds: seq<Cmd>)
    requires s'.posted == s.posted + cmds && NoPopup(cmds)
    ensures Extends(s, s')
  {
    assert Fresh(s, s') == cmds;
  }

  lemma ExtendsTrans(s: State, s': State, s'': State)
    requires Extends(s, s') && Extends(s', s'')
    ensures Extends(s, s'')
  {
    var a, b := Fresh(s, s'), Fresh(s', s'');
    assert s'.posted == s.posted + a && s''.posted == s'.posted + b;
    ConcatAssoc(s.posted, a, b);
    ExtendsBy(s, s'', a + b);
  }

  lemma BystanderExtends(s: State, s': State)
    requires Bystander(s, s')
    ensures Extends(s, s')
  {
    if s'.posted == s.posted { ExtendsBy(s, s', []); } else { ExtendsBy(s, s', [s'.posted[|s.posted|]]); }
  }

  lemma ReapToplevelExtends(s: State, obj: Obj)
    ensures Extends(s, ReapToplevel(s, obj))
  {
    if obj in s.toplevels { ExtendsBy(s, ReapToplevel(s, obj), Closing(s.toplevels[obj].created, s.toplevels[obj].win)); }
  }

  lemma ReapPopupExtends(s: State, obj: Obj)
    ensures Extends(s, ReapPopup(s, obj))
  {
    if obj in s.popups { ExtendsBy(s, ReapPopup(s, obj), [Destroy(s.popups[obj].win)]); }
  }

  lemma ReapLayerExtends(s: State, obj: Obj)
    ensures Extends(s, ReapLayer(s, obj))
  {
    F.ReapLayerPosts(s, obj);
    ExtendsBy(s, ReapLayer(s, obj), if obj in s.layers then Closing(s.layers[obj].created, s.layers[obj].win) else []);
  }

  lemma LoseToplevelExtends(s: State, sid: Surface)
    ensures Extends(s, LoseToplevel(s, sid))
  {
    if sid in s.surfaceToplevel {
      var obj := s.surfaceToplevel[sid];
      var cmds := if obj in s.toplevels then Closing(s.toplevels[obj].created, s.toplevels[obj].win) else [];
      ExtendsBy(s, LoseToplevel(s, sid), cmds);
    }
  }

  lemma DestroyExtends(s: State, sid: Surface)
    ensures Extends(s, DestroySurface(s, sid))
  {
    var s1 := LoseToplevel(s, sid);
    var s2 := LoseSub(s1, sid);
    var s3 := LoseLayer(s2, sid);
    LoseToplevelExtends(s, sid);
    if sid in s1.surfaceSub { ReapSubAside(s1, s1.surfaceSub[sid]); }
    BystanderExtends(s1, s2);
    if sid in s2.surfaceLayer { ReapLayerExtends(s2, s2.surfaceLayer[sid]); }
    ForgetAside(s3, sid);
    BystanderExtends(s3, Forget(s3, sid));
    ExtendsTrans(s, s1, s2);
    ExtendsTrans(s, s2, s3);
    ExtendsTrans(s, s3, Forget(s3, sid));
  }

  lemma ShellExtends(s: State, e: Event)
    requires IsShell(e)
    ensures Extends(s, ShellStep(s, e))
  {
    match e {
      case ToplevelMade(obj, sid) => SilentExtends(s, GetToplevel(s, obj, sid));
      case ToplevelGone(obj) => ReapToplevelExtends(s, obj);
      case PopupMade(obj, sid, parent) => SilentExtends(s, GetPopup(s, obj, sid, parent));
      case PopupGrab(obj) => GrabAside(s, obj); BystanderExtends(s, Grab(s, obj));
      case PopupGone(obj) => ReapPopupExtends(s, obj);
    }
  }

  lemma SilentExtends(s: State, s': State)
    requires s'.posted == s.posted
    ensures Extends(s, s')
  {
    ExtendsBy(s, s', []);
  }

  lemma BarExtends(s: State, e: Event)
    requires IsBar(e)
    ensures Extends(s, BarStep(s, e))
  {
    match e {
      case LayerMade(obj, sid) => SilentExtends(s, GetLayer(s, obj, sid));
      case LayerAnchor(obj, anchor) => SilentExtends(s, SetAnchor(s, obj, anchor));
      case LayerExclusive(obj, zone) => SilentExtends(s, SetExclusive(s, obj, zone));
      case LayerGone(obj) => ReapLayerExtends(s, obj);
    }
  }

  lemma SideExtends(s: State, e: Event)
    requires IsSide(e)
    ensures Extends(s, SideStep(s, e))
  {
    match e {
      case CreateSurface(sid) => SilentExtends(s, AddSurface(s, sid));
      case AttachBuffer(sid, buffer) => SilentExtends(s, Attach(s, sid, buffer));
      case SubMade(obj, sid, above) => SilentExtends(s, GetSub(s, obj, sid, above));
      case SubMoved(obj, x, y) => SilentExtends(s, SetPosition(s, obj, x, y));
      case SubGone(obj) => ReapSubAside(s, obj); BystanderExtends(s, ReapSub(s, obj));
      case CursorSet(surface) => CursorAside(s, surface); BystanderExtends(s, SetCursor(s, surface));
    }
  }

  // ---- commits that open a popup -----------------------------------------

  /** The popup object whose window a commit on the surface would open: the surface shows its
      buffers in the popup's window, a readable one is staged, and the popup is not shown. */
  function Opens(s: State, sid: Surface): Option<Obj> {
    match K.Role(s, sid)
    case Some(KPopup(o)) =>
      if && o in s.popups && !s.popups[o].created
         && Staged(s, sid).pending == Some(Buffer(true)) && s.cursor != Some(sid) && sid !in s.surfaceSub
      then Some(o) else None
    case _ => None
  }

  /** The popup a request first gives a buffer, or gives one again after it was hidden. */
  function Popped(s: State, e: Event): Option<Obj> {
    if e.CommitSurface? then Opens(s, e.sid) else None
  }

  function Popping(s: State, o: Obj): seq<Cmd>
    requires o in s.popups
  {
    [CreatePopup(s.popups[o].win, s.popups[o].parent), Frame(s.popups[o].win)]
  }

  lemma CommitPops(s: State, sid: Surface, o: Obj)
    requires Opens(s, sid) == Some(o)
    ensures Commit(s, sid).posted == s.posted + Popping(s, o)
  {
    K.TakenSame(s, sid);
    K.TakenOpening(s, sid, KPopup(o));
    K.PresentedBy(K.Taken(s, sid), sid, KPopup(o));
    assert Commit(s, sid) == ShowBuffer(K.Taken(s, sid), sid, Buffer(true));
  }

  lemma PaintedExtends(s: State, sid: Surface, k: Key)
    requires s.cursor != Some(sid) && sid !in s.surfaceSub && K.Role(s, sid) == Some(k) && At(s, k).Some?
    requires k.KPopup? ==> At(s, k).value.created
    ensures Extends(s, ShowBuffer(s, sid, Buffer(true)))
  {
    K.PresentedBy(s, sid, k);
    ExtendsBy(s, ShowBuffer(s, sid, Buffer(true)), Painting(At(s, k).value.created, K.Opening(s, k), At(s, k).value.win));
  }

  lemma ShownExtends(s: State, sid: Surface)
    requires K.Role(s, sid).Some? ==> At(s, K.Role(s, sid).value).Some?
    requires s.cursor != Some(sid) && sid !in s.surfaceSub && K.Role(s, sid).Some? && K.Role(s, sid).value.KPopup?
             ==> At(s, K.Role(s, sid).value).value.created
    ensures Extends(s, ShowBuffer(s, sid, Buffer(true)))
  {
    if s.cursor == Some(sid) || sid in s.surfaceSub {
      ShowAside(s, sid, Buffer(true));
      BystanderExtends(s, ShowBuffer(s, sid, Buffer(true)));
    } else if K.Role(s, sid).Some? {
      PaintedExtends(s, sid, K.Role(s, sid).value);
    } else {
      SilentExtends(s, ShowBuffer(s, sid, Buffer(true)));
    }
  }

  lemma HidePopupExtends(s: State, obj: Obj)
    ensures Extends(s, HidePopup(s, obj))
  {
    if obj in s.popups && s.popups[obj].created {
      ExtendsBy(s, HidePopup(s, obj), [Destroy(s.popups[obj].win)]);
    } else {
      SilentExtends(s, HidePopup(s, obj));
    }
  }

  predicate SameRecord(s: State, s': State, k: Key) {
    At(s, k).Some? && At(s', k).Some? && At(s', k).value.created == At(s, k).value.created
  }

  lemma TakenRole(s: State, sid: Surface)
    requires Linked(s)
    ensures var s' := K.Taken(s, sid);
            && K.Role(s', sid) == K.Role(s, sid)
            && (K.Role(s, sid).Some? ==> SameRecord(s, s', K.Role(s, sid).value))
  {
    K.TakenSame(s, sid);
    if K.Role(s, sid).Some? {
      K.RoleRecord(s, sid);
      K.TakenOpening(s, sid, K.Role(s, sid).value);
    }
  }

  lemma CommitExtends(s: State, sid: Surface)
    requires Linked(s) && Opens(s, sid).None?
    ensures Extends(s, Commit(s, sid))
  {
    var taken, staged := K.Taken(s, sid), Staged(s, sid);
    K.TakenSame(s, sid);
    SilentExtends(s, taken);
    if staged.pending.Some? {
      if staged.pending.value.readable {
        assert staged.pending == Some(Buffer(true));
        TakenRole(s, sid);
        ShownExtends(taken, sid);
        ExtendsTrans(s, taken, Commit(s, sid));
      } else {
        assert staged.pending == Some(Buffer(false));
        K.CommitUnreadable(s, sid);
        SilentExtends(s, Commit(s, sid));
      }
    } else if staged.attached && sid in taken.surfacePopup {
      HidePopupExtends(taken, taken.surfacePopup[sid]);
      ExtendsTrans(s, taken, Commit(s, sid));
    }
  }

  /** What a step posts: a popup's opening and first frame, or commands that open none. */
  predicate Posts(s: State, s': State, popped: Option<Obj>) {
    && s.posted <= s'.posted
    && match popped
       case Some(o) => o in s.popups && Fresh(s, s') == Popping(s, o)
       case None => NoPopup(Fresh(s, s'))
  }

  lemma StepPosts(s: State, e: Event)
    requires Linked(s)
    ensures Posts(s, Step(s, e), Popped(s, e))
  {
    if IsShell(e) {
      ShellExtends(s, e);
    } else if IsBar(e) {
      BarExtends(s, e);
    } else if IsSide(e) {
      SideExtends(s, e);
    } else {
      match e {
        case CommitSurface(sid) =>
          if Opens(s, sid).Some? { CommitPops(s, sid, Opens(s, sid).value); } else { CommitExtends(s, sid); }
        case SurfaceDestroyed(sid) => DestroyExtends(s, sid);
        case Pointing(input) => ReactAside(s, input); BystanderExtends(s, React(s, input));
      }
    }
  }

  // ---- what steps publish ------------------------------------------------

  lemma DestroyInsets(s: State, sid: Surface)
    requires sid !in s.surfaceLayer
    ensures DestroySurface(s, sid).insets == s.insets
  {
    var s1 := LoseToplevel(s, sid);
    F.LoseToplevelOnly(s, sid);
    if sid in s1.surfaceSub { F.ReapSubOnly(s1, s1.surfaceSub[sid]); }
  }

  /** Insets change only where they are published. */
  lemma StepInsets(s: State, e: Event)
    requires !Publishes(s, e)
    ensures Step(s, e).insets == s.insets
  {
    if IsShell(e) {
      F.ShellOnly(s, e);
    } else if IsBar(e) {
      assert e.LayerMade? || e.LayerAnchor? || e.LayerExclusive?;
    } else if IsSide(e) {
      F.SideOnly(s, e);
    } else {
      match e {
        case CommitSurface(sid) => F.CommitOnly(s, sid);
        case SurfaceDestroyed(sid) => DestroyInsets(s, sid);
        case Pointing(input) => ReactOnly(s, input);
      }
    }
  }

  const NO_INSETS := Insets(0, 0, 0, 0)

  /** The log has the commands posted, and the insets published last are the current ones. */
  predicate Tells(items: seq<Item>, s: State) {
    CmdsOf(items) == s.posted && Latest(NO_INSETS, items) == s.insets
  }

  lemma PartTells(items: seq<Item>, s: State, s': State, publishes: bool)
    requires Tells(items, s) && s.posted <= s'.posted && (!publishes ==> s'.insets == s.insets)
    ensures Tells(items + Part(s, s', publishes), s')
  {
    var cmds := Fresh(s, s');
    var told := items + Tellings(cmds);
    ItemsTold(NO_INSETS, items, cmds);
    assert s.posted + cmds == s'.posted;
    if publishes {
      ItemsSnoc(NO_INSETS, told, Published(s'.insets));
      ConcatAssoc(items, Tellings(cmds), [Published(s'.insets)]);
    } else {
      assert Tellings(cmds) + [] == Tellings(cmds);
    }
  }

  lemma StepTells(items: seq<Item>, s: State, e: Event)
    requires Tells(items, s) && Linked(s)
    ensures Tells(items + StepLog(s, e), Step(s, e))
  {
    StepPosts(s, e);
    if !Publishes(s, e) { StepInsets(s, e); }
    PartTells(items, s, Step(s, e), Publishes(s, e));
  }

  lemma {:induction false} LogOfRun(pointers: seq<Pointer>, events: seq<Event>)
    requires FreshIds(pointers, events)
    ensures Tells(Log(pointers, events), Run(pointers, events))
  {
    if |events| > 0 {
      var init := events[..|events| - 1];
      FreshInit(pointers, events);
      RunKeeps(pointers, init);
      LogOfRun(pointers, init);
      StepTells(Log(pointers, init), Run(pointers, init), events[|events| - 1]);
    }
  }

  // ---- popups under open windows -----------------------------------------

  predicate ParentOpen(open: set<Win>, cmd: Cmd) { cmd.CreatePopup? ==> cmd.parent in open }

  /** Every popup is created under a window that is open at the time. */
  predicate Parented(cmds: seq<Cmd>) {
    |cmds| == 0 || (Parented(cmds[..|cmds| - 1]) && ParentOpen(Open(cmds[..|cmds| - 1]), cmds[|cmds| - 1]))
  }

  lemma ParentedAppend(cmds: seq<Cmd>, cmd: Cmd)
    ensures Parented(cmds + [cmd]) <==> Parented(cmds) && ParentOpen(Open(cmds), cmd)
  {
    assert (cmds + [cmd])[..|cmds|] == cmds;
  }

  lemma {:induction false} ParentedMore(cmds: seq<Cmd>, more: seq<Cmd>)
    requires NoPopup(more)
    ensures Parented(cmds + more) <==> Parented(cmds)
  {
    if |more| == 0 {
      assert cmds + more == cmds;
    } else {
      var init, last := more[..|more| - 1], more[|more| - 1];
      ParentedMore(cmds, init);
      ParentedAppend(cmds + init, last);
      ConcatAssoc(cmds, init, [last]);
      assert more == init + [last] && last in more;
    }
  }

  ghost predicate ShownBySome(s: State, w: Win) { exists k :: Shows(s, k, w) }

  /** Where a popup is opened, some object shows the window recorded as its parent. */
  ghost predicate UnderShown(s: State, popped: Option<Obj>) {
    match popped
    case Some(o) => o in s.popups && ShownBySome(s, s.popups[o].parent)
    case None => true
  }

  ghost predicate UnderShownAt(pointers: seq<Pointer>, events: seq<Event>, n: nat)
    requires n < |events|
  {
    UnderShown(Run(pointers, events[..n]), Popped(Run(pointers, events[..n]), events[n]))
  }

  ghost predicate PopupsUnderShown(pointers: seq<Pointer>, events: seq<Event>) {
    forall n :: 0 <= n < |events| ==> UnderShownAt(pointers, events, n)
  }

  lemma UnderShownInit(pointers: seq<Pointer>, events: seq<Event>)
    requires |events| > 0
    ensures var n := |events| - 1;
            PopupsUnderShown(pointers, events) <==>
            PopupsUnderShown(pointers, events[..n]) && UnderShownAt(pointers, events, n)
  {
    var init := events[..|events| - 1];
    forall k | 0 <= k < |init| ensures UnderShownAt(pointers, init, k) == UnderShownAt(pointers, events, k) {
      assert init[..k] == events[..k];
    }
  }

  lemma PopParented(cmds: seq<Cmd>, w: Win, parent: Win)
    ensures Parented(cmds + [CreatePopup(w, parent), Frame(w)]) <==> Parented(cmds) && parent in Open(cmds)
  {
    ParentedAppend(cmds, CreatePopup(w, parent));
    ParentedMore(cmds + [CreatePopup(w, parent)], [Frame(w)]);
    assert cmds + [CreatePopup(w, parent), Frame(w)] == cmds + [CreatePopup(w, parent)] + [Frame(w)];
  }

  lemma OpenShown(s: State, w: Win)
    requires Stream(s)
    ensures w in Open(s.posted) <==> ShownBySome(s, w)
  {
  }

  lemma PostsParented(s: State, s': State, popped: Option<Obj>)
    requires Stream(s) && Posts(s, s', popped)
    ensures Parented(s'.posted) <==> Parented(s.posted) && UnderShown(s, popped)
  {
    assert s'.posted == s.posted + Fresh(s, s');
    match popped {
      case None => ParentedMore(s.posted, Fresh(s, s'));
      case Some(o) =>
        PopParented(s.posted, s.popups[o].win, s.popups[o].parent);
        OpenShown(s, s.popups[o].parent);
    }
  }

  /** The condition on the posted stream is one on requests. */
  lemma {:induction false} ParentedIff(pointers: seq<Pointer>, events: seq<Event>)
    requires FreshIds(pointers, events)
    ensures Parented(Run(pointers, events).posted) <==> PopupsUnderShown(pointers, events)
  {
    if |events| > 0 {
      var n := |events| - 1;
      FreshInit(pointers, events);
      ParentedIff(pointers, events[..n]);
      RunKeeps(pointers, events[..n]);
      var s := Run(pointers, events[..n]);
      StepPosts(s, events[n]);
      PostsParented(s, Step(s, events[n]), Popped(s, events[n]));
      UnderShownInit(pointers, events);
    }
  }

  /** A client that shows a popup made without a parent, as the protocol lets it. */
  function OrphanPopup(sid: Surface): seq<Event> {
    [CreateSurface(sid), PopupMade(1, sid, None), AttachBuffer(sid, Some(Buffer(true))), CommitSurface(sid)]
  }

  /** The failing case itself: the popup is opened with no window as its parent. */
  lemma OrphanPopupFails(pointers: seq<Pointer>, sid: Surface)
    ensures FreshIds(pointers, OrphanPopup(sid)) && !PopupsUnderShown(pointers, OrphanPopup(sid))
  {
    var events := OrphanPopup(sid);
    OrphanPopupFresh(pointers, sid);
    var made := GetPopup(AddSurface(Start(pointers), sid), 1, sid, None);
    var s := Attach(made, sid, Some(Buffer(true)));
    O.RunThree(pointers, events[0], events[1], events[2]);
    O.CreateStep(Start(pointers), sid);
    O.PopupStep(AddSurface(Start(pointers), sid), sid);
    AttachStep(made, sid, Some(Buffer(true)));
    assert events[..3] == [events[0], events[1], events[2]];
    assert Run(pointers, events[..3]) == s;
    OrphanPops(made, sid);
    assert !UnderShownAt(pointers, events, 3);
  }

  lemma OrphanPopupFresh(pointers: seq<Pointer>, sid: Surface)
    ensures FreshIds(pointers, OrphanPopup(sid))
  {
    var events := OrphanPopup(sid);
    assert events[..1][..0] == [];
    O.CreateStep(Start(pointers), sid);
    forall k | 0 <= k < |events| ensures FreshId(Run(pointers, events[..k]), events[k]) {
      if k == 1 { assert Run(pointers, events[..1]).popups == map[]; }
    }
  }

  lemma AttachStep(s: State, sid: Surface, buffer: Option<Buffer>)
    ensures Step(s, AttachBuffer(sid, buffer)) == Attach(s, sid, buffer)
  {
  }

  lemma OrphanPops(s: State, sid: Surface)
    requires s.popups == map[1 := Popup(sid, 0, 1, false, false)] && s.surfacePopup == map[sid := 1]
    requires s.toplevels == map[] && s.layers == map[] && s.cursor == None && sid in s.surfaces
    requires s.surfaceToplevel == map[] && s.surfaceLayer == map[] && s.surfaceSub == map[]
    ensures var s' := Attach(s, sid, Some(Buffer(true))); !UnderShown(s', Popped(s', CommitSurface(sid)))
  {
    var s' := Attach(s, sid, Some(Buffer(true)));
    assert Opens(s', sid) == Some(1);
    forall k ensures !Shows(s', k, 0) {}
  }
}
