/** The window command stream over every run of requests: frames only for open windows, no
    window opened twice, open windows exactly the created role records, none left once
    the objects are gone. */
module CompositorLifecycle {
  import opened Prelude
  import opened Compositor
  import opened CompositorRun

  // ---- the command stream ------------------------------------------------

  function Open(cmds: seq<Cmd>): set<Win> {
    if |cmds| == 0 then {} else OpenStep(Open(cmds[..|cmds| - 1]), cmds[|cmds| - 1])
  }

  predicate Creates(cmd: Cmd) { cmd.Create? || cmd.CreatePopup? || cmd.CreateLayer? }

  function OpenStep(open: set<Win>, cmd: Cmd): set<Win> {
    if Creates(cmd) then open + {cmd.win}
    else if cmd.Destroy? then open - {cmd.win}
    else open
  }

  predicate Proper(open: set<Win>, cmd: Cmd) {
    (Creates(cmd) ==> cmd.win !in open) && (cmd.Frame? ==> cmd.win in open)
  }

  predicate WellFormed(cmds: seq<Cmd>) {
    || |cmds| == 0
    || (&& WellFormed(cmds[..|cmds| - 1])
        && Proper(Open(cmds[..|cmds| - 1]), cmds[|cmds| - 1]))
  }

  lemma Append(cmds: seq<Cmd>, cmd: Cmd)
    ensures Open(cmds + [cmd]) == OpenStep(Open(cmds), cmd)
    ensures WellFormed(cmds + [cmd]) <==> WellFormed(cmds) && Proper(Open(cmds), cmd)
  {
    assert (cmds + [cmd])[..|cmds|] == cmds;
  }

  // ---- role records ------------------------------------------------------

  datatype Key = KToplevel(obj: Obj) | KPopup(obj: Obj) | KLayer(obj: Obj)

  datatype Rec = Rec(win: Win, configured: bool, created: bool)

  /** The record of a toplevel, popup or layer-surface object. */
  function At(s: State, k: Key): Option<Rec> {
    match k
    case KToplevel(o) =>
      if o in s.toplevels then Some(Rec(s.toplevels[o].win, s.toplevels[o].configured, s.toplevels[o].created)) else None
    case KPopup(o) =>
      if o in s.popups then Some(Rec(s.popups[o].win, s.popups[o].configured, s.popups[o].created)) else None
    case KLayer(o) =>
      if o in s.layers then Some(Rec(s.layers[o].win, s.layers[o].configured, s.layers[o].created)) else None
  }

  predicate Shows(s: State, k: Key, w: Win) {
    At(s, k).Some? && At(s, k).value.created && At(s, k).value.win == w
  }

  /** Records have distinct window ids already handed out; the open windows are exactly those
      of the created records, all of them configured. */
  ghost predicate Stream(s: State) {
    && (forall k :: At(s, k).Some? ==>
          At(s, k).value.win < s.nextWin)
    && (forall k, l :: At(s, k).Some? && At(s, l).Some? && k != l ==>
          At(s, k).value.win != At(s, l).value.win)
    && WellFormed(s.posted)
    && (forall w :: w in Open(s.posted) <==>
          exists k :: Shows(s, k, w))
    && (forall k :: At(s, k).Some? && At(s, k).value.created ==>
          At(s, k).value.configured)
  }

  /** Every surface-to-role entry points at a record for that surface. */
  ghost predicate Linked(s: State) {
    && (forall x :: x in s.surfaceToplevel ==>
          s.surfaceToplevel[x] in s.toplevels && s.toplevels[s.surfaceToplevel[x]].surface == x)
    && (forall x :: x in s.surfacePopup ==>
          s.surfacePopup[x] in s.popups && s.popups[s.surfacePopup[x]].surface == x)
    && (forall x :: x in s.surfaceLayer ==>
          s.surfaceLayer[x] in s.layers && s.layers[s.surfaceLayer[x]].surface == x)
    && (forall x :: x in s.surfaceSub ==>
          s.surfaceSub[x] in s.subs && s.subs[s.surfaceSub[x]].surface == x)
  }

  ghost predicate Inv(s: State) {
    Stream(s) && Linked(s)
  }

  // ---- frames ------------------------------------------------------------

  lemma SameRecords(s: State, s': State)
    requires s'.toplevels == s.toplevels && s'.popups == s.popups && s'.layers == s.layers
    ensures forall k :: At(s', k) == At(s, k)
  {
  }

  lemma ToplevelOnly(s: State, s': State, obj: Obj)
    requires s'.popups == s.popups && s'.layers == s.layers
    requires forall o :: o != obj ==> (o in s'.toplevels <==> o in s.toplevels)
    requires forall o :: o != obj && o in s.toplevels ==> s'.toplevels[o] == s.toplevels[o]
    ensures forall k :: k != KToplevel(obj) ==> At(s', k) == At(s, k)
  {
  }

  lemma PopupOnly(s: State, s': State, obj: Obj)
    requires s'.toplevels == s.toplevels && s'.layers == s.layers
    requires forall o :: o != obj ==> (o in s'.popups <==> o in s.popups)
    requires forall o :: o != obj && o in s.popups ==> s'.popups[o] == s.popups[o]
    ensures forall k :: k != KPopup(obj) ==> At(s', k) == At(s, k)
  {
  }

  lemma LayerOnly(s: State, s': State, obj: Obj)
    requires s'.toplevels == s.toplevels && s'.popups == s.popups
    requires forall o :: o != obj ==> (o in s'.layers <==> o in s.layers)
    requires forall o :: o != obj && o in s.layers ==> s'.layers[o] == s.layers[o]
    ensures forall k :: k != KLayer(obj) ==> At(s', k) == At(s, k)
  {
  }

  predicate SameLinks(s: State, s': State) {
    && s'.surfaceToplevel == s.surfaceToplevel && s'.surfacePopup == s.surfacePopup
    && s'.surfaceLayer == s.surfaceLayer && s'.surfaceSub == s.surfaceSub
  }

  /** Records may change as long as they stay with their object and surface. */
  lemma LinksStay(s: State, s': State)
    requires Linked(s) && SameLinks(s, s')
    requires forall o :: o in s.toplevels ==> o in s'.toplevels && s'.toplevels[o].surface == s.toplevels[o].surface
    requires forall o :: o in s.popups ==> o in s'.popups && s'.popups[o].surface == s.popups[o].surface
    requires forall o :: o in s.layers ==> o in s'.layers && s'.layers[o].surface == s.layers[o].surface
    requires forall o :: o in s.subs ==> o in s'.subs && s'.subs[o].surface == s.subs[o].surface
    ensures Linked(s')
  {
  }

  // ---- how records change ------------------------------------------------

  /** Nothing about records or the stream changed, except records newly configured and
      commands that neither open, close nor paint a window. */
  lemma OnlyConfigured(s: State, s': State)
    requires Stream(s) && s'.nextWin >= s.nextWin
    requires forall k :: At(s', k).Some? <==> At(s, k).Some?
    requires forall k :: At(s, k).Some? ==>
               && At(s', k).value.win == At(s, k).value.win && At(s', k).value.created == At(s, k).value.created
               && (At(s, k).value.configured ==> At(s', k).value.configured)
    requires s'.posted == s.posted
    ensures Stream(s')
  {
    forall w ensures w in Open(s'.posted) <==> exists k :: Shows(s', k, w) {
      if k :| Shows(s, k, w) { assert Shows(s', k, w); }
      if k :| Shows(s', k, w) { assert Shows(s, k, w); }
    }
  }

  lemma SideCommand(s: State, cmd: Cmd)
    requires Stream(s) && !Creates(cmd) && !cmd.Destroy? && !cmd.Frame?
    ensures WellFormed(s.posted + [cmd]) && Open(s.posted + [cmd]) == Open(s.posted)
  {
    Append(s.posted, cmd);
  }

  /** A side command changes neither records nor the open windows. */
  lemma SideCommandKeeps(s: State, s': State, cmd: Cmd)
    requires Stream(s) && s'.nextWin == s.nextWin
    requires forall k :: At(s', k) == At(s, k)
    requires s'.posted == s.posted + [cmd] && !Creates(cmd) && !cmd.Destroy? && !cmd.Frame?
    ensures Stream(s')
  {
    SideCommand(s, cmd);
    forall w ensures w in Open(s'.posted) <==> exists k :: Shows(s', k, w) {
      if k :| Shows(s, k, w) { assert Shows(s', k, w); }
      if k :| Shows(s', k, w) { assert Shows(s, k, w); }
    }
  }

  lemma Added(s: State, s': State, k: Key)
    requires Stream(s)
    requires At(s, k).None? && At(s', k) == Some(Rec(s.nextWin, false, false))
    requires forall l :: l != k ==> At(s', l) == At(s, l)
    requires s'.nextWin == s.nextWin + 1 && s'.posted == s.posted
    ensures Stream(s')
  {
    forall w ensures w in Open(s'.posted) <==> exists l :: Shows(s', l, w) {
      if l :| Shows(s, l, w) { assert Shows(s', l, w); }
      if l :| Shows(s', l, w) { assert Shows(s, l, w); }
    }
  }

  /** A record goes away and its window is destroyed; a window never created may be
      destroyed too. */
  lemma Dropped(s: State, s': State, k: Key)
    requires Stream(s) && At(s, k).Some?
    requires At(s', k).None? && forall l :: l != k ==> At(s', l) == At(s, l)
    requires s'.nextWin == s.nextWin
    requires s'.posted == s.posted + [Destroy(At(s, k).value.win)] || (s'.posted == s.posted && !At(s, k).value.created)
    ensures Stream(s')
  {
    var win := At(s, k).value.win;
    Append(s.posted, Destroy(win));
    assert !Shows(s', k, win);
    forall w ensures w in Open(s'.posted) <==> exists l :: Shows(s', l, w) {
      if l :| Shows(s', l, w) { assert Shows(s, l, w) && l != k && w != win; }
      if w in Open(s.posted) && w != win {
        var l :| Shows(s, l, w);
        assert Shows(s', l, w);
      }
      if s'.posted == s.posted && w == win {
        assert forall l :: Shows(s, l, w) ==> l == k;
      }
    }
  }

  lemma Painted(s: State, s': State, k: Key)
    requires Stream(s) && At(s, k).Some? && At(s, k).value.created
    requires s'.nextWin == s.nextWin && forall l :: At(s', l) == At(s, l)
    requires s'.posted == s.posted + [Frame(At(s, k).value.win)]
    ensures Stream(s')
  {
    Append(s.posted, Frame(At(s, k).value.win));
    assert Shows(s, k, At(s, k).value.win);
    forall w ensures w in Open(s'.posted) <==> exists l :: Shows(s', l, w) {
      if l :| Shows(s, l, w) { assert Shows(s', l, w); }
      if l :| Shows(s', l, w) { assert Shows(s, l, w); }
    }
  }

  /** The first frame of a configured record creates its window. */
  lemma Opened(s: State, s': State, k: Key, create: Cmd)
    requires Stream(s) && At(s, k).Some?
    requires At(s, k).value.configured && !At(s, k).value.created
    requires At(s', k) == Some(At(s, k).value.(created := true))
    requires s'.nextWin == s.nextWin && forall l :: l != k ==> At(s', l) == At(s, l)
    requires Creates(create) && create.win == At(s, k).value.win
    requires s'.posted == s.posted + [create, Frame(create.win)]
    ensures Stream(s')
  {
    var mid := s.posted + [create];
    Append(s.posted, create);
    Append(mid, Frame(create.win));
    assert s'.posted == mid + [Frame(create.win)];
    assert create.win !in Open(s.posted) by {
      forall l ensures !Shows(s, l, create.win) {}
    }
    forall w ensures w in Open(s'.posted) <==> exists l :: Shows(s', l, w) {
      if w in Open(s.posted) {
        var l :| Shows(s, l, w);
        assert Shows(s', l, w);
      }
      assert Shows(s', k, create.win);
      if l :| Shows(s', l, w) && l != k { assert Shows(s, l, w); }
    }
  }

  lemma Hidden(s: State, s': State, k: Key)
    requires Stream(s) && At(s, k).Some? && At(s, k).value.created
    requires At(s', k) == Some(At(s, k).value.(created := false))
    requires s'.nextWin == s.nextWin && forall l :: l != k ==> At(s', l) == At(s, l)
    requires s'.posted == s.posted + [Destroy(At(s, k).value.win)]
    ensures Stream(s')
  {
    Append(s.posted, Destroy(At(s, k).value.win));
    forall w ensures w in Open(s'.posted) <==> exists l :: Shows(s', l, w) {
      if w in Open(s'.posted) {
        var l :| Shows(s, l, w);
        assert Shows(s', l, w);
      }
      if l :| Shows(s', l, w) { assert Shows(s, l, w); }
    }
  }

  // ---- requests ----------------------------------------------------------

  lemma ToplevelMadeKeeps(s: State, obj: Obj, sid: Surface)
    requires obj !in s.toplevels
    ensures Stream(s) ==> Stream(GetToplevel(s, obj, sid))
    ensures Linked(s) ==> Linked(GetToplevel(s, obj, sid))
  {
    var s' := GetToplevel(s, obj, sid);
    ToplevelOnly(s, s', obj);
    if Stream(s) { Added(s, s', KToplevel(obj)); }
  }

  lemma PopupMadeKeeps(s: State, obj: Obj, sid: Surface, parent: Option<Surface>)
    requires obj !in s.popups
    ensures Stream(s) ==> Stream(GetPopup(s, obj, sid, parent))
    ensures Linked(s) ==> Linked(GetPopup(s, obj, sid, parent))
  {
    var s' := GetPopup(s, obj, sid, parent);
    PopupOnly(s, s', obj);
    if Stream(s) { Added(s, s', KPopup(obj)); }
  }

  lemma LayerMadeKeeps(s: State, obj: Obj, sid: Surface)
    requires obj !in s.layers
    ensures Stream(s) ==> Stream(GetLayer(s, obj, sid))
    ensures Linked(s) ==> Linked(GetLayer(s, obj, sid))
  {
    var s' := GetLayer(s, obj, sid);
    LayerOnly(s, s', obj);
    if Stream(s) { Added(s, s', KLayer(obj)); }
  }

  lemma ReapToplevelKeeps(s: State, obj: Obj)
    ensures Stream(s) ==> Stream(ReapToplevel(s, obj))
    ensures Linked(s) ==> Linked(ReapToplevel(s, obj))
  {
    if obj in s.toplevels {
      var s' := ReapToplevel(s, obj);
      ToplevelOnly(s, s', obj);
      if Stream(s) { Dropped(s, s', KToplevel(obj)); }
    }
  }

  lemma ReapPopupKeeps(s: State, obj: Obj)
    ensures Stream(s) ==> Stream(ReapPopup(s, obj))
    ensures Linked(s) ==> Linked(ReapPopup(s, obj))
  {
    if obj in s.popups {
      var s' := ReapPopup(s, obj);
      PopupOnly(s, s', obj);
      if Stream(s) { Dropped(s, s', KPopup(obj)); }
    }
  }

  lemma ReapLayerKeeps(s: State, obj: Obj)
    ensures Stream(s) ==> Stream(ReapLayer(s, obj))
    ensures Linked(s) ==> Linked(ReapLayer(s, obj))
  {
    var s' := ReapLayer(s, obj);
    if obj in s.layers {
      LayerOnly(s, s', obj);
      if Stream(s) { Dropped(s, s', KLayer(obj)); }
    } else {
      SameRecords(s, s');
      if Stream(s) { OnlyConfigured(s, s'); }
    }
  }

  /** A layer record whose window, creation and configuration stay as they are. */
  lemma LayerChangeKeeps(s: State, s': State, obj: Obj, l: Layer)
    requires obj in s.layers && l.surface == s.layers[obj].surface && l.win == s.layers[obj].win
    requires l.configured == s.layers[obj].configured && l.created == s.layers[obj].created
    requires s' == s.(layers := s.layers[obj := l], insets := s'.insets)
    ensures Stream(s) ==> Stream(s')
    ensures Linked(s) ==> Linked(s')
  {
    LayerOnly(s, s', obj);
    if Stream(s) { OnlyConfigured(s, s'); }
  }

  /** A step that touches no role record and posts at most a side command. */
  predicate Bystander(s: State, s': State) {
    && s'.toplevels == s.toplevels && s'.popups == s.popups && s'.layers == s.layers
    && s'.nextWin >= s.nextWin
    && (|| s'.posted == s.posted
        || (&& s'.nextWin == s.nextWin && |s'.posted| == |s.posted| + 1 && s'.posted[..|s.posted|] == s.posted
            && var cmd := s'.posted[|s.posted|]; !Creates(cmd) && !cmd.Destroy? && !cmd.Frame?))
  }

  lemma BystanderKeeps(s: State, s': State)
    requires Bystander(s, s')
    ensures Stream(s) ==> Stream(s')
  {
    SameRecords(s, s');
    if Stream(s) {
      if s'.posted == s.posted {
        OnlyConfigured(s, s');
      } else {
        assert s'.posted == s.posted + [s'.posted[|s.posted|]];
        SideCommandKeeps(s, s', s'.posted[|s.posted|]);
      }
    }
  }

  lemma ReapSubAside(s: State, obj: Obj)
    ensures Bystander(s, ReapSub(s, obj))
  {
    if obj in s.subs {
      var cmds := Removal(Resolve(s, s.subs[obj].surface), s.subs[obj].subId);
      assert ReapSub(s, obj).posted == s.posted + cmds;
      if cmds == [] { assert s.posted + cmds == s.posted; } else { OneMore(s.posted, cmds[0]); assert cmds == [cmds[0]]; }
    }
  }

  lemma ReapSubIndex(s: State, obj: Obj)
    requires obj in s.subs
    ensures var s' := ReapSub(s, obj);
      && s'.subs == s.subs - {obj} && s'.surfaceSub == s.surfaceSub - {s.subs[obj].surface}
      && s'.surfaceToplevel == s.surfaceToplevel && s'.surfacePopup == s.surfacePopup && s'.surfaceLayer == s.surfaceLayer
  {
  }

  lemma SubGoneLinked(s: State, s': State, obj: Obj)
    requires Linked(s) && obj in s.subs
    requires s'.toplevels == s.toplevels && s'.popups == s.popups && s'.layers == s.layers
    requires s'.subs == s.subs - {obj} && s'.surfaceSub == s.surfaceSub - {s.subs[obj].surface}
    requires s'.surfaceToplevel == s.surfaceToplevel && s'.surfacePopup == s.surfacePopup && s'.surfaceLayer == s.surfaceLayer
    ensures Linked(s')
  {
  }

  lemma ReapSubLinked(s: State, obj: Obj)
    requires Linked(s)
    ensures Linked(ReapSub(s, obj))
  {
    if obj in s.subs {
      ReapSubAside(s, obj);
      ReapSubIndex(s, obj);
      SubGoneLinked(s, ReapSub(s, obj), obj);
    }
  }

  lemma ReapSubKeeps(s: State, obj: Obj)
    ensures Stream(s) ==> Stream(ReapSub(s, obj))
    ensures Linked(s) ==> Linked(ReapSub(s, obj))
  {
    ReapSubAside(s, obj);
    BystanderKeeps(s, ReapSub(s, obj));
    if Linked(s) { ReapSubLinked(s, obj); }
  }

  lemma ConfiguredAt(s: State, sid: Surface, k: Key)
    ensures var s' := Configure(s, sid);
            && (At(s', k).Some? <==> At(s, k).Some?)
            && (At(s, k).Some? ==>
                  && At(s', k).value.win == At(s, k).value.win && At(s', k).value.created == At(s, k).value.created
                  && (At(s, k).value.configured ==> At(s', k).value.configured))
  {
  }

  lemma ConfigureStream(s: State, sid: Surface)
    requires Stream(s)
    ensures Stream(Configure(s, sid))
  {
    forall k { ConfiguredAt(s, sid, k); }
    OnlyConfigured(s, Configure(s, sid));
  }

  lemma ConfigureLinked(s: State, sid: Surface)
    requires Linked(s)
    ensures Linked(Configure(s, sid))
  {
    LinksStay(s, Configure(s, sid));
  }

  /** After `Configure` the records a commit is about to paint are configured. */
  predicate Ready(s: State, sid: Surface) {
    && (sid in s.surfaceToplevel ==> s.surfaceToplevel[sid] in s.toplevels && s.toplevels[s.surfaceToplevel[sid]].configured)
    && (sid in s.surfacePopup ==> s.surfacePopup[sid] in s.popups && s.popups[s.surfacePopup[sid]].configured)
    && (sid in s.surfaceLayer ==> s.surfaceLayer[sid] in s.layers && s.layers[s.surfaceLayer[sid]].configured)
  }

  lemma ConfigureReady(s: State, sid: Surface)
    requires Linked(s)
    ensures Ready(Configure(s, sid), sid)
  {
  }

  lemma PresentToplevelKeeps(s: State, obj: Obj)
    requires obj in s.toplevels && s.toplevels[obj].configured
    ensures Stream(s) ==> Stream(PresentToplevel(s, obj))
    ensures Linked(s) ==> Linked(PresentToplevel(s, obj))
  {
    var s' := PresentToplevel(s, obj);
    ToplevelOnly(s, s', obj);
    if Stream(s) {
      if s.toplevels[obj].created { Painted(s, s', KToplevel(obj)); }
      else { Opened(s, s', KToplevel(obj), Create(s.toplevels[obj].win)); }
    }
  }

  lemma PresentPopupKeeps(s: State, obj: Obj)
    requires obj in s.popups && s.popups[obj].configured
    ensures Stream(s) ==> Stream(PresentPopup(s, obj))
    ensures Linked(s) ==> Linked(PresentPopup(s, obj))
  {
    var s', p := PresentPopup(s, obj), s.popups[obj];
    PopupOnly(s, s', obj);
    if Stream(s) {
      if p.created { Painted(s, s', KPopup(obj)); }
      else { Opened(s, s', KPopup(obj), CreatePopup(p.win, p.parent)); }
    }
  }

  lemma PresentLayerKeeps(s: State, obj: Obj)
    requires obj in s.layers && s.layers[obj].configured
    ensures Stream(s) ==> Stream(PresentLayer(s, obj))
    ensures Linked(s) ==> Linked(PresentLayer(s, obj))
  {
    var s' := PresentLayer(s, obj);
    LayerOnly(s, s', obj);
    if Stream(s) {
      if s.layers[obj].created { Painted(s, s', KLayer(obj)); }
      else { Opened(s, s', KLayer(obj), CreateLayer(s.layers[obj].win)); }
    }
  }

  lemma HidePopupKeeps(s: State, obj: Obj)
    ensures Stream(s) ==> Stream(HidePopup(s, obj))
    ensures Linked(s) ==> Linked(HidePopup(s, obj))
  {
    if obj in s.popups && s.popups[obj].created {
      PopupOnly(s, HidePopup(s, obj), obj);
      if Stream(s) { Hidden(s, HidePopup(s, obj), KPopup(obj)); }
    }
  }

  lemma ShowAside(s: State, sid: Surface, buffer: Buffer)
    requires s.cursor == Some(sid) || sid in s.surfaceSub
    ensures Aside(s, ShowBuffer(s, sid, buffer))
  {
    var cmds := if s.cursor == Some(sid) then (if buffer.readable then [SetCursorImage] else [])
                else SubPainting(Resolve(s, sid), buffer);
    assert s.posted + [] == s.posted;
    assert ShowBuffer(s, sid, buffer) == s.(posted := s.posted + cmds);
  }

  lemma ShowKeeps(s: State, sid: Surface, buffer: Buffer)
    requires Inv(s) && Ready(s, sid)
    ensures Stream(ShowBuffer(s, sid, buffer))
    ensures Linked(ShowBuffer(s, sid, buffer))
  {
    if s.cursor == Some(sid) || sid in s.surfaceSub {
      ShowAside(s, sid, buffer);
      AsideKeeps(s, ShowBuffer(s, sid, buffer));
    } else if sid in s.surfaceLayer {
      PresentLayerKeeps(s, s.surfaceLayer[sid]);
    } else if sid in s.surfaceToplevel {
      PresentToplevelKeeps(s, s.surfaceToplevel[sid]);
    } else if sid in s.surfacePopup {
      PresentPopupKeeps(s, s.surfacePopup[sid]);
    }
  }

  lemma CommitKeeps(s: State, sid: Surface)
    requires Inv(s)
    ensures Inv(Commit(s, sid))
  {
    var s0 := s.(surfaces := Unstaged(s.surfaces, sid));
    BystanderKeeps(s, s0);
    LinksStay(s, s0);
    ConfigureStream(s0, sid);
    ConfigureLinked(s0, sid);
    ConfigureReady(s0, sid);
    var staged, s' := Staged(s, sid), Configure(s0, sid);
    if staged.pending.Some? {
      ShowKeeps(s', sid, staged.pending.value);
    } else if staged.attached && sid in s'.surfacePopup {
      HidePopupKeeps(s', s'.surfacePopup[sid]);
    }
  }

  lemma LoseToplevelKeeps(s: State, sid: Surface)
    requires Linked(s)
    ensures Stream(s) ==> Stream(LoseToplevel(s, sid))
    ensures Linked(LoseToplevel(s, sid))
  {
    if sid in s.surfaceToplevel {
      var obj := s.surfaceToplevel[sid];
      ToplevelOnly(s, LoseToplevel(s, sid), obj);
      if Stream(s) { Dropped(s, LoseToplevel(s, sid), KToplevel(obj)); }
    }
  }

  /** The two parts of destroying a surface that reap its other roles. */
  lemma DestroySurfaceKeeps(s: State, sid: Surface)
    requires Inv(s)
    ensures Inv(DestroySurface(s, sid))
  {
    LoseToplevelKeeps(s, sid);
    var s1 := LoseToplevel(s, sid);
    var s2 := LoseSub(s1, sid);
    if sid in s1.surfaceSub { ReapSubKeeps(s1, s1.surfaceSub[sid]); }
    var s3 := LoseLayer(s2, sid);
    if sid in s2.surfaceLayer { ReapLayerKeeps(s2, s2.surfaceLayer[sid]); }
    ForgetAside(s3, sid);
    AsideKeeps(s3, Forget(s3, sid));
  }

  lemma ForgetAside(s: State, sid: Surface)
    ensures Aside(s, Forget(s, sid))
  {
  }

  /** Only side commands, and every record and link as before. */
  predicate Aside(s: State, s': State) {
    Bystander(s, s') && SameLinks(s, s') && s'.subs == s.subs
  }

  lemma AsideKeeps(s: State, s': State)
    requires Inv(s) && Aside(s, s')
    ensures Stream(s')
    ensures Linked(s')
  {
    BystanderKeeps(s, s');
    LinksStay(s, s');
  }

  lemma AttachAside(s: State, sid: Surface, buffer: Option<Buffer>)
    ensures Aside(s, Attach(s, sid, buffer))
  {
  }

  lemma OneMore(posted: seq<Cmd>, cmd: Cmd)
    ensures |posted + [cmd]| == |posted| + 1 && (posted + [cmd])[..|posted|] == posted && (posted + [cmd])[|posted|] == cmd
  {
  }

  lemma GrabAside(s: State, obj: Obj)
    ensures Aside(s, Grab(s, obj))
  {
    if obj in s.popups { OneMore(s.posted, SetGrab(Some(s.popups[obj].win))); }
  }

  lemma CursorAside(s: State, surface: Option<Surface>)
    ensures Aside(s, SetCursor(s, surface))
  {
    var cmds := CursorCommands(s, surface);
    if cmds == [] { assert s.posted + cmds == s.posted; } else { OneMore(s.posted, cmds[0]); assert cmds == [cmds[0]]; }
  }

  lemma ReactAside(s: State, i: Input)
    ensures Aside(s, React(s, i))
  {
    ReactOnly(s, i);
  }

  lemma SubMadeKeeps(s: State, obj: Obj, sid: Surface, above: Surface)
    requires Inv(s) && obj !in s.subs
    ensures Stream(GetSub(s, obj, sid, above))
    ensures Linked(GetSub(s, obj, sid, above))
  {
    BystanderKeeps(s, GetSub(s, obj, sid, above));
  }

  lemma SubMovedKeeps(s: State, obj: Obj, x: I32, y: I32)
    requires Inv(s)
    ensures Stream(SetPosition(s, obj, x, y))
    ensures Linked(SetPosition(s, obj, x, y))
  {
    if obj in s.subs {
      SubMovedLinked(s, obj, x, y);
      assert Bystander(s, SetPosition(s, obj, x, y));
      BystanderKeeps(s, SetPosition(s, obj, x, y));
    }
  }

  lemma SubMovedLinked(s: State, obj: Obj, x: I32, y: I32)
    requires Linked(s) && obj in s.subs
    ensures Linked(SetPosition(s, obj, x, y))
  {
    var s' := SetPosition(s, obj, x, y);
    assert s'.subs == s.subs[obj := s.subs[obj].(x := x, y := y)] && SameLinks(s, s');
    LinksStay(s, s');
  }

  lemma ShellKeeps(s: State, e: Event)
    requires Inv(s) && FreshId(s, e) && IsShell(e)
    ensures Stream(ShellStep(s, e))
    ensures Linked(ShellStep(s, e))
  {
    match e {
      case ToplevelMade(obj, sid) => ToplevelMadeKeeps(s, obj, sid);
      case ToplevelGone(obj) => ReapToplevelKeeps(s, obj);
      case PopupMade(obj, sid, parent) => PopupMadeKeeps(s, obj, sid, parent);
      case PopupGrab(obj) => GrabAside(s, obj); AsideKeeps(s, Grab(s, obj));
      case PopupGone(obj) => ReapPopupKeeps(s, obj);
    }
  }

  lemma BarKeeps(s: State, e: Event)
    requires Inv(s) && FreshId(s, e) && IsBar(e)
    ensures Stream(BarStep(s, e))
    ensures Linked(BarStep(s, e))
  {
    match e {
      case LayerMade(obj, sid) => LayerMadeKeeps(s, obj, sid);
      case LayerAnchor(obj, anchor) =>
        if obj in s.layers { LayerChangeKeeps(s, SetAnchor(s, obj, anchor), obj, s.layers[obj].(anchor := anchor)); }
      case LayerExclusive(obj, zone) =>
        if obj in s.layers { LayerChangeKeeps(s, SetExclusive(s, obj, zone), obj, s.layers[obj].(exclusive := zone)); }
      case LayerGone(obj) => ReapLayerKeeps(s, obj);
    }
  }

  lemma SideKeeps(s: State, e: Event)
    requires Inv(s) && FreshId(s, e) && IsSide(e)
    ensures Stream(SideStep(s, e))
    ensures Linked(SideStep(s, e))
  {
    match e {
      case CreateSurface(sid) => AsideKeeps(s, AddSurface(s, sid));
      case AttachBuffer(sid, buffer) => AttachAside(s, sid, buffer); AsideKeeps(s, Attach(s, sid, buffer));
      case SubMade(obj, sid, above) => SubMadeKeeps(s, obj, sid, above);
      case SubMoved(obj, x, y) => SubMovedKeeps(s, obj, x, y);
      case SubGone(obj) => ReapSubKeeps(s, obj);
      case CursorSet(surface) => CursorAside(s, surface); AsideKeeps(s, SetCursor(s, surface));
    }
  }

  lemma StepKeeps(s: State, e: Event)
    requires Inv(s) && FreshId(s, e)
    ensures Inv(Step(s, e))
  {
    if IsShell(e) {
      ShellKeeps(s, e);
    } else if IsBar(e) {
      BarKeeps(s, e);
    } else if IsSide(e) {
      SideKeeps(s, e);
    } else {
      match e {
        case CommitSurface(sid) => CommitKeeps(s, sid);
        case SurfaceDestroyed(sid) => DestroySurfaceKeeps(s, sid);
        case Pointing(input) => ReactAside(s, input); AsideKeeps(s, React(s, input));
      }
    }
  }

  lemma {:induction false} RunKeeps(pointers: seq<Pointer>, events: seq<Event>)
    requires FreshIds(pointers, events)
    ensures Inv(Run(pointers, events))
  {
    if |events| > 0 {
      FreshInit(pointers, events);
      RunKeeps(pointers, events[..|events| - 1]);
      StepKeeps(Run(pointers, events[..|events| - 1]), events[|events| - 1]);
    }
  }

  // ---- what a run guarantees ---------------------------------------------

  /** Frames go only to open windows and an open window is not created again; the open
      windows are exactly those of the created records, which are configured; and every
      surface's role entry has a record, so the code that indexes the tables directly never
      misses. */
  ghost predicate InOrder(s: State) {
    && WellFormed(s.posted)
    && (forall w :: w in Open(s.posted) <==> exists k :: Shows(s, k, w))
    && (forall k :: At(s, k).Some? && At(s, k).value.created ==> At(s, k).value.configured)
    && (forall x :: x in s.surfaceToplevel ==> s.surfaceToplevel[x] in s.toplevels)
    && (forall x :: x in s.surfacePopup ==> s.surfacePopup[x] in s.popups)
    && (forall x :: x in s.surfaceLayer ==> s.surfaceLayer[x] in s.layers)
    && (forall x :: x in s.surfaceSub ==> s.surfaceSub[x] in s.subs)
  }

  /** So after every sequence of requests and input. */
  lemma WindowStream(pointers: seq<Pointer>, events: seq<Event>)
    requires FreshIds(pointers, events)
    ensures InOrder(Run(pointers, events))
  {
    RunKeeps(pointers, events);
  }

  /** Once every toplevel, popup and layer-surface object is gone, no window is open. */
  lemma AllGoneAllClosed(pointers: seq<Pointer>, events: seq<Event>)
    requires FreshIds(pointers, events)
    requires var s := Run(pointers, events);
             s.toplevels == map[] && s.popups == map[] && s.layers == map[]
    ensures Open(Run(pointers, events).posted) == {}
  {
    RunKeeps(pointers, events);
    var s := Run(pointers, events);
    forall w ensures w !in Open(s.posted) {
      assert forall k :: !Shows(s, k, w);
    }
  }
}
