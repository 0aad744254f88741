/** What one commit sends, told by the command stream itself and not by the flags the code
    keeps: a buffer opens its window iff the stream has it closed. */
module CompositorCommit {
  import opened Prelude
  import opened Compositor
  import opened CompositorRun
  import opened CompositorLifecycle
  import opened CompositorSubsurface

  /** The role object whose window shows the surface's buffers: a bar before a toplevel
      before a popup. */
  function Role(s: State, sid: Surface): Option<Key> {
    if sid in s.surfaceLayer then Some(KLayer(s.surfaceLayer[sid]))
    else if sid in s.surfaceToplevel then Some(KToplevel(s.surfaceToplevel[sid]))
    else if sid in s.surfacePopup then Some(KPopup(s.surfacePopup[sid]))
    else None
  }

  /** The command that opens a role object's window. */
  function Opening(s: State, k: Key): Cmd
    requires At(s, k).Some?
  {
    var w := At(s, k).value.win;
    match k
    case KToplevel(_) => Create(w)
    case KPopup(o) => CreatePopup(w, s.popups[o].parent)
    case KLayer(_) => CreateLayer(w)
  }

  lemma RoleRecord(s: State, sid: Surface)
    requires Linked(s) && Role(s, sid).Some?
    ensures At(s, Role(s, sid).value).Some?
  {
  }

  lemma OpenIffCreated(s: State, k: Key)
    requires Stream(s) && At(s, k).Some?
    ensures At(s, k).value.created <==> At(s, k).value.win in Open(s.posted)
  {
    var w := At(s, k).value.win;
    if At(s, k).value.created { assert Shows(s, k, w); }
    forall l | Shows(s, l, w) ensures l == k {}
  }

  /** The state in which a commit shows its buffer. */
  function Taken(s: State, sid: Surface): State {
    Configure(s.(surfaces := Unstaged(s.surfaces, sid)), sid)
  }

  lemma TakenSame(s: State, sid: Surface)
    ensures var s' := Taken(s, sid);
            && s'.posted == s.posted && s'.cursor == s.cursor && SameLinks(s, s') && s'.subs == s.subs
            && s'.surfaces == Unstaged(s.surfaces, sid)
  {
  }

  lemma TakenOpening(s: State, sid: Surface, k: Key)
    requires At(s, k).Some?
    ensures At(Taken(s, sid), k).Some? && At(Taken(s, sid), k).value.win == At(s, k).value.win
    ensures At(Taken(s, sid), k).value.created == At(s, k).value.created
    ensures Opening(Taken(s, sid), k) == Opening(s, k)
  {
  }

  lemma PresentedBy(s: State, sid: Surface, k: Key)
    requires s.cursor != Some(sid) && sid !in s.surfaceSub && Role(s, sid) == Some(k) && At(s, k).Some?
    ensures ShowBuffer(s, sid, Buffer(true)).posted
            == s.posted + Painting(At(s, k).value.created, Opening(s, k), At(s, k).value.win)
  {
    match k {
      case KLayer(o) => assert ShowBuffer(s, sid, Buffer(true)) == PresentLayer(s, o);
      case KToplevel(o) => assert ShowBuffer(s, sid, Buffer(true)) == PresentToplevel(s, o);
      case KPopup(o) => assert ShowBuffer(s, sid, Buffer(true)) == PresentPopup(s, o);
    }
  }

  /** A readable buffer committed on a surface with a window is shown in it by one frame,
      after opening the window iff the stream has it closed; it is open afterwards. */
  lemma CommitPaints(s: State, sid: Surface)
    requires Inv(s) && Role(s, sid).Some? && At(s, Role(s, sid).value).Some?
    requires Staged(s, sid).pending == Some(Buffer(true)) && s.cursor != Some(sid) && sid !in s.surfaceSub
    ensures var k := Role(s, sid).value;
            var w := At(s, k).value.win;
            var s' := Commit(s, sid);
            && s'.posted == s.posted + (if w in Open(s.posted) then [Frame(w)] else [Opening(s, k), Frame(w)])
            && w in Open(s'.posted)
  {
    var k := Role(s, sid).value;
    var w := At(s, k).value.win;
    TakenSame(s, sid);
    TakenOpening(s, sid, k);
    PresentedBy(Taken(s, sid), sid, k);
    OpenIffCreated(s, k);
    var s' := Commit(s, sid);
    assert s' == ShowBuffer(Taken(s, sid), sid, Buffer(true));
    if w in Open(s.posted) {
      Append(s.posted, Frame(w));
    } else {
      Append(s.posted, Opening(s, k));
      Append(s.posted + [Opening(s, k)], Frame(w));
      assert s'.posted == s.posted + [Opening(s, k)] + [Frame(w)];
    }
  }

  /** A commit without a buffer sends nothing, except that a null attach closes the popup of
      the surface iff the stream has it open. */
  lemma CommitHides(s: State, sid: Surface)
    requires Inv(s) && Staged(s, sid).pending == None
    ensures var s' := Commit(s, sid);
            if Staged(s, sid).attached && sid in s.surfacePopup && s.popups[s.surfacePopup[sid]].win in Open(s.posted)
            then s'.posted == s.posted + [Destroy(s.popups[s.surfacePopup[sid]].win)]
            else s'.posted == s.posted
  {
    TakenSame(s, sid);
    if Staged(s, sid).attached {
      if sid in s.surfacePopup { UnmapHides(s, sid, s.surfacePopup[sid]); }
    } else {
      assert Commit(s, sid) == Taken(s, sid);
    }
  }

  lemma UnmapHides(s: State, sid: Surface, o: Obj)
    requires Inv(s) && Staged(s, sid) == SurfaceRec(None, true) && sid in s.surfacePopup && o == s.surfacePopup[sid] && o in s.popups
    ensures Commit(s, sid).posted == s.posted + Closing(s.popups[o].win in Open(s.posted), s.popups[o].win)
  {
    TakenSame(s, sid);
    OpenIffCreated(s, KPopup(o));
    TakenOpening(s, sid, KPopup(o));
    assert Commit(s, sid) == HidePopup(Taken(s, sid), o);
    assert s.posted + [] == s.posted;
  }

  /** An unreadable buffer sends nothing. */
  lemma CommitUnreadable(s: State, sid: Surface)
    requires Staged(s, sid).pending == Some(Buffer(false))
    ensures Commit(s, sid).posted == s.posted
  {
    TakenSame(s, sid);
    assert Commit(s, sid) == ShowBuffer(Taken(s, sid), sid, Buffer(false));
    assert s.posted + [] == s.posted;
    UnreadableSub(Taken(s, sid), sid);
  }

  lemma UnreadableSub(s: State, sid: Surface)
    ensures PresentSub(s, sid, Buffer(false)).posted == s.posted
  {
    assert SubPainting(Resolve(s, sid), Buffer(false)) == [];
    assert s.posted + [] == s.posted;
  }

  // ---- subsurfaces -------------------------------------------------------

  lemma TakenWindow(s: State, sid: Surface, x: Surface)
    ensures WindowFor(Taken(s, sid), x) == WindowFor(s, x)
  {
  }

  lemma TakenLink(s: State, sid: Surface, x: Surface)
    ensures Link(Taken(s, sid), x) == Link(s, x) && Taken(s, sid).surfaceSub == s.surfaceSub
  {
    TakenSame(s, sid);
  }

  lemma {:induction false} TakenWalk(s: State, sid: Surface, cur: Surface, ox: I32, oy: I32, seen: set<Surface>)
    ensures Walk(Taken(s, sid), cur, ox, oy, seen) == Walk(s, cur, ox, oy, seen)
    decreases s.surfaceSub.Keys - seen
  {
    TakenLink(s, sid, cur);
    if cur !in seen && Link(s, cur).Some? {
      var rec := Link(s, cur).value;
      TakenWindow(s, sid, rec.parent);
      if WindowFor(s, rec.parent).None? {
        TakenWalk(s, sid, rec.parent, WrapI32(ox + rec.x), WrapI32(oy + rec.y), seen + {cur});
      }
    }
  }

  /** A readable buffer committed on a subsurface is composited onto the nearest windowed
      ancestor's window, at the sum of the positions up to it; without such an ancestor
      nothing is sent. */
  lemma CommitComposites(s: State, sid: Surface)
    requires Staged(s, sid).pending == Some(Buffer(true)) && s.cursor != Some(sid) && sid in s.surfaceSub
    ensures forall n: nat :: Nearest(s, sid, n) ==>
              && Link(s, sid).Some?
              && Commit(s, sid).posted == s.posted +
                 [SubFrame(WindowAt(s, sid, n).value, Link(s, sid).value.subId,
                           WrapI32(Offset(s, sid, n).0), WrapI32(Offset(s, sid, n).1))]
    ensures (forall n: nat :: !Nearest(s, sid, n)) ==> Commit(s, sid).posted == s.posted
  {
    var taken := Taken(s, sid);
    TakenSame(s, sid);
    TakenWalk(s, sid, sid, 0, 0, {});
    assert Resolve(taken, sid) == Resolve(s, sid);
    assert Commit(s, sid) == ShowBuffer(taken, sid, Buffer(true)) == PresentSub(taken, sid, Buffer(true));
    assert Commit(s, sid).posted == s.posted + SubPainting(Resolve(s, sid), Buffer(true));
    assert s.posted + [] == s.posted;
    ResolveIsPath(s, sid);
  }

  /** Destroying a subsurface removes its layer from the window its path led to, and sends
      nothing when the path led nowhere. */
  lemma ReapRemoves(s: State, obj: Obj)
    requires obj in s.subs
    ensures var rec := s.subs[obj];
            && (forall n: nat :: Nearest(s, rec.surface, n) ==>
                  ReapSub(s, obj).posted == s.posted + [SubDestroy(WindowAt(s, rec.surface, n).value, rec.subId)])
            && ((forall n: nat :: !Nearest(s, rec.surface, n)) ==> ReapSub(s, obj).posted == s.posted)
  {
    var rec := s.subs[obj];
    assert ReapSub(s, obj).posted == s.posted + Removal(Resolve(s, rec.surface), rec.subId);
    assert s.posted + [] == s.posted;
    ResolveIsPath(s, rec.surface);
  }

  // ---- over runs ---------------------------------------------------------

  /** In every reachable state a commit does what the lemmas above say. */
  lemma RunCommitPaints(pointers: seq<Pointer>, events: seq<Event>, sid: Surface)
    requires FreshIds(pointers, events)
    requires var s := Run(pointers, events);
             && Role(s, sid).Some? && Staged(s, sid).pending == Some(Buffer(true))
             && s.cursor != Some(sid) && sid !in s.surfaceSub
    ensures var s, k := Run(pointers, events), Role(Run(pointers, events), sid).value;
            && At(s, k).Some?
            && var w := At(s, k).value.win;
               && w in Open(Commit(s, sid).posted)
               && Commit(s, sid).posted == s.posted + (if w in Open(s.posted) then [Frame(w)] else [Opening(s, k), Frame(w)])
  {
    RunKeeps(pointers, events);
    RoleRecord(Run(pointers, events), sid);
    CommitPaints(Run(pointers, events), sid);
  }
}
