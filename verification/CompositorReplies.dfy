/** The commands each request sends, told by the records and the command stream: a window is
    destroyed iff the stream has it open, except that a popup always is. */
module CompositorReplies {
  import opened Prelude
  import opened Compositor
  import opened CompositorRun
  import opened CompositorLifecycle
  import opened CompositorCommit
  import opened CompositorSubsurface
  import opened CompositorStaging
  import F = CompositorFrames
  import O = CompositorOrphans

  /** Closes the window if the stream has it open. */
  function Closes(s: State, w: Win): seq<Cmd> { if w in Open(s.posted) then [Destroy(w)] else [] }

  /** A subsurface's layer is removed from the window its path leads to, if there is one. */
  ghost predicate Uncomposites(s: State, sub: Sub, more: seq<Cmd>) {
    && (forall n: nat :: Nearest(s, sub.surface, n) ==> more == [SubDestroy(WindowAt(s, sub.surface, n).value, sub.subId)])
    && ((forall n: nat :: !Nearest(s, sub.surface, n)) ==> more == [])
  }

  /** What a request other than a commit or the end of a surface sends; `o` is what the client
      offered on the surface the request makes the cursor. */
  ghost predicate Replies(s: State, e: Event, o: Offer, more: seq<Cmd>) {
    match e
    case ToplevelGone(obj) => more == if obj in s.toplevels then Closes(s, s.toplevels[obj].win) else []
    case LayerGone(obj) => more == if obj in s.layers then Closes(s, s.layers[obj].win) else []
    case PopupGone(obj) => more == if obj in s.popups then [Destroy(s.popups[obj].win)] else []
    case PopupGrab(obj) => more == if obj in s.popups then [SetGrab(Some(s.popups[obj].win))] else []
    case SubGone(obj) => if obj in s.subs then Uncomposites(s, s.subs[obj], more) else more == []
    case CursorSet(surface) =>
      more == if surface.None? then [HideCursor] else if o == Brought(Buffer(true)) then [SetCursorImage] else []
    case _ => more == []
  }

  lemma ToplevelGoneReplies(s: State, obj: Obj, o: Offer) returns (more: seq<Cmd>)
    requires Stream(s)
    ensures ReapToplevel(s, obj).posted == s.posted + more && Replies(s, ToplevelGone(obj), o, more)
  {
    more := [];
    if obj in s.toplevels {
      OpenIffCreated(s, KToplevel(obj));
      more := Closing(s.toplevels[obj].created, s.toplevels[obj].win);
    }
  }

  lemma LayerGoneReplies(s: State, obj: Obj, o: Offer) returns (more: seq<Cmd>)
    requires Stream(s)
    ensures ReapLayer(s, obj).posted == s.posted + more && Replies(s, LayerGone(obj), o, more)
  {
    F.ReapLayerPosts(s, obj);
    more := [];
    if obj in s.layers {
      OpenIffCreated(s, KLayer(obj));
      more := Closing(s.layers[obj].created, s.layers[obj].win);
    }
  }

  lemma PopupGoneReplies(s: State, obj: Obj, o: Offer) returns (more: seq<Cmd>)
    ensures ReapPopup(s, obj).posted == s.posted + more && Replies(s, PopupGone(obj), o, more)
  {
    more := if obj in s.popups then [Destroy(s.popups[obj].win)] else [];
  }

  lemma SubGoneReplies(s: State, obj: Obj, o: Offer) returns (more: seq<Cmd>)
    ensures ReapSub(s, obj).posted == s.posted + more && Replies(s, SubGone(obj), o, more)
  {
    more := [];
    if obj in s.subs {
      var rec := s.subs[obj];
      ReapRemoves(s, obj);
      if n: nat :| Nearest(s, rec.surface, n) {
        more := [SubDestroy(WindowAt(s, rec.surface, n).value, rec.subId)];
        forall m: nat | Nearest(s, rec.surface, m) ensures m == n { NearestUnique(s, rec.surface, m, n); }
      }
    }
  }

  lemma CursorReplies(s: State, surface: Option<Surface>, o: Offer) returns (more: seq<Cmd>)
    requires surface.Some? ==> Staged(s, surface.value) == Record(o)
    ensures SetCursor(s, surface).posted == s.posted + more && Replies(s, CursorSet(surface), o, more)
  {
    more := CursorCommands(s, surface);
  }

  lemma GrabReplies(s: State, obj: Obj, o: Offer) returns (more: seq<Cmd>)
    ensures Grab(s, obj).posted == s.posted + more && Replies(s, PopupGrab(obj), o, more)
  {
    more := if obj in s.popups then [SetGrab(Some(s.popups[obj].win))] else [];
  }

  lemma ShellReplies(s: State, e: Event, o: Offer) returns (more: seq<Cmd>)
    requires Stream(s) && IsShell(e)
    ensures ShellStep(s, e).posted == s.posted + more && Replies(s, e, o, more)
  {
    match e {
      case ToplevelGone(obj) => more := ToplevelGoneReplies(s, obj, o);
      case PopupGone(obj) => more := PopupGoneReplies(s, obj, o);
      case PopupGrab(obj) => more := GrabReplies(s, obj, o);
      case _ => more := [];
    }
  }

  lemma BarReplies(s: State, e: Event, o: Offer) returns (more: seq<Cmd>)
    requires Stream(s) && IsBar(e)
    ensures BarStep(s, e).posted == s.posted + more && Replies(s, e, o, more)
  {
    more := [];
    match e {
      case LayerMade(obj, sid) =>
      case LayerAnchor(obj, anchor) => F.SetAnchorOnly(s, obj, anchor);
      case LayerExclusive(obj, zone) => F.SetExclusiveOnly(s, obj, zone);
      case LayerGone(obj) => more := LayerGoneReplies(s, obj, o);
    }
  }

  lemma SideReplies(s: State, e: Event, o: Offer) returns (more: seq<Cmd>)
    requires IsSide(e)
    requires e.CursorSet? && e.surface.Some? ==> Staged(s, e.surface.value) == Record(o)
    ensures SideStep(s, e).posted == s.posted + more && Replies(s, e, o, more)
  {
    more := [];
    match e {
      case CreateSurface(sid) =>
      case AttachBuffer(sid, buffer) => F.AttachOnly(s, sid, buffer);
      case SubMade(obj, sid, above) => F.GetSubOnly(s, obj, sid, above);
      case SubMoved(obj, x, y) => F.SetPositionOnly(s, obj, x, y);
      case SubGone(obj) => more := SubGoneReplies(s, obj, o);
      case CursorSet(surface) => more := CursorReplies(s, surface, o);
    }
  }

  lemma StepReplies(s: State, e: Event, o: Offer) returns (more: seq<Cmd>)
    requires Stream(s) && !e.CommitSurface? && !e.SurfaceDestroyed?
    requires e.CursorSet? && e.surface.Some? ==> Staged(s, e.surface.value) == Record(o)
    ensures Step(s, e).posted == s.posted + more && Replies(s, e, o, more)
  {
    if IsShell(e) {
      more := ShellReplies(s, e, o);
    } else if IsBar(e) {
      more := BarReplies(s, e, o);
    } else if IsSide(e) {
      more := SideReplies(s, e, o);
    } else {
      ReactOnly(s, e.input);
      more := [];
    }
  }

  /** The cursor surface a request names. */
  function OfferFor(events: seq<Event>, e: Event): Offer {
    if e.CursorSet? && e.surface.Some? then Offered(events, e.surface.value) else Nothing
  }

  /** On every run: what a request sends, a commit's reply being that of `CommitOfRun`. */
  lemma RepliesOfRun(pointers: seq<Pointer>, events: seq<Event>, e: Event) returns (more: seq<Cmd>)
    requires FreshIds(pointers, events) && !e.CommitSurface? && !e.SurfaceDestroyed?
    ensures var s, s' := Run(pointers, events), Run(pointers, events + [e]);
            s'.posted == s.posted + more && Replies(s, e, OfferFor(events, e), more)
  {
    RunKeeps(pointers, events);
    if e.CursorSet? && e.surface.Some? { StagedOfRun(pointers, events, e.surface.value); }
    more := StepReplies(Run(pointers, events), e, OfferFor(events, e));
    O.RunSnoc(pointers, events, e);
  }

  // ---- the end of a surface ----------------------------------------------

  /** The surface's toplevel is closed first, then its layer on another window is removed, and
      its bar is closed last; its popup is left to its own object. */
  ghost predicate Ends(s: State, sid: Surface, more: seq<Cmd>) {
    exists sub: seq<Cmd> {:trigger SubEnds(s, sid, sub)} ::
      && SubEnds(s, sid, sub)
      && more == ToplevelEnds(s, sid) + sub + BarEnds(s, sid)
  }

  function ToplevelEnds(s: State, sid: Surface): seq<Cmd> {
    if sid in s.surfaceToplevel && s.surfaceToplevel[sid] in s.toplevels then Closes(s, s.toplevels[s.surfaceToplevel[sid]].win) else []
  }

  function BarEnds(s: State, sid: Surface): seq<Cmd> {
    if sid in s.surfaceLayer && s.surfaceLayer[sid] in s.layers then Closes(s, s.layers[s.surfaceLayer[sid]].win) else []
  }

  /** The path is that of the state in which the surface has lost its toplevel. */
  ghost predicate SubEnds(s: State, sid: Surface, sub: seq<Cmd>) {
    if sid in s.surfaceSub && s.surfaceSub[sid] in s.subs then Uncomposites(LoseToplevel(s, sid), s.subs[s.surfaceSub[sid]], sub)
    else sub == []
  }

  lemma ToplevelEnded(s: State, sid: Surface)
    requires Stream(s)
    ensures LoseToplevel(s, sid).posted == s.posted + ToplevelEnds(s, sid)
  {
    if sid in s.surfaceToplevel && s.surfaceToplevel[sid] in s.toplevels {
      OpenIffCreated(s, KToplevel(s.surfaceToplevel[sid]));
    } else {
      assert s.posted + [] == s.posted;
    }
  }

  lemma BarEnded(s: State, s': State, sid: Surface)
    requires Stream(s) && s'.layers == s.layers && s'.surfaceLayer == s.surfaceLayer
    ensures LoseLayer(s', sid).posted == s'.posted + BarEnds(s, sid)
  {
    if sid in s.surfaceLayer {
      F.ReapLayerPosts(s', s.surfaceLayer[sid]);
      if s.surfaceLayer[sid] in s.layers { OpenIffCreated(s, KLayer(s.surfaceLayer[sid])); }
    } else {
      assert s'.posted + [] == s'.posted;
    }
  }

  lemma SubEnded(s: State, sid: Surface) returns (sub: seq<Cmd>)
    ensures LoseSub(LoseToplevel(s, sid), sid).posted == LoseToplevel(s, sid).posted + sub && SubEnds(s, sid, sub)
    ensures LoseSub(LoseToplevel(s, sid), sid).layers == s.layers && LoseSub(LoseToplevel(s, sid), sid).surfaceLayer == s.surfaceLayer
  {
    var s1 := LoseToplevel(s, sid);
    F.LoseToplevelOnly(s, sid);
    sub := [];
    if sid in s.surfaceSub {
      sub := SubGoneReplies(s1, s.surfaceSub[sid], Nothing);
      F.ReapSubOnly(s1, s.surfaceSub[sid]);
    }
  }

  lemma DestroyPosts(s: State, sid: Surface)
    ensures DestroySurface(s, sid).posted == LoseLayer(LoseSub(LoseToplevel(s, sid), sid), sid).posted
  {
  }

  lemma DestroyEnds(s: State, sid: Surface) returns (more: seq<Cmd>)
    requires Stream(s)
    ensures DestroySurface(s, sid).posted == s.posted + more && Ends(s, sid, more)
  {
    var s1 := LoseToplevel(s, sid);
    var s2 := LoseSub(s1, sid);
    ToplevelEnded(s, sid);
    var sub := SubEnded(s, sid);
    BarEnded(s, s2, sid);
    DestroyPosts(s, sid);
    more := ToplevelEnds(s, sid) + sub + BarEnds(s, sid);
    Posted3(s.posted, s1.posted, s2.posted, ToplevelEnds(s, sid), sub, BarEnds(s, sid));
    assert SubEnds(s, sid, sub);
  }

  lemma Posted3(p: seq<Cmd>, p1: seq<Cmd>, p2: seq<Cmd>, a: seq<Cmd>, b: seq<Cmd>, c: seq<Cmd>)
    requires p1 == p + a && p2 == p1 + b
    ensures p2 + c == p + (a + b + c)
  {
  }

  /** On every run: what the end of a surface sends. */
  lemma EndsOfRun(pointers: seq<Pointer>, events: seq<Event>, sid: Surface) returns (more: seq<Cmd>)
    requires FreshIds(pointers, events)
    ensures var s, s' := Run(pointers, events), Run(pointers, events + [SurfaceDestroyed(sid)]);
            s'.posted == s.posted + more && Ends(s, sid, more)
  {
    RunKeeps(pointers, events);
    more := DestroyEnds(Run(pointers, events), sid);
    O.DestroyStep(Run(pointers, events), sid);
    O.RunSnoc(pointers, events, SurfaceDestroyed(sid));
  }
}
