/** What a commit finds staged and what it therefore sends, told by the requests alone. */
module CompositorStaging {
  import opened Prelude
  import opened Compositor
  import opened CompositorRun
  import opened CompositorLifecycle
  import opened CompositorCommit
  import opened CompositorSubsurface
  import F = CompositorFrames
  import O = CompositorOrphans

  /** What a client last attached to a surface that it has not committed since: nothing, no
      buffer, a buffer, or one that a cursor request has already used. */
  datatype Offer = Nothing | NoBuffer | Brought(buffer: Buffer) | Used

  function Offered(events: seq<Event>, sid: Surface): Offer {
    if |events| == 0 then Nothing
    else
      var init := events[..|events| - 1];
      OfferStep(Offered(init, sid), O.Lives(init, sid), events[|events| - 1], sid)
  }

  function OfferStep(before: Offer, lives: bool, e: Event, sid: Surface): Offer {
    match e
    case CreateSurface(x) => if x == sid then Nothing else before
    case SurfaceDestroyed(x) => if x == sid then Nothing else before
    case CommitSurface(x) => if x == sid then Nothing else before
    case AttachBuffer(x, buffer) =>
      if x != sid || !lives then before else if buffer.Some? then Brought(buffer.value) else NoBuffer
    case CursorSet(x) => if x == Some(sid) && before.Brought? then Used else before
    case _ => before
  }

  /** The staged buffer and the attach mark. */
  function Record(o: Offer): SurfaceRec {
    match o
    case Nothing => SurfaceRec(None, false)
    case NoBuffer => SurfaceRec(None, true)
    case Brought(buffer) => SurfaceRec(Some(buffer), true)
    case Used => SurfaceRec(None, true)
  }

  // ---- every step --------------------------------------------------------

  lemma SideStages(s: State, e: Event, sid: Surface, o: Offer)
    requires IsSide(e) && Staged(s, sid) == Record(o) && (sid !in s.surfaces ==> o == Nothing)
    ensures Staged(SideStep(s, e), sid) == Record(OfferStep(o, sid in s.surfaces, e, sid))
  {
    match e {
      case SubMade(obj, x, above) => F.GetSubOnly(s, obj, x, above);
      case SubMoved(obj, x, y) => F.SetPositionOnly(s, obj, x, y);
      case SubGone(obj) => F.ReapSubOnly(s, obj);
      case CreateSurface(x) => assert SideStep(s, e).surfaces == s.surfaces[x := SurfaceRec(None, false)];
      case AttachBuffer(x, buffer) => AttachStages(s, x, buffer, sid, o);
      case CursorSet(surface) => CursorStages(s, surface, sid, o);
    }
  }

  lemma AttachStages(s: State, x: Surface, buffer: Option<Buffer>, sid: Surface, o: Offer)
    requires Staged(s, sid) == Record(o) && (sid !in s.surfaces ==> o == Nothing)
    ensures Staged(Attach(s, x, buffer), sid) == Record(OfferStep(o, sid in s.surfaces, AttachBuffer(x, buffer), sid))
  {
    if x in s.surfaces { assert Attach(s, x, buffer).surfaces == s.surfaces[x := SurfaceRec(buffer, true)]; }
    else { assert Attach(s, x, buffer) == s; }
  }

  lemma CursorStages(s: State, surface: Option<Surface>, sid: Surface, o: Offer)
    requires Staged(s, sid) == Record(o) && (sid !in s.surfaces ==> o == Nothing)
    ensures Staged(SetCursor(s, surface), sid) == Record(OfferStep(o, sid in s.surfaces, CursorSet(surface), sid))
  {
  }

  lemma StepStages(s: State, e: Event, sid: Surface, o: Offer)
    requires Staged(s, sid) == Record(o) && (sid !in s.surfaces ==> o == Nothing)
    ensures Staged(Step(s, e), sid) == Record(OfferStep(o, sid in s.surfaces, e, sid))
  {
    if IsShell(e) {
      F.ShellOnly(s, e);
    } else if IsBar(e) {
      F.BarOnly(s, e);
    } else if IsSide(e) {
      SideStages(s, e, sid, o);
    } else {
      match e {
        case CommitSurface(x) => F.CommitOnly(s, x);
        case SurfaceDestroyed(x) => F.DestroyOnly(s, x);
        case Pointing(input) => ReactOnly(s, input);
      }
    }
  }

  lemma {:induction false} DeadOffersNothing(events: seq<Event>, sid: Surface)
    ensures !O.Lives(events, sid) ==> Offered(events, sid) == Nothing
  {
    if |events| > 0 { DeadOffersNothing(events[..|events| - 1], sid); }
  }

  /** On every run what is staged for a surface is what the requests offered. */
  lemma {:induction false} StagedOfRun(pointers: seq<Pointer>, events: seq<Event>, sid: Surface)
    ensures Staged(Run(pointers, events), sid) == Record(Offered(events, sid))
  {
    if |events| > 0 {
      var init := events[..|events| - 1];
      StagedOfRun(pointers, init, sid);
      DeadOffersNothing(init, sid);
      O.SurfacesOfRun(pointers, init, sid);
      StepStages(Run(pointers, init), events[|events| - 1], sid, Offered(init, sid));
    }
  }

  // ---- what a commit sends -----------------------------------------------

  /** A surface on top of another: its pixels go to the nearest windowed ancestor's window at
      the summed positions, if there is one. */
  ghost predicate Composites(s: State, sid: Surface, more: seq<Cmd>) {
    && (forall n: nat :: Nearest(s, sid, n) ==>
          && Link(s, sid).Some?
          && more == [SubFrame(WindowAt(s, sid, n).value, Link(s, sid).value.subId,
                               WrapI32(Offset(s, sid, n).0), WrapI32(Offset(s, sid, n).1))])
    && ((forall n: nat :: !Nearest(s, sid, n)) ==> more == [])
  }

  /** A surface with a window: one frame, after opening the window iff the stream has it closed. */
  predicate Paints(s: State, sid: Surface, more: seq<Cmd>) {
    match Role(s, sid)
    case None => more == []
    case Some(k) =>
      At(s, k).Some? &&
      var w := At(s, k).value.win;
      more == if w in Open(s.posted) then [Frame(w)] else [Opening(s, k), Frame(w)]
  }

  /** The surface's popup is closed iff the stream has it open. */
  predicate Hides(s: State, sid: Surface, more: seq<Cmd>) {
    if sid in s.surfacePopup then
      s.surfacePopup[sid] in s.popups &&
      var w := s.popups[s.surfacePopup[sid]].win;
      more == if w in Open(s.posted) then [Destroy(w)] else []
    else more == []
  }

  /** The commands a commit sends for what was offered. */
  ghost predicate Sends(s: State, sid: Surface, o: Offer, more: seq<Cmd>) {
    match o
    case Nothing => more == []
    case NoBuffer => Hides(s, sid, more)
    case Used => Hides(s, sid, more)
    case Brought(buffer) =>
      if !buffer.readable then more == []
      else if s.cursor == Some(sid) then more == [SetCursorImage]
      else if sid in s.surfaceSub then Composites(s, sid, more)
      else Paints(s, sid, more)
  }

  lemma ShownSends(s: State, sid: Surface) returns (more: seq<Cmd>)
    requires Inv(s) && Staged(s, sid).pending == Some(Buffer(true))
    ensures Commit(s, sid).posted == s.posted + more && Sends(s, sid, Brought(Buffer(true)), more)
  {
    TakenSame(s, sid);
    if s.cursor == Some(sid) {
      more := [SetCursorImage];
      assert Commit(s, sid) == ShowBuffer(Taken(s, sid), sid, Buffer(true));
    } else if sid in s.surfaceSub {
      more := SubSends(s, sid);
    } else if Role(s, sid).Some? {
      RoleRecord(s, sid);
      CommitPaints(s, sid);
      var k := Role(s, sid).value;
      var w := At(s, k).value.win;
      more := if w in Open(s.posted) then [Frame(w)] else [Opening(s, k), Frame(w)];
    } else {
      more := [];
      assert Commit(s, sid) == ShowBuffer(Taken(s, sid), sid, Buffer(true));
    }
  }

  lemma SubSends(s: State, sid: Surface) returns (more: seq<Cmd>)
    requires Staged(s, sid).pending == Some(Buffer(true)) && s.cursor != Some(sid) && sid in s.surfaceSub
    ensures Commit(s, sid).posted == s.posted + more && Composites(s, sid, more)
  {
    CommitComposites(s, sid);
    if n: nat :| Nearest(s, sid, n) {
      more := [SubFrame(WindowAt(s, sid, n).value, Link(s, sid).value.subId,
                        WrapI32(Offset(s, sid, n).0), WrapI32(Offset(s, sid, n).1))];
      forall m: nat | Nearest(s, sid, m) ensures m == n { NearestUnique(s, sid, m, n); }
    } else {
      more := [];
    }
  }

  lemma CommitSends(s: State, sid: Surface, o: Offer) returns (more: seq<Cmd>)
    requires Inv(s) && Staged(s, sid) == Record(o)
    ensures Commit(s, sid).posted == s.posted + more && Sends(s, sid, o, more)
  {
    if o.Brought? {
      if o.buffer.readable {
        assert o.buffer == Buffer(true);
        more := ShownSends(s, sid);
      } else {
        assert o.buffer == Buffer(false);
        CommitUnreadable(s, sid);
        more := [];
      }
    } else {
      CommitHides(s, sid);
      var hidden := o != Nothing && sid in s.surfacePopup && s.popups[s.surfacePopup[sid]].win in Open(s.posted);
      more := if hidden then [Destroy(s.popups[s.surfacePopup[sid]].win)] else [];
    }
  }

  /** On every run a commit sends what the last attach calls for, the one since the surface's
      creation and its last commit; a buffer counts once, for the commit or for the cursor. */
  lemma CommitOfRun(pointers: seq<Pointer>, events: seq<Event>, sid: Surface) returns (more: seq<Cmd>)
    requires FreshIds(pointers, events)
    ensures var s, s' := Run(pointers, events), Run(pointers, events + [CommitSurface(sid)]);
            s'.posted == s.posted + more && Sends(s, sid, Offered(events, sid), more)
  {
    RunKeeps(pointers, events);
    StagedOfRun(pointers, events, sid);
    more := CommitSends(Run(pointers, events), sid, Offered(events, sid));
    O.RunSnoc(pointers, events, CommitSurface(sid));
  }

  /** So the commit paints in a window iff the last attach brought a readable buffer and the
      surface has one, and closes a window iff the last attach brought none, or one already
      used for the cursor, and the surface's popup is open. */
  lemma CommitEffects(pointers: seq<Pointer>, events: seq<Event>, sid: Surface, w: Win)
    requires FreshIds(pointers, events)
    ensures var s, o := Run(pointers, events), Offered(events, sid);
            var s' := Run(pointers, events + [CommitSurface(sid)]);
            && s.posted <= s'.posted
            && (Frame(w) in s'.posted[|s.posted|..] <==>
                && o == Brought(Buffer(true)) && s.cursor != Some(sid) && sid !in s.surfaceSub
                && Role(s, sid).Some? && At(s, Role(s, sid).value).Some? && At(s, Role(s, sid).value).value.win == w)
            && (Destroy(w) in s'.posted[|s.posted|..] <==>
                && (o == NoBuffer || o == Used) && sid in s.surfacePopup && s.surfacePopup[sid] in s.popups
                && s.popups[s.surfacePopup[sid]].win == w && w in Open(s.posted))
  {
    var more := CommitOfRun(pointers, events, sid);
    var s, s' := Run(pointers, events), Run(pointers, events + [CommitSurface(sid)]);
    assert s'.posted[|s.posted|..] == more;
    SendsEffects(s, sid, Offered(events, sid), more, w);
  }

  lemma SendsEffects(s: State, sid: Surface, o: Offer, more: seq<Cmd>, w: Win)
    requires Sends(s, sid, o, more)
    ensures Frame(w) in more <==>
            && o == Brought(Buffer(true)) && s.cursor != Some(sid) && sid !in s.surfaceSub
            && Role(s, sid).Some? && At(s, Role(s, sid).value).Some? && At(s, Role(s, sid).value).value.win == w
    ensures Destroy(w) in more <==>
            && (o == NoBuffer || o == Used) && sid in s.surfacePopup && s.surfacePopup[sid] in s.popups
            && s.popups[s.surfacePopup[sid]].win == w && w in Open(s.posted)
  {
    if o.Brought? && o.buffer.readable {
      assert o.buffer == Buffer(true);
      if s.cursor != Some(sid) && sid in s.surfaceSub {
        if n: nat :| Nearest(s, sid, n) { assert |more| == 1 && more[0].SubFrame?; }
      }
    }
  }
}
