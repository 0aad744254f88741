/** The pointer protocol over every run: motion and buttons go to the surface most recently
    entered, and a surface is entered only after the old one was left, unless the old
    window is no longer registered. The pointers are those bound before the run. */
module CompositorPointer {
  import opened Prelude
  import opened Compositor
  import opened CompositorRun
  import opened CompositorRegistry

  datatype Inside = Inside(surface: Surface, win: Win)

  /** The surface the pointer entered last and has not left, destroyed since or not; when a
      message can name a destroyed surface is the subject of `CompositorOrphans`. */
  function Current(sent: seq<Sent>, p: Pointer): Option<Inside> {
    if |sent| == 0 then None else After(Current(sent[..|sent| - 1], p), p, sent[|sent| - 1])
  }

  function After(cur: Option<Inside>, p: Pointer, m: Sent): Option<Inside> {
    if m.pointer != p then cur
    else if m.Enter? then Some(Inside(m.surface, m.win))
    else if m.Leave? then None
    else cur
  }

  /** A message the client may receive while its pointer is in `cur`. */
  predicate Legal(cur: Option<Inside>, m: Sent, registered: set<Win>) {
    match m
    case Enter(_, _, _) => cur.None? || cur.value.win !in registered
    case Leave(_, sid, win) => cur == Some(Inside(sid, win))
    case Motion(_, sid) => cur.Some? && cur.value.surface == sid
    case Button(_, sid) => cur.Some? && cur.value.surface == sid
  }

  predicate AllLegal(before: seq<Sent>, msgs: seq<Sent>, registered: set<Win>) {
    |msgs| == 0
    || (var n := |msgs| - 1;
        AllLegal(before, msgs[..n], registered) && Legal(Current(before + msgs[..n], msgs[n].pointer), msgs[n], registered))
  }

  // ---- batches of messages -----------------------------------------------

  lemma CurrentAppend(sent: seq<Sent>, m: Sent, p: Pointer)
    ensures Current(sent + [m], p) == After(Current(sent, p), p, m)
  {
    assert (sent + [m])[..|sent|] == sent;
  }

  lemma LegalAppend(before: seq<Sent>, msgs: seq<Sent>, m: Sent, registered: set<Win>)
    ensures AllLegal(before, msgs + [m], registered)
            <==> AllLegal(before, msgs, registered) && Legal(Current(before + msgs, m.pointer), m, registered)
  {
    assert (msgs + [m])[..|msgs|] == msgs;
  }

  lemma {:induction false} LegalConcat(before: seq<Sent>, a: seq<Sent>, b: seq<Sent>, registered: set<Win>)
    requires AllLegal(before, a, registered) && AllLegal(before + a, b, registered)
    ensures AllLegal(before, a + b, registered)
  {
    if |b| == 0 {
      assert a + b == a;
    } else {
      var init, m := b[..|b| - 1], b[|b| - 1];
      LegalConcat(before, a, init, registered);
      ConcatAssoc(a, init, [m]);
      ConcatAssoc(before, a, init);
      LegalAppend(before, a + init, m, registered);
      assert b == init + [m];
    }
  }

  lemma MessagesSnoc(kind: Kind, ps: seq<Pointer>, sid: Surface, win: Win)
    requires |ps| > 0
    ensures var n := |ps| - 1;
            Messages(kind, ps, sid, win) == Messages(kind, ps[..n], sid, win) + [Message(kind, ps[n], sid, win)]
  {
    if |ps| > 1 {
      MessagesSnoc(kind, ps[1..], sid, win);
      assert ps[1..][..|ps| - 2] == ps[..|ps| - 1][1..];
    } else {
      assert ps == [ps[0]];
    }
  }

  /** A batch moves the pointers it is sent to, and no others. */
  lemma {:induction false} CurrentMessages(sent: seq<Sent>, kind: Kind, ps: seq<Pointer>, sid: Surface, win: Win, p: Pointer)
    ensures Current(sent + Messages(kind, ps, sid, win), p) ==
            if p in ps then After(Current(sent, p), p, Message(kind, p, sid, win)) else Current(sent, p)
  {
    if |ps| == 0 {
      assert sent + Messages(kind, ps, sid, win) == sent;
    } else {
      var n := |ps| - 1;
      var init := Messages(kind, ps[..n], sid, win);
      MessagesSnoc(kind, ps, sid, win);
      CurrentMessages(sent, kind, ps[..n], sid, win, p);
      assert sent + Messages(kind, ps, sid, win) == (sent + init) + [Message(kind, ps[n], sid, win)];
      CurrentAppend(sent + init, Message(kind, ps[n], sid, win), p);
      assert ps == ps[..n] + [ps[n]];
    }
  }

  lemma {:induction false} MessagesLegal(sent: seq<Sent>, kind: Kind, ps: seq<Pointer>, sid: Surface, win: Win, registered: set<Win>)
    requires Distinct(ps)
    requires forall p :: p in ps ==> Legal(Current(sent, p), Message(kind, p, sid, win), registered)
    ensures AllLegal(sent, Messages(kind, ps, sid, win), registered)
  {
    if |ps| > 0 {
      var init, p := ps[..|ps| - 1], ps[|ps| - 1];
      MessagesSnoc(kind, ps, sid, win);
      MessagesLegal(sent, kind, init, sid, win, registered);
      CurrentMessages(sent, kind, init, sid, win, p);
      assert p !in init && p in ps;
      MessageTo(kind, p, sid, win);
      LegalAppend(sent, Messages(kind, init, sid, win), Message(kind, p, sid, win), registered);
    }
  }

  lemma MessageTo(kind: Kind, p: Pointer, sid: Surface, win: Win)
    ensures Message(kind, p, sid, win).pointer == p
  {
  }

  lemma {:induction false} PointersDistinct(ps: seq<Pointer>, client: nat)
    requires Distinct(ps)
    ensures Distinct(PointersFor(ps, client))
  {
    if |ps| > 0 {
      PointersDistinct(ps[1..], client);
      assert ps[0] !in ps[1..];
    }
  }

  // ---- the invariant -----------------------------------------------------

  predicate Bounded(s: State) {
    && (forall w :: w in s.windowSurface ==> w < s.nextWin)
    && (s.focus.Some? ==> s.focus.value < s.nextWin)
  }

  /** The pointers of a focused, registered window's client are inside its surface. */
  predicate FocusEntered(s: State) {
    s.focus.Some? && s.focus.value in s.windowSurface ==>
      forall p :: p in s.pointers && p.client == s.windowSurface[s.focus.value].client ==>
        Current(s.sent, p) == Some(Inside(s.windowSurface[s.focus.value], s.focus.value))
  }

  /** A pointer inside a window that is still registered is inside the focused window, and
      belongs to the client of its surface. */
  predicate InsideFocused(s: State, p: Pointer) {
    match Current(s.sent, p)
    case None => true
    case Some(in_) =>
      && in_.win < s.nextWin
      && (in_.win in s.windowSurface ==>
            s.focus == Some(in_.win) && s.windowSurface[in_.win] == in_.surface && p.client == in_.surface.client)
  }

  predicate Protocol(s: State) {
    && Distinct(s.pointers) && Bounded(s) && FocusEntered(s)
    && (forall p :: p in s.pointers ==> InsideFocused(s, p))
  }

  // ---- steps without messages --------------------------------------------

  /** No message, and registrations only lost, or made for a new window. */
  predicate Narrows(s: State, s': State) {
    && s'.focus == s.focus && s'.sent == s.sent && s'.pointers == s.pointers && s'.nextWin >= s.nextWin
    && (forall w :: w in s'.windowSurface ==> w < s'.nextWin)
    && (forall w :: w in s'.windowSurface && w < s.nextWin ==> w in s.windowSurface && s'.windowSurface[w] == s.windowSurface[w])
  }

  lemma NarrowsKeeps(s: State, s': State)
    requires Protocol(s) && Narrows(s, s')
    ensures Protocol(s')
  {
    forall p | p in s'.pointers ensures InsideFocused(s', p) {
      assert InsideFocused(s, p);
    }
  }

  // ---- input -------------------------------------------------------------

  /** What leaving the focus does to the pointers. */
  lemma LeaveLegal(s: State)
    requires Protocol(s)
    ensures AllLegal(s.sent, LeaveMessages(s), s.windowSurface.Keys)
    ensures forall p :: p in s.pointers ==>
      var cur := Current(s.sent + LeaveMessages(s), p);
      cur == None || (cur == Current(s.sent, p) && cur.value.win !in s.windowSurface)
  {
    if s.focus.Some? && s.focus.value in s.windowSurface {
      var w := s.focus.value;
      var sid := s.windowSurface[w];
      var ps := PointersFor(s.pointers, sid.client);
      PointersDistinct(s.pointers, sid.client);
      MessagesLegal(s.sent, KLeave, ps, sid, w, s.windowSurface.Keys);
      forall p | p in s.pointers
        ensures var cur := Current(s.sent + LeaveMessages(s), p);
                cur == None || (cur == Current(s.sent, p) && cur.value.win !in s.windowSurface)
      {
        CurrentMessages(s.sent, KLeave, ps, sid, w, p);
        assert InsideFocused(s, p);
      }
    } else {
      assert s.sent + LeaveMessages(s) == s.sent;
      forall p | p in s.pointers
        ensures Current(s.sent, p) == None || Current(s.sent, p).value.win !in s.windowSurface
      {
        assert InsideFocused(s, p);
      }
    }
  }

  lemma LeaveFocusKeeps(s: State)
    requires Protocol(s)
    ensures Protocol(LeaveFocus(s))
  {
    var s' := LeaveFocus(s);
    LeaveLegal(s);
    forall p | p in s'.pointers ensures InsideFocused(s', p) {
      assert InsideFocused(s, p);
      var cur := Current(s.sent + LeaveMessages(s), p);
      assert cur == None || (cur == Current(s.sent, p) && cur.value.win !in s.windowSurface);
    }
  }

  /** Entering a registered window from a state where nothing registered has the focus. */
  lemma EnterLegal(s: State, win: Win)
    requires Protocol(s) && s.focus == None && win in s.windowSurface
    ensures AllLegal(s.sent, ToSurface(s, KEnter, s.windowSurface[win], win), s.windowSurface.Keys)
    ensures Protocol(Pointed(s, Some(win), s.sent + ToSurface(s, KEnter, s.windowSurface[win], win)))
  {
    var sid := s.windowSurface[win];
    var ps := PointersFor(s.pointers, sid.client);
    var s' := Pointed(s, Some(win), s.sent + ToSurface(s, KEnter, sid, win));
    PointersDistinct(s.pointers, sid.client);
    forall p | p in s.pointers ensures Current(s.sent, p) == None || Current(s.sent, p).value.win !in s.windowSurface {
      assert InsideFocused(s, p);
    }
    MessagesLegal(s.sent, KEnter, ps, sid, win, s.windowSurface.Keys);
    forall p | p in s.pointers
      ensures InsideFocused(s', p) && (p.client == sid.client ==> Current(s'.sent, p) == Some(Inside(sid, win)))
    {
      CurrentMessages(s.sent, KEnter, ps, sid, win, p);
      assert InsideFocused(s, p);
    }
  }

  /** The messages of a step are legal after those before it. */
  predicate Follows(s: State, s': State) {
    && |s.sent| <= |s'.sent| && s'.sent[..|s.sent|] == s.sent
    && AllLegal(s.sent, s'.sent[|s.sent|..], s.windowSurface.Keys)
  }

  lemma FollowsBy(s: State, s': State, msgs: seq<Sent>)
    requires s'.sent == s.sent + msgs && AllLegal(s.sent, msgs, s.windowSurface.Keys)
    ensures Follows(s, s')
  {
    assert s'.sent[|s.sent|..] == msgs;
  }

  /** Input that changes nothing. */
  lemma StillProtocol(s: State, s': State)
    requires Protocol(s) && s' == Pointed(s, s.focus, s.sent)
    ensures Protocol(s') && Follows(s, s')
  {
    NarrowsKeeps(s, s');
    FollowsBy(s, s', []);
  }

  lemma EnsureKeeps(s: State, win: Win)
    requires Protocol(s)
    ensures Protocol(EnsureFocus(s, win)) && Follows(s, EnsureFocus(s, win))
  {
    if win !in s.windowSurface || s.focus == Some(win) {
      StillProtocol(s, EnsureFocus(s, win));
    } else {
      var left := LeaveFocus(s);
      var leave, enter := LeaveMessages(s), ToSurface(s, KEnter, s.windowSurface[win], win);
      LeaveLegal(s);
      LeaveFocusKeeps(s);
      EnterLegal(left, win);
      LegalConcat(s.sent, leave, enter, s.windowSurface.Keys);
      ConcatAssoc(s.sent, leave, enter);
      assert EnsureFocus(s, win) == Pointed(left, Some(win), left.sent + enter);
      FollowsBy(s, EnsureFocus(s, win), leave + enter);
    }
  }

  /** A message of no consequence for where pointers are. */
  lemma DeliverKeeps(s: State, kind: Kind, win: Win)
    requires Protocol(s) && s.focus == Some(win) && win in s.windowSurface
    requires kind.KMotion? || kind.KButton?
    ensures var msgs := ToSurface(s, kind, s.windowSurface[win], win);
            AllLegal(s.sent, msgs, s.windowSurface.Keys) && Protocol(Pointed(s, s.focus, s.sent + msgs))
  {
    var sid := s.windowSurface[win];
    var ps := PointersFor(s.pointers, sid.client);
    var s' := Pointed(s, s.focus, s.sent + ToSurface(s, kind, sid, win));
    PointersDistinct(s.pointers, sid.client);
    MessagesLegal(s.sent, kind, ps, sid, win, s.windowSurface.Keys);
    forall p ensures Current(s'.sent, p) == Current(s.sent, p) {
      CurrentMessages(s.sent, kind, ps, sid, win, p);
    }
    forall p | p in s.pointers ensures InsideFocused(s', p) {
      assert InsideFocused(s, p);
    }
  }

  lemma FollowsOn(s: State, mid: State, s': State, msgs: seq<Sent>)
    requires Follows(s, mid) && AllLegal(mid.sent, msgs, s.windowSurface.Keys) && s'.sent == mid.sent + msgs
    ensures Follows(s, s')
  {
    var first := mid.sent[|s.sent|..];
    assert mid.sent == s.sent + first;
    LegalConcat(s.sent, first, msgs, s.windowSurface.Keys);
    ConcatAssoc(s.sent, first, msgs);
    FollowsBy(s, s', first + msgs);
  }

  /** Input handled after making sure its window has the focus. */
  lemma DeliveredKeeps(s: State, s': State, kind: Kind, win: Win)
    requires Protocol(s) && win in s.windowSurface && (kind.KMotion? || kind.KButton?)
    requires s' == Pointed(s, EnsuredFocus(s, win), DeliveredSent(s, kind, win))
    ensures Protocol(s') && Follows(s, s')
  {
    var mid := EnsureFocus(s, win);
    var msgs := ToSurface(s, kind, s.windowSurface[win], win);
    EnsureKeeps(s, win);
    assert ToSurface(mid, kind, mid.windowSurface[win], win) == msgs;
    DeliverKeeps(mid, kind, win);
    assert Pointed(mid, mid.focus, mid.sent + msgs) == s';
    FollowsOn(s, mid, s', msgs);
  }

  lemma LeaveKeeps(s: State, win: Win)
    requires Protocol(s)
    ensures Protocol(OnLeave(s, win)) && Follows(s, OnLeave(s, win))
  {
    if !Leaves(s, win) {
      StillProtocol(s, OnLeave(s, win));
    } else {
      LeaveLegal(s);
      LeaveFocusKeeps(s);
      FollowsBy(s, LeaveFocus(s), LeaveMessages(s));
    }
  }

  lemma ReactKeeps(s: State, i: Input)
    requires Protocol(s)
    ensures Protocol(React(s, i)) && Follows(s, React(s, i))
  {
    match i {
      case PointerEnter(win) => EnsureKeeps(s, win);
      case PointerMotion(win) =>
        if win in s.windowSurface { DeliveredKeeps(s, OnMotion(s, win), KMotion, win); } else { StillProtocol(s, OnMotion(s, win)); }
      case PointerButton(win) =>
        if win in s.windowSurface { DeliveredKeeps(s, OnButton(s, win), KButton, win); } else { StillProtocol(s, OnButton(s, win)); }
      case PointerLeave(win) => LeaveKeeps(s, win);
    }
  }

  // ---- requests ----------------------------------------------------------

  lemma ToplevelMadeNarrows(s: State, obj: Obj, sid: Surface)
    ensures Bounded(s) ==> Narrows(s, GetToplevel(s, obj, sid))
  {
  }

  lemma PopupMadeNarrows(s: State, obj: Obj, sid: Surface, parent: Option<Surface>)
    ensures Bounded(s) ==> Narrows(s, GetPopup(s, obj, sid, parent))
  {
  }

  lemma LayerMadeNarrows(s: State, obj: Obj, sid: Surface)
    ensures Bounded(s) ==> Narrows(s, GetLayer(s, obj, sid))
  {
  }

  lemma ToplevelGoneNarrows(s: State, obj: Obj)
    ensures Bounded(s) ==> Narrows(s, ReapToplevel(s, obj))
  {
  }

  lemma PopupGoneNarrows(s: State, obj: Obj)
    ensures Bounded(s) ==> Narrows(s, ReapPopup(s, obj))
  {
  }

  lemma LayerGoneQuiet(s: State, obj: Obj)
    ensures Quiet(s, ReapLayer(s, obj)) && ReapLayer(s, obj).nextWin == s.nextWin
  {
    if obj in s.layers {
      assert ReapLayer(s, obj).focus == s.focus;
    }
  }

  lemma LayerGoneNarrows(s: State, obj: Obj)
    ensures Bounded(s) ==> Narrows(s, ReapLayer(s, obj))
  {
    LayerGoneQuiet(s, obj);
    if obj in s.layers {
      assert ReapLayer(s, obj).windowSurface == s.windowSurface - {s.layers[obj].win};
    } else {
      assert ReapLayer(s, obj).windowSurface == s.windowSurface;
    }
  }

  lemma LoseToplevelNarrows(s: State, sid: Surface)
    ensures Bounded(s) ==> Narrows(s, LoseToplevel(s, sid))
  {
  }

  lemma ApartNarrows(s: State, s': State)
    requires Bounded(s) && Apart(s, s')
    ensures Narrows(s, s')
  {
  }

  lemma DestroyProtocol(s: State, sid: Surface)
    requires Protocol(s)
    ensures Protocol(DestroySurface(s, sid))
  {
    var s1 := LoseToplevel(s, sid);
    var s2 := LoseSub(s1, sid);
    var s3 := LoseLayer(s2, sid);
    LoseToplevelNarrows(s, sid);
    NarrowsKeeps(s, s1);
    LoseSubApart(s1, sid);
    ApartNarrows(s1, s2);
    NarrowsKeeps(s1, s2);
    if sid in s2.surfaceLayer {
      LayerGoneNarrows(s2, s2.surfaceLayer[sid]);
      NarrowsKeeps(s2, s3);
    }
    ForgetApart(s3, sid);
    ApartNarrows(s3, Forget(s3, sid));
    NarrowsKeeps(s3, Forget(s3, sid));
  }

  lemma DestroySilent(s: State, sid: Surface)
    ensures DestroySurface(s, sid).sent == s.sent
  {
    LoseToplevelSilent(s, sid);
    LoseSubApart(LoseToplevel(s, sid), sid);
    LoseLayerSilent(LoseSub(LoseToplevel(s, sid), sid), sid);
  }

  lemma LoseToplevelSilent(s: State, sid: Surface)
    ensures LoseToplevel(s, sid).sent == s.sent
  {
  }

  lemma LoseLayerSilent(s: State, sid: Surface)
    ensures LoseLayer(s, sid).sent == s.sent
  {
    if sid in s.surfaceLayer { LayerGoneQuiet(s, s.surfaceLayer[sid]); }
  }

  lemma ShellNarrows(s: State, e: Event)
    requires Bounded(s) && IsShell(e)
    ensures Narrows(s, ShellStep(s, e))
  {
    match e {
      case ToplevelMade(obj, sid) => ToplevelMadeNarrows(s, obj, sid);
      case ToplevelGone(obj) => ToplevelGoneNarrows(s, obj);
      case PopupMade(obj, sid, parent) => PopupMadeNarrows(s, obj, sid, parent);
      case PopupGrab(obj) => GrabApart(s, obj); ApartNarrows(s, Grab(s, obj));
      case PopupGone(obj) => PopupGoneNarrows(s, obj);
    }
  }

  lemma BarNarrows(s: State, e: Event)
    requires Bounded(s) && IsBar(e)
    ensures Narrows(s, BarStep(s, e))
  {
    match e {
      case LayerMade(obj, sid) => LayerMadeNarrows(s, obj, sid);
      case LayerAnchor(obj, anchor) => AnchorApart(s, obj, anchor); ApartNarrows(s, SetAnchor(s, obj, anchor));
      case LayerExclusive(obj, zone) => ExclusiveApart(s, obj, zone); ApartNarrows(s, SetExclusive(s, obj, zone));
      case LayerGone(obj) => LayerGoneNarrows(s, obj);
    }
  }

  lemma RequestNarrows(s: State, e: Event)
    requires Bounded(s) && !e.SurfaceDestroyed? && !e.Pointing?
    ensures Narrows(s, Step(s, e))
  {
    if IsShell(e) {
      ShellNarrows(s, e);
    } else if IsBar(e) {
      BarNarrows(s, e);
    } else if IsSide(e) {
      SideApart(s, e);
      ApartNarrows(s, SideStep(s, e));
    } else {
      CommitApart(s, e.sid);
      ApartNarrows(s, Commit(s, e.sid));
    }
  }

  lemma RequestKeepsProtocol(s: State, e: Event)
    requires Protocol(s) && !e.SurfaceDestroyed? && !e.Pointing?
    ensures Protocol(Step(s, e)) && Follows(s, Step(s, e))
  {
    RequestNarrows(s, e);
    NarrowsKeeps(s, Step(s, e));
    FollowsBy(s, Step(s, e), []);
  }

  lemma DestroyKeepsProtocol(s: State, sid: Surface)
    requires Protocol(s)
    ensures Protocol(DestroySurface(s, sid)) && Follows(s, DestroySurface(s, sid))
  {
    DestroyProtocol(s, sid);
    DestroySilent(s, sid);
    FollowsBy(s, DestroySurface(s, sid), []);
  }

  lemma StepKeepsProtocol(s: State, e: Event)
    requires Protocol(s)
    ensures Protocol(Step(s, e)) && Follows(s, Step(s, e))
  {
    if e.Pointing? {
      ReactKeeps(s, e.input);
    } else if e.SurfaceDestroyed? {
      DestroyKeepsProtocol(s, e.sid);
    } else {
      RequestKeepsProtocol(s, e);
    }
  }

  lemma {:induction false} RunKeepsProtocol(pointers: seq<Pointer>, events: seq<Event>)
    requires Distinct(pointers)
    ensures Protocol(Run(pointers, events))
  {
    if |events| > 0 {
      var init := events[..|events| - 1];
      RunKeepsProtocol(pointers, init);
      StepKeepsProtocol(Run(pointers, init), events[|events| - 1]);
    }
  }

  /** Every message of every step of a run is legal: motion and buttons go to the surface
      most recently entered, a leave names the surface the pointer is in, and an enter
      finds the pointer outside, or inside a window no longer registered. */
  lemma PointerProtocol(pointers: seq<Pointer>, events: seq<Event>, n: nat)
    requires Distinct(pointers) && n < |events|
    ensures Follows(Run(pointers, events[..n]), Run(pointers, events[..n + 1]))
  {
    RunKeepsProtocol(pointers, events[..n]);
    StepKeepsProtocol(Run(pointers, events[..n]), events[n]);
    assert events[..n + 1][..n] == events[..n];
  }

  predicate Delivered(m: Sent) { m.Motion? || m.Button? }

  /** Read over a whole run: each motion or button finds its pointer inside its surface. */
  ghost predicate InsideWhenDelivered(sent: seq<Sent>) {
    forall k :: 0 <= k < |sent| && Delivered(sent[k]) ==>
      Current(sent[..k], sent[k].pointer).Some? && Current(sent[..k], sent[k].pointer).value.surface == sent[k].surface
  }

  lemma {:induction false} LegalAt(before: seq<Sent>, msgs: seq<Sent>, registered: set<Win>, k: nat)
    requires AllLegal(before, msgs, registered) && k < |msgs|
    ensures Legal(Current(before + msgs[..k], msgs[k].pointer),
                  msgs[k], registered)
  {
    if k < |msgs| - 1 {
      LegalAt(before, msgs[..|msgs| - 1], registered, k);
      TakeTake(msgs, |msgs| - 1, k);
    }
  }

  lemma {:induction false} DeliveredInside(pointers: seq<Pointer>, events: seq<Event>)
    requires Distinct(pointers)
    ensures InsideWhenDelivered(Run(pointers, events).sent)
  {
    if |events| > 0 {
      var n := |events| - 1;
      DeliveredInside(pointers, events[..n]);
      PointerProtocol(pointers, events, n);
      assert events[..n + 1] == events;
      StepInside(Run(pointers, events[..n]), Run(pointers, events));
    }
  }

  lemma StepInside(s: State, s': State)
    requires InsideWhenDelivered(s.sent) && Follows(s, s')
    ensures InsideWhenDelivered(s'.sent)
  {
    var n := |s.sent|;
    var msgs := s'.sent[n..];
    forall k | 0 <= k < |s'.sent| && Delivered(s'.sent[k])
      ensures var cur := Current(s'.sent[..k], s'.sent[k].pointer); cur.Some? && cur.value.surface == s'.sent[k].surface
    {
      if k < n {
        assert s'.sent[..k] == s.sent[..k] && s'.sent[k] == s.sent[k];
      } else {
        LegalAt(s.sent, msgs, s.windowSurface.Keys, k - n);
        assert s'.sent[..k] == s.sent + msgs[..k - n];
      }
    }
  }
}
