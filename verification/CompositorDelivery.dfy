/** What each pointer receives for each input: leave, enter, motion and button, in order and
    once each. */
module CompositorDelivery {
  import opened Prelude
  import opened Compositor
  import opened CompositorRun
  import opened CompositorRegistry
  import F = CompositorFrames
  import O = CompositorOrphans
  import P = CompositorPointer

  /** The messages to one pointer, in order. */
  function To(msgs: seq<Sent>, p: Pointer): seq<Sent> {
    if |msgs| == 0 then []
    else To(msgs[..|msgs| - 1], p) + if msgs[|msgs| - 1].pointer == p then [msgs[|msgs| - 1]] else []
  }

  /** The pointer is one of the surface's client. */
  predicate Reaches(s: State, sid: Surface, p: Pointer) { p in s.pointers && p.client == sid.client }

  /** A pointer of the old focus's client is told to leave it, while it is registered. */
  function Leaving(s: State, p: Pointer): seq<Sent> {
    if s.focus.Some? && s.focus.value in s.windowSurface && Reaches(s, s.windowSurface[s.focus.value], p) then
      [Leave(p, s.windowSurface[s.focus.value], s.focus.value)]
    else []
  }

  /** What the pointer receives before anything happens in the window: nothing if the window has
      the focus, and else a leave of the old one and an enter. */
  function Entering(s: State, w: Win, p: Pointer): seq<Sent>
    requires w in s.windowSurface
  {
    if s.focus == Some(w) then []
    else Leaving(s, p) + if Reaches(s, s.windowSurface[w], p) then [Enter(p, s.windowSurface[w], w)] else []
  }

  /** What the pointer receives for an input; nothing if its window is not registered, or it is
      a leave of a window without the focus. */
  function Receives(s: State, i: Input, p: Pointer): seq<Sent> {
    if i.win !in s.windowSurface then []
    else
      var sid := s.windowSurface[i.win];
      match i
      case PointerEnter(w) => Entering(s, w, p)
      case PointerMotion(w) => Entering(s, w, p) + if Reaches(s, sid, p) then [Motion(p, sid)] else []
      case PointerButton(w) => Entering(s, w, p) + if Reaches(s, sid, p) then [Button(p, sid)] else []
      case PointerLeave(w) => if s.focus == Some(w) then Leaving(s, p) else []
  }

  /** The window with the focus after an input. */
  function Focused(s: State, i: Input): Option<Win> {
    if i.win !in s.windowSurface then s.focus
    else if !i.PointerLeave? then Some(i.win)
    else if s.focus == Some(i.win) then None
    else s.focus
  }

  // ---- batches -----------------------------------------------------------

  lemma {:induction false} ToConcat(a: seq<Sent>, b: seq<Sent>, p: Pointer)
    ensures To(a + b, p) == To(a, p) + To(b, p)
  {
    if |b| == 0 {
      assert a + b == a;
    } else {
      var init := b[..|b| - 1];
      ToConcat(a, init, p);
      assert (a + b)[..|a + b| - 1] == a + init;
    }
  }

  lemma {:induction false} ToMessages(kind: Kind, ps: seq<Pointer>, sid: Surface, win: Win, p: Pointer)
    requires Distinct(ps)
    ensures To(Messages(kind, ps, sid, win), p) == if p in ps then [Message(kind, p, sid, win)] else []
  {
    if |ps| > 0 {
      var first := [Message(kind, ps[0], sid, win)];
      ToMessages(kind, ps[1..], sid, win, p);
      ToConcat(first, Messages(kind, ps[1..], sid, win), p);
      assert first[..0] == [];
      assert ps[0] !in ps[1..];
    }
  }

  lemma ToClient(s: State, kind: Kind, sid: Surface, win: Win, p: Pointer)
    requires Distinct(s.pointers)
    ensures To(ToSurface(s, kind, sid, win), p) == if Reaches(s, sid, p) then [Message(kind, p, sid, win)] else []
  {
    P.PointersDistinct(s.pointers, sid.client);
    ToMessages(kind, PointersFor(s.pointers, sid.client), sid, win, p);
  }

  lemma ToLeave(s: State, p: Pointer)
    requires Distinct(s.pointers)
    ensures To(LeaveMessages(s), p) == Leaving(s, p)
  {
    if s.focus.Some? && s.focus.value in s.windowSurface {
      ToClient(s, KLeave, s.windowSurface[s.focus.value], s.focus.value, p);
    }
  }

  // ---- inputs ------------------------------------------------------------

  /** The input appends these messages. */
  predicate Appends(s: State, sent: seq<Sent>, p: Pointer, mine: seq<Sent>) {
    s.sent <= sent && To(sent[|s.sent|..], p) == mine
  }

  lemma AppendsBy(s: State, sent: seq<Sent>, more: seq<Sent>, p: Pointer, mine: seq<Sent>)
    requires sent == s.sent + more && To(more, p) == mine
    ensures Appends(s, sent, p, mine)
  {
    assert sent[|s.sent|..] == more;
  }

  /** The messages that make sure a window has the focus. */
  function Ensuring(s: State, w: Win): seq<Sent>
    requires w in s.windowSurface
  {
    if s.focus == Some(w) then [] else LeaveMessages(s) + ToSurface(s, KEnter, s.windowSurface[w], w)
  }

  lemma ToEnsuring(s: State, w: Win, p: Pointer)
    requires Distinct(s.pointers) && w in s.windowSurface
    ensures EnsuredSent(s, w) == s.sent + Ensuring(s, w)
    ensures To(Ensuring(s, w), p) == Entering(s, w, p)
  {
    if s.focus == Some(w) {
      assert s.sent + [] == s.sent;
    } else {
      var leave, enter := LeaveMessages(s), ToSurface(s, KEnter, s.windowSurface[w], w);
      ToLeave(s, p);
      ToClient(s, KEnter, s.windowSurface[w], w, p);
      ToConcat(leave, enter, p);
      ConcatAssoc(s.sent, leave, enter);
    }
  }

  lemma DeliverAppends(s: State, kind: Kind, w: Win, p: Pointer)
    requires Distinct(s.pointers) && w in s.windowSurface
    ensures var sid := s.windowSurface[w];
            Appends(s, DeliveredSent(s, kind, w), p, Entering(s, w, p) + if Reaches(s, sid, p) then [Message(kind, p, sid, w)] else [])
  {
    var sid := s.windowSurface[w];
    var ensuring, msgs := Ensuring(s, w), ToSurface(s, kind, sid, w);
    ToEnsuring(s, w, p);
    ToClient(s, kind, sid, w, p);
    ToConcat(ensuring, msgs, p);
    ConcatAssoc(s.sent, ensuring, msgs);
    AppendsBy(s, DeliveredSent(s, kind, w), ensuring + msgs, p,
              Entering(s, w, p) + if Reaches(s, sid, p) then [Message(kind, p, sid, w)] else []);
  }

  lemma LeaveAppends(s: State, w: Win, p: Pointer)
    requires Distinct(s.pointers)
    ensures Appends(s, OnLeave(s, w).sent, p, Receives(s, PointerLeave(w), p))
  {
    if Leaves(s, w) {
      ToLeave(s, p);
      AppendsBy(s, OnLeave(s, w).sent, LeaveMessages(s), p, Leaving(s, p));
    } else {
      NothingAppended(s, p);
    }
  }

  lemma NothingAppended(s: State, p: Pointer)
    ensures Appends(s, s.sent, p, [])
  {
    assert s.sent == s.sent + [];
    AppendsBy(s, s.sent, [], p, []);
  }

  /** In every state with distinct pointers: an input sends every pointer exactly what it is to
      receive, and moves the focus. */
  lemma InputReaches(s: State, i: Input, p: Pointer)
    requires Distinct(s.pointers)
    ensures Appends(s, React(s, i).sent, p, Receives(s, i, p))
  {
    if i.PointerLeave? {
      LeaveAppends(s, i.win, p);
    } else if i.win !in s.windowSurface {
      NothingAppended(s, p);
    } else {
      match i {
        case PointerEnter(w) =>
          ToEnsuring(s, w, p);
          AppendsBy(s, EnsuredSent(s, w), Ensuring(s, w), p, Entering(s, w, p));
        case PointerMotion(w) => DeliverAppends(s, KMotion, w, p);
        case PointerButton(w) => DeliverAppends(s, KButton, w, p);
      }
    }
  }

  lemma InputFocuses(s: State, i: Input)
    ensures React(s, i).focus == Focused(s, i)
  {
  }

  lemma ReactStep(s: State, i: Input)
    ensures Step(s, Pointing(i)) == React(s, i)
  {
  }

  /** So on every run. */
  lemma InputReachesOfRun(pointers: seq<Pointer>, events: seq<Event>, i: Input, p: Pointer)
    requires Distinct(pointers)
    ensures var s, s' := Run(pointers, events), Run(pointers, events + [Pointing(i)]);
            Appends(s, s'.sent, p, Receives(s, i, p)) && s'.focus == Focused(s, i)
  {
    var s := Run(pointers, events);
    P.RunKeepsProtocol(pointers, events);
    O.RunSnoc(pointers, events, Pointing(i));
    ReactStep(s, i);
    InputReaches(s, i, p);
    InputFocuses(s, i);
  }

  /** Requests send the pointers nothing and leave the focus alone. */
  lemma RequestsReachNone(s: State, e: Event)
    requires !e.Pointing?
    ensures Quiet(s, Step(s, e))
  {
    if IsShell(e) {
      F.ShellOnly(s, e);
    } else if IsBar(e) {
      F.BarOnly(s, e);
    } else if IsSide(e) {
      F.SideOnly(s, e);
    } else {
      match e {
        case CommitSurface(sid) => CommitQuiet(s, sid);
        case SurfaceDestroyed(sid) => O.DestroyQuiet(s, sid);
      }
    }
  }

  lemma CommitQuiet(s: State, sid: Surface)
    ensures Quiet(s, Commit(s, sid))
  {
    F.CommitOnly(s, sid);
  }

  // ---- clicks ------------------------------------------------------------

  /** A button in a registered window: each pointer of the surface's client gets exactly one
      button, as its last message, and no motion; every other pointer gets neither. */
  predicate ButtonOnce(s: State, sid: Surface, p: Pointer, mine: seq<Sent>) {
    if Reaches(s, sid, p) then
      && |mine| > 0 && mine[|mine| - 1] == Button(p, sid)
      && forall k :: 0 <= k < |mine| - 1 ==> mine[k].Leave? || mine[k].Enter?
    else forall m :: m in mine ==> m.Leave?
  }

  lemma ButtonReaches(s: State, w: Win, p: Pointer)
    requires Distinct(s.pointers) && w in s.windowSurface
    ensures ButtonOnce(s, s.windowSurface[w], p, To(React(s, PointerButton(w)).sent[|s.sent|..], p))
  {
    InputReaches(s, PointerButton(w), p);
    EnteringKinds(s, w, p);
  }

  lemma EnteringKinds(s: State, w: Win, p: Pointer)
    requires w in s.windowSurface
    ensures forall m :: m in Entering(s, w, p) ==> m.Leave? || (m.Enter? && Reaches(s, s.windowSurface[w], p))
  {
  }
}
