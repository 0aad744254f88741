/** The Rust callbacks of the RAIL back-end: deferral of windows announced without a
    size, the list of live windows, and the window commands they post. */
module RailClient {
  import opened Prelude
  import opened RailFrame
  import opened RailCalls

  datatype Cmd =
    | Create(id: U32, width: int, height: int, title: seq<Byte>)
    | Move(id: U32, x: int, y: int)
    | Title(id: U32, title: seq<Byte>)
    | Destroy(id: U32)
    | Present(id: U32, frame: Frame, dstW: int, dstH: int)

  datatype State = State(live: seq<U32>, logical: map<U32, (int, int)>, posted: seq<Cmd>)

  const START := State([], map[], [])

  /** Physical pixels for a point; the advertised scale is at least 1. */
  type Scale = s: int | s >= 1 witness 1

  /** A physical extent in logical points, at least 1; the cast to `i32` may wrap. */
  function Points(extent: U32, scale: Scale): (p: int)
    ensures p >= 1
  {
    Max(TruncDiv(WrapI32(extent), scale), 1)
  }

  function SpawnWindow(s: State, scale: Scale, id: U32, x: I32, y: I32, w: U32, h: U32, title: seq<Byte>): State
  {
    var (lw, lh) := (Points(w, scale), Points(h, scale));
    State(s.live + [id], s.logical[id := (lw, lh)],
          s.posted + [Create(id, lw, lh, title), Move(id, TruncDiv(x, scale), TruncDiv(y, scale))])
  }

  function Step(s: State, scale: Scale, call: Call): State
  {
    match call
    case WindowCreate(id, x, y, w, h, title) =>
      if w == 0 || h == 0 then s else SpawnWindow(s, scale, id, x, y, w, h, title)
    case WindowUpdate(id, x, y, w, h) =>
      if id !in s.live then
        if w > 0 && h > 0 then SpawnWindow(s, scale, id, x, y, w, h, []) else s
      else
        State(s.live,
              if w > 0 && h > 0 then s.logical[id := (Points(w, scale), Points(h, scale))] else s.logical,
              s.posted + [Move(id, TruncDiv(x, scale), TruncDiv(y, scale))])
    case WindowTitle(id, title) => s.(posted := s.posted + [Title(id, title)])
    case WindowDelete(id) => State(Without(s.live, id), s.logical - {id}, s.posted + [Destroy(id)])
    case WindowSurface(id, frame) =>
      if frame.width == 0 || frame.height == 0 then s
      else
        var (dw, dh) := if id in s.logical then s.logical[id] else (Points(frame.width, scale), Points(frame.height, scale));
        s.(posted := s.posted + [Present(id, frame, dw, dh)])
  }

  function Destroys(ids: seq<U32>): seq<Cmd> {
    if |ids| == 0 then [] else [Destroy(ids[0])] + Destroys(ids[1..])
  }

  function Disconnected(s: State): State {
    s.(live := [], posted := s.posted + Destroys(s.live))
  }

  function Run(scale: Scale, calls: seq<Call>): State
  {
    if |calls| == 0 then START else Step(Run(scale, calls[..|calls| - 1]), scale, calls[|calls| - 1])
  }

  lemma RunAppend(scale: Scale, calls: seq<Call>, call: Call)
    ensures Run(scale, calls + [call]) == Step(Run(scale, calls), scale, call)
  {
    assert (calls + [call])[..|calls|] == calls;
  }

  /** What reaches the Rust side: callbacks, and the end of the connection. */
  datatype Input = Called(call: Call) | Ended

  function Take(s: State, scale: Scale, i: Input): State
  {
    match i case Called(call) => Step(s, scale, call) case Ended => Disconnected(s)
  }

  function Through(scale: Scale, inputs: seq<Input>): State
  {
    if |inputs| == 0 then START else Take(Through(scale, inputs[..|inputs| - 1]), scale, inputs[|inputs| - 1])
  }

  function Calleds(calls: seq<Call>): seq<Input> { seq(|calls|, i requires 0 <= i < |calls| => Called(calls[i])) }

  lemma ThroughAppend(scale: Scale, inputs: seq<Input>, i: Input)
    ensures Through(scale, inputs + [i]) == Take(Through(scale, inputs), scale, i)
  {
    assert (inputs + [i])[..|inputs|] == inputs;
  }

  /** A stream of callbacks alone. */
  lemma {:induction false} ThroughCalls(scale: Scale, calls: seq<Call>)
    ensures Through(scale, Calleds(calls)) == Run(scale, calls)
  {
    if |calls| > 0 {
      var n := |calls| - 1;
      ThroughCalls(scale, calls[..n]);
      ThroughAppend(scale, Calleds(calls[..n]), Called(calls[n]));
      CalledsSnoc(calls);
    }
  }

  lemma CalledsSnoc(calls: seq<Call>)
    requires |calls| > 0
    ensures var n := |calls| - 1; Calleds(calls) == Calleds(calls[..n]) + [Called(calls[n])]
  {
  }

  /** One more callback of a session that `past` came before. */
  lemma CalledNext(scale: Scale, past: seq<Input>, calls: seq<Call>, call: Call)
    ensures Through(scale, past + Calleds(calls + [call])) == Step(Through(scale, past + Calleds(calls)), scale, call)
  {
    assert Calleds(calls + [call]) == Calleds(calls) + [Called(call)];
    ConcatAssoc(past, Calleds(calls), [Called(call)]);
    ThroughAppend(scale, past + Calleds(calls), Called(call));
  }

  class Client {
    const scale: Scale
    var live: seq<U32>
    var logical: map<U32, (int, int)>
    ghost var posted: seq<Cmd>

    ghost function St(): State
      reads this
    {
      State(live, logical, posted)
    }

    constructor (scale: int)
      ensures St() == START
      ensures this.scale == Max(scale, 1)
    {
      this.scale := Max(scale, 1);
      live, logical, posted := [], map[], [];
    }

    method Post(ghost cmd: Cmd)
      modifies this`posted
      ensures posted == old(posted) + [cmd]
    {
      posted := posted + [cmd];
    }

    method Spawn(id: U32, x: I32, y: I32, w: U32, h: U32, title: seq<Byte>)
      modifies this
      ensures St() == SpawnWindow(old(St()), scale, id, x, y, w, h, title)
    {
      var lw, lh := Points(w, scale), Points(h, scale);
      live := live + [id];
      logical := logical[id := (lw, lh)];
      Post(Create(id, lw, lh, title));
      Post(Move(id, TruncDiv(x, scale), TruncDiv(y, scale)));
    }

    method OnCreate(id: U32, x: I32, y: I32, w: U32, h: U32, title: seq<Byte>)
      modifies this
      ensures St() == Step(old(St()), scale, WindowCreate(id, x, y, w, h, title))
    {
      if w == 0 || h == 0 {
        return;
      }
      Spawn(id, x, y, w, h, title);
    }

    method OnUpdate(id: U32, x: I32, y: I32, w: U32, h: U32)
      modifies this
      ensures St() == Step(old(St()), scale, WindowUpdate(id, x, y, w, h))
    {
      var known := id in live;
      if !known {
        if w > 0 && h > 0 {
          Spawn(id, x, y, w, h, []);
        }
        return;
      }
      if w > 0 && h > 0 {
        logical := logical[id := (Points(w, scale), Points(h, scale))];
      }
      Post(Move(id, TruncDiv(x, scale), TruncDiv(y, scale)));
    }

    method OnTitle(id: U32, title: seq<Byte>)
      modifies this`posted
      ensures St() == Step(old(St()), scale, WindowTitle(id, title))
    {
      Post(Title(id, title));
    }

    method OnDelete(id: U32)
      modifies this
      ensures St() == Step(old(St()), scale, WindowDelete(id))
    {
      live := Without(live, id);
      logical := logical - {id};
      Post(Destroy(id));
    }

    method OnSurface(id: U32, frame: Frame)
      modifies this`posted
      ensures St() == Step(old(St()), scale, WindowSurface(id, frame))
    {
      if frame.width == 0 || frame.height == 0 {
        return;
      }
      var dst := if id in logical then logical[id] else (Points(frame.width, scale), Points(frame.height, scale));
      Post(Present(id, frame, dst.0, dst.1));
    }

    method OnDisconnected()
      modifies this
      ensures St() == Disconnected(old(St()))
    {
      var ids := live;
      live := [];
      var i := 0;
      while i < |ids|
        invariant 0 <= i <= |ids|
        invariant live == [] && logical == old(logical)
        invariant posted + Destroys(ids[i..]) == old(posted) + Destroys(ids)
      {
        assert ids[i..][1..] == ids[i + 1..];
        Post(Destroy(ids[i]));
        i := i + 1;
      }
    }
  }

  // ---- the posted command stream -----------------------------------------

  /** The native windows open after the posted commands. */
  function Shown(cmds: seq<Cmd>): set<U32> {
    if |cmds| == 0 then {} else ShownStep(Shown(cmds[..|cmds| - 1]), cmds[|cmds| - 1])
  }

  function ShownStep(shown: set<U32>, cmd: Cmd): set<U32> {
    match cmd
    case Create(id, _, _, _) => shown + {id}
    case Destroy(id) => shown - {id}
    case _ => shown
  }

  /** No window is created while it is shown. */
  predicate NoDoubleCreate(cmds: seq<Cmd>) {
    |cmds| == 0 ||
    (NoDoubleCreate(cmds[..|cmds| - 1])
     && (cmds[|cmds| - 1].Create? ==> cmds[|cmds| - 1].id !in Shown(cmds[..|cmds| - 1])))
  }

  lemma PostAppend(cmds: seq<Cmd>, cmd: Cmd)
    ensures Shown(cmds + [cmd]) == ShownStep(Shown(cmds), cmd)
    ensures NoDoubleCreate(cmds + [cmd]) <==> NoDoubleCreate(cmds) && (cmd.Create? ==> cmd.id !in Shown(cmds))
  {
    assert (cmds + [cmd])[..|cmds|] == cmds;
  }

  /** The live list is duplicate-free, lists only open windows and is what is shown, and no
      window was created while shown. */
  ghost predicate Matches(s: State, open: set<U32>) {
    && Distinct(s.live)
    && ToSet(s.live) <= open
    && Shown(s.posted) == ToSet(s.live)
    && NoDoubleCreate(s.posted)
  }

  ghost predicate Agrees(s: State, open: set<U32>) {
    Matches(s, open) && s.logical.Keys == ToSet(s.live)
  }

  lemma SpawnMatches(s: State, scale: Scale, id: U32, x: I32, y: I32, w: U32, h: U32, title: seq<Byte>, open: set<U32>)
    requires Matches(s, open) && id !in s.live && id in open
    ensures Matches(SpawnWindow(s, scale, id, x, y, w, h, title), open)
  {
    var s' := SpawnWindow(s, scale, id, x, y, w, h, title);
    var create := Create(id, Points(w, scale), Points(h, scale), title);
    var move := Move(id, TruncDiv(x, scale), TruncDiv(y, scale));
    PostAppend(s.posted, create);
    PostAppend(s.posted + [create], move);
    assert s'.posted == s.posted + [create] + [move];
    assert ToSet(s'.live) == ToSet(s.live) + {id};
  }

  /** Posting anything but a create or a destroy. */
  lemma PostMatches(s: State, s': State, cmd: Cmd, open: set<U32>)
    requires Matches(s, open) && s'.live == s.live && s'.posted == s.posted + [cmd] && !cmd.Create? && !cmd.Destroy?
    ensures Matches(s', open)
  {
    PostAppend(s.posted, cmd);
  }

  lemma CreateMatches(s: State, scale: Scale, call: Call, open: set<U32>)
    requires Matches(s, open) && call.WindowCreate? && Proper(open, call)
    ensures Matches(Step(s, scale, call), OpenStep(open, call))
  {
    assert call.id !in ToSet(s.live);
    assert Matches(s, open + {call.id});
    if call.w > 0 && call.h > 0 {
      SpawnMatches(s, scale, call.id, call.x, call.y, call.w, call.h, call.title, open + {call.id});
    }
  }

  lemma UpdateMatches(s: State, scale: Scale, call: Call, open: set<U32>)
    requires Matches(s, open) && call.WindowUpdate? && call.id in open
    ensures Matches(Step(s, scale, call), open)
  {
    if call.id in s.live {
      PostMatches(s, Step(s, scale, call), Move(call.id, TruncDiv(call.x, scale), TruncDiv(call.y, scale)), open);
    } else if call.w > 0 && call.h > 0 {
      SpawnMatches(s, scale, call.id, call.x, call.y, call.w, call.h, [], open);
    }
  }

  lemma DeleteMatches(s: State, scale: Scale, id: U32, open: set<U32>)
    requires Matches(s, open)
    ensures Matches(Step(s, scale, WindowDelete(id)), open - {id})
  {
    var s' := Step(s, scale, WindowDelete(id));
    WithoutDistinct(s.live, id);
    PostAppend(s.posted, Destroy(id));
    assert ToSet(s'.live) == ToSet(s.live) - {id};
  }

  lemma SurfaceMatches(s: State, scale: Scale, call: Call, open: set<U32>)
    requires Matches(s, open) && (call.WindowTitle? || call.WindowSurface?)
    ensures Matches(Step(s, scale, call), open)
  {
    var s' := Step(s, scale, call);
    if s' != s { PostMatches(s, s', s'.posted[|s.posted|], open); }
  }

  lemma StepMatches(s: State, scale: Scale, call: Call, open: set<U32>)
    requires Matches(s, open) && Proper(open, call)
    ensures Matches(Step(s, scale, call), OpenStep(open, call))
  {
    match call {
      case WindowCreate(_, _, _, _, _, _) => CreateMatches(s, scale, call, open);
      case WindowUpdate(_, _, _, _, _) => UpdateMatches(s, scale, call, open);
      case WindowDelete(id) => DeleteMatches(s, scale, id, open);
      case _ => SurfaceMatches(s, scale, call, open);
    }
  }

  /** Sizes are tracked for exactly the live windows. */
  lemma StepLogical(s: State, scale: Scale, call: Call)
    requires s.logical.Keys == ToSet(s.live)
    ensures Step(s, scale, call).logical.Keys == ToSet(Step(s, scale, call).live)
  {
    var s' := Step(s, scale, call);
    if call.WindowDelete? {
      assert ToSet(s'.live) == ToSet(s.live) - {call.id};
    } else if s'.live != s.live {
      assert ToSet(s'.live) == ToSet(s.live) + {call.id};
    } else if call.WindowUpdate? && call.id in s.live {
      assert call.id in ToSet(s.live);
    }
  }

  /** On every well-formed callback stream the live list is duplicate-free and lists only
      open windows, it is exactly the set of native windows shown, and no window is
      created twice. */
  lemma {:induction false} ClientAgrees(scale: Scale, calls: seq<Call>)
    requires WellFormed(calls)
    ensures Agrees(Run(scale, calls), Open(calls))
  {
    if |calls| > 0 {
      var init, last := calls[..|calls| - 1], calls[|calls| - 1];
      ClientAgrees(scale, init);
      StepMatches(Run(scale, init), scale, last, Open(init));
      StepLogical(Run(scale, init), scale, last);
    }
  }

  /** A window is live iff it is open and has had a size since it was created. */
  lemma {:induction false} LiveIffSized(scale: Scale, calls: seq<Call>, id: U32)
    requires WellFormed(calls)
    ensures id in Run(scale, calls).live <==> id in Open(calls) && Sized(calls, id)
  {
    if |calls| > 0 {
      var init, last := calls[..|calls| - 1], calls[|calls| - 1];
      LiveIffSized(scale, init, id);
      SizedAppend(init, last, id);
    }
  }

  lemma {:induction false} DestroysProper(cmds: seq<Cmd>, ids: seq<U32>)
    requires NoDoubleCreate(cmds)
    ensures NoDoubleCreate(cmds + Destroys(ids))
    decreases |ids|
  {
    if |ids| == 0 {
      assert cmds + Destroys(ids) == cmds;
    } else {
      PostAppend(cmds, Destroy(ids[0]));
      DestroysProper(cmds + [Destroy(ids[0])], ids[1..]);
      ConcatAssoc(cmds, [Destroy(ids[0])], Destroys(ids[1..]));
    }
  }

  lemma {:induction false} DestroysShown(cmds: seq<Cmd>, ids: seq<U32>, x: U32)
    ensures x in Shown(cmds + Destroys(ids)) <==> x in Shown(cmds) && x !in ids
    decreases |ids|
  {
    if |ids| == 0 {
      assert cmds + Destroys(ids) == cmds;
    } else {
      var first, rest := cmds + [Destroy(ids[0])], ids[1..];
      PostAppend(cmds, Destroy(ids[0]));
      DestroysShown(first, rest, x);
      ConcatAssoc(cmds, [Destroy(ids[0])], Destroys(rest));
      assert cmds + Destroys(ids) == first + Destroys(rest);
      HeadOrRest(ids, x);
    }
  }

  lemma HeadOrRest(ids: seq<U32>, x: U32)
    requires |ids| > 0
    ensures x in ids <==> x == ids[0] || x in ids[1..]
  {
  }

  /** After a disconnect no window that was ever created is still shown. */
  lemma DisconnectClosesAll(scale: Scale, calls: seq<Call>)
    requires WellFormed(calls)
    ensures var s := Disconnected(Run(scale, calls));
            s.live == [] && Shown(s.posted) == {} && NoDoubleCreate(s.posted)
  {
    ClientAgrees(scale, calls);
    var s := Run(scale, calls);
    forall x: U32 { DestroysShown(s.posted, s.live, x); }
    DestroysProper(s.posted, s.live);
  }

  /** A delete after the disconnect would post a second Destroy for a window the disconnect
      already destroyed. This is a fact about the two callback functions and not about a
      run of the program: the bridge calls nothing after its disconnect. */
  lemma LateDeleteDestroysAgain()
    ensures var s := Disconnected(Run(1, [WindowCreate(7, 0, 0, 10, 10, [])]));
            && Destroy(7) in s.posted
            && Step(s, 1, WindowDelete(7)).posted == s.posted + [Destroy(7)]
  {
    var call := WindowCreate(7, 0, 0, 10, 10, []);
    assert Run(1, [call]) == Step(START, 1, call) by { RunAppend(1, [], call); assert [] + [call] == [call]; }
    assert Run(1, [call]).live == [7];
    assert Destroys([7]) == [Destroy(7)];
  }

  /** A window's surface reaches a shown native window iff the window is live: pixels for
      a window still waiting for its first size go to a window that does not exist. */
  lemma PresentTargetsShown(scale: Scale, calls: seq<Call>, id: U32, frame: Frame)
    requires WellFormed(calls) && id in Open(calls)
    requires frame.width > 0 && frame.height > 0
    ensures var s := Run(scale, calls);
            var s' := Step(s, scale, WindowSurface(id, frame));
            && |s'.posted| == |s.posted| + 1 && s'.posted[|s.posted|].Present?
            && (s'.posted[|s.posted|].id in Shown(s.posted) <==> Sized(calls, id))
  {
    ClientAgrees(scale, calls);
    LiveIffSized(scale, calls, id);
  }

  /** Deleting an open window destroys a shown native window iff the window is live; called
      after a disconnect, no delete would. */
  lemma DeleteTargetsShown(scale: Scale, calls: seq<Call>, id: U32)
    requires WellFormed(calls) && id in Open(calls)
    ensures var s := Run(scale, calls);
            && Step(s, scale, WindowDelete(id)).posted == s.posted + [Destroy(id)]
            && (id in Shown(s.posted) <==> Sized(calls, id))
    ensures var gone := Disconnected(Run(scale, calls));
            Step(gone, scale, WindowDelete(id)).posted == gone.posted + [Destroy(id)] && id !in Shown(gone.posted)
  {
    ClientAgrees(scale, calls);
    LiveIffSized(scale, calls, id);
    DisconnectClosesAll(scale, calls);
  }
}
