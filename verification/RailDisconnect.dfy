/** One session after another. The bridge starts afresh with each, while the Rust side's
    list of live windows and record of sizes survive: which windows are live, how often each
    is destroyed, which of these find it shown, and what an earlier session leaves behind. */
module RailDisconnect {
  import opened Prelude
  import opened RailFrame
  import opened RailCalls
  import opened RailClient
  import B = RailBridge
  import R = RailRouter
  import S = RailSession

  // ---- counting in the posted stream -------------------------------------

  function CreateCount(cmds: seq<Cmd>, id: U32): nat {
    if |cmds| == 0 then 0
    else
      var last := cmds[|cmds| - 1];
      CreateCount(cmds[..|cmds| - 1], id) + if last.Create? && last.id == id then 1 else 0
  }

  function DestroyCount(cmds: seq<Cmd>, id: U32): nat {
    if |cmds| == 0 then 0
    else DestroyCount(cmds[..|cmds| - 1], id) + if cmds[|cmds| - 1] == Destroy(id) then 1 else 0
  }

  /** The destroys that find the window shown. */
  function CloseCount(cmds: seq<Cmd>, id: U32): nat {
    if |cmds| == 0 then 0
    else
      var init := cmds[..|cmds| - 1];
      CloseCount(init, id) + if cmds[|cmds| - 1] == Destroy(id) && id in Shown(init) then 1 else 0
  }

  lemma CountAppend(cmds: seq<Cmd>, cmd: Cmd, id: U32)
    ensures CreateCount(cmds + [cmd], id) == CreateCount(cmds, id) + if cmd.Create? && cmd.id == id then 1 else 0
    ensures DestroyCount(cmds + [cmd], id) == DestroyCount(cmds, id) + if cmd == Destroy(id) then 1 else 0
    ensures CloseCount(cmds + [cmd], id) == CloseCount(cmds, id) + if cmd == Destroy(id) && id in Shown(cmds) then 1 else 0
  {
    assert (cmds + [cmd])[..|cmds|] == cmds;
  }

  /** In a stream that never creates a shown window, each create was closed or is still
      shown. */
  lemma {:induction false} Balance(cmds: seq<Cmd>, id: U32)
    requires NoDoubleCreate(cmds)
    ensures CreateCount(cmds, id) == CloseCount(cmds, id) + if id in Shown(cmds) then 1 else 0
  {
    if |cmds| > 0 { Balance(cmds[..|cmds| - 1], id); }
  }

  // ---- what reaches the Rust side ----------------------------------------

  /** The windows the present session created and did not delete since. */
  function OpenSince(inputs: seq<Input>): set<U32> {
    if |inputs| == 0 then {}
    else
      match inputs[|inputs| - 1]
      case Called(call) => OpenStep(OpenSince(inputs[..|inputs| - 1]), call)
      case Ended => {}
  }

  /** Every session's callbacks are well formed by themselves: a window an earlier session
      left open may be created again. */
  predicate WellSince(inputs: seq<Input>) {
    |inputs| == 0 ||
    (WellSince(inputs[..|inputs| - 1])
     && (inputs[|inputs| - 1].Called? ==> Proper(OpenSince(inputs[..|inputs| - 1]), inputs[|inputs| - 1].call)))
  }

  lemma SinceAppend(inputs: seq<Input>, i: Input)
    ensures OpenSince(inputs + [i]) == match i case Called(call) => OpenStep(OpenSince(inputs), call) case Ended => {}
    ensures WellSince(inputs + [i]) <==> WellSince(inputs) && (i.Called? ==> Proper(OpenSince(inputs), i.call))
  {
    assert (inputs + [i])[..|inputs|] == inputs;
  }

  predicate Deletes(i: Input, id: U32) { i == Called(WindowDelete(id)) }

  /** How many delete callbacks named the window. */
  function DeleteCount(inputs: seq<Input>, id: U32): nat {
    if |inputs| == 0 then 0
    else DeleteCount(inputs[..|inputs| - 1], id) + if Deletes(inputs[|inputs| - 1], id) then 1 else 0
  }

  /** How many of them came while it was live. */
  function LiveDeleteCount(scale: Scale, inputs: seq<Input>, id: U32): nat
  {
    if |inputs| == 0 then 0
    else
      var init := inputs[..|inputs| - 1];
      LiveDeleteCount(scale, init, id)
      + if Deletes(inputs[|inputs| - 1], id) && id in Through(scale, init).live then 1 else 0
  }

  /** How many ends of the connection came while it was live. */
  function LiveEndCount(scale: Scale, inputs: seq<Input>, id: U32): nat
  {
    if |inputs| == 0 then 0
    else
      var init := inputs[..|inputs| - 1];
      LiveEndCount(scale, init, id) + if inputs[|inputs| - 1].Ended? && id in Through(scale, init).live then 1 else 0
  }

  /** The window was given a size since its last create and since the last end. */
  predicate SizedSince(inputs: seq<Input>, id: U32) {
    if |inputs| == 0 then false
    else
      var init := inputs[..|inputs| - 1];
      match inputs[|inputs| - 1]
      case Ended => false
      case Called(WindowCreate(i, _, _, w, h, _)) => if i == id then w > 0 && h > 0 else SizedSince(init, id)
      case Called(WindowUpdate(i, _, _, w, h)) => SizedSince(init, id) || (i == id && w > 0 && h > 0)
      case _ => SizedSince(init, id)
  }

  // ---- one end -----------------------------------------------------------

  lemma {:induction false} DestroysCount(cmds: seq<Cmd>, ids: seq<U32>, id: U32)
    requires Distinct(ids)
    ensures DestroyCount(cmds + Destroys(ids), id) == DestroyCount(cmds, id) + if id in ids then 1 else 0
    ensures CloseCount(cmds + Destroys(ids), id) == CloseCount(cmds, id) + if id in ids && id in Shown(cmds) then 1 else 0
    decreases |ids|
  {
    if |ids| == 0 {
      assert cmds + Destroys(ids) == cmds;
    } else {
      var first, rest := cmds + [Destroy(ids[0])], ids[1..];
      CountAppend(cmds, Destroy(ids[0]), id);
      PostAppend(cmds, Destroy(ids[0]));
      DestroysCount(first, rest, id);
      ConcatAssoc(cmds, [Destroy(ids[0])], Destroys(rest));
      HeadOrRest(ids, id);
      assert ids[0] !in rest;
    }
  }

  lemma EndMatches(s: State, open: set<U32>)
    requires Matches(s, open)
    ensures Matches(Disconnected(s), {})
  {
    forall x: U32 { DestroysShown(s.posted, s.live, x); }
    DestroysProper(s.posted, s.live);
    assert Shown(Disconnected(s).posted) == {};
  }

  /** The live list is what is shown, and within what the present session has open. */
  lemma {:induction false} ThroughMatches(scale: Scale, inputs: seq<Input>)
    requires WellSince(inputs)
    ensures Matches(Through(scale, inputs), OpenSince(inputs))
  {
    if |inputs| > 0 {
      var init, last := inputs[..|inputs| - 1], inputs[|inputs| - 1];
      ThroughMatches(scale, init);
      match last {
        case Called(call) => StepMatches(Through(scale, init), scale, call, OpenSince(init));
        case Ended => EndMatches(Through(scale, init), OpenSince(init));
      }
    }
  }

  /** A window is live iff the present session has it open and gave it a size since it
      created it. */
  lemma {:induction false} LiveIffSizedSince(scale: Scale, inputs: seq<Input>, id: U32)
    requires WellSince(inputs)
    ensures id in Through(scale, inputs).live <==> id in OpenSince(inputs) && SizedSince(inputs, id)
  {
    if |inputs| > 0 {
      var init, last := inputs[..|inputs| - 1], inputs[|inputs| - 1];
      match last {
        case Called(call) =>
          LiveIffSizedSince(scale, init, id);
          LiveStep(Through(scale, init), scale, call, id);
          ThroughMatches(scale, init);
        case Ended =>
      }
    }
  }

  /** When a callback makes or ends a live window. */
  lemma LiveStep(s: State, scale: Scale, call: Call, id: U32)
    ensures id in Step(s, scale, call).live <==>
            match call
            case WindowCreate(i, _, _, w, h, _) => id in s.live || (i == id && w > 0 && h > 0)
            case WindowUpdate(i, _, _, w, h) => id in s.live || (i == id && w > 0 && h > 0)
            case WindowDelete(i) => id in s.live && i != id
            case _ => id in s.live
  {
  }

  // ---- how often a window is destroyed -----------------------------------

  lemma CallCounts(s: State, scale: Scale, call: Call, id: U32)
    ensures var s' := Step(s, scale, call);
            && DestroyCount(s'.posted, id) == DestroyCount(s.posted, id) + (if call == WindowDelete(id) then 1 else 0)
            && CloseCount(s'.posted, id) == CloseCount(s.posted, id)
               + (if call == WindowDelete(id) && id in Shown(s.posted) then 1 else 0)
  {
    match call {
      case WindowDelete(i) => CountAppend(s.posted, Destroy(i), id);
      case WindowTitle(i, title) => CountAppend(s.posted, Title(i, title), id);
      case WindowSurface(_, _) =>
        var s' := Step(s, scale, call);
        if s' != s { CountAppend(s.posted, s'.posted[|s.posted|], id); }
      case _ => SizeCounts(s, scale, call, id);
    }
  }

  /** A callback with a size destroys nothing. */
  lemma SizeCounts(s: State, scale: Scale, call: Call, id: U32)
    requires (call.WindowCreate? || call.WindowUpdate?)
    ensures DestroyCount(Step(s, scale, call).posted, id) == DestroyCount(s.posted, id)
    ensures CloseCount(Step(s, scale, call).posted, id) == CloseCount(s.posted, id)
  {
    var move := Move(call.id, TruncDiv(call.x, scale), TruncDiv(call.y, scale));
    CountAppend(s.posted, move, id);
    var title := if call.WindowCreate? then call.title else [];
    SpawnCounts(s.posted, Create(call.id, Points(call.w, scale), Points(call.h, scale), title), move, id);
  }

  lemma SpawnCounts(posted: seq<Cmd>, create: Cmd, move: Cmd, id: U32)
    requires create.Create? && move.Move?
    ensures DestroyCount(posted + [create, move], id) == DestroyCount(posted, id)
    ensures CloseCount(posted + [create, move], id) == CloseCount(posted, id)
  {
    CountAppend(posted, create, id);
    CountAppend(posted + [create], move, id);
    assert posted + [create, move] == posted + [create] + [move];
  }

  /** Over any sessions a window receives one Destroy for each delete that names it and one
      for each end of a session while it is live. Those that find it shown are the ends and
      the deletes that come while it is live; and as often as it was created it was so
      closed, or is still shown. */
  lemma {:induction false} DestroysOfRun(scale: Scale, inputs: seq<Input>, id: U32)
    requires WellSince(inputs)
    ensures var posted := Through(scale, inputs).posted;
            && DestroyCount(posted, id) == DeleteCount(inputs, id) + LiveEndCount(scale, inputs, id)
            && CloseCount(posted, id) == LiveDeleteCount(scale, inputs, id) + LiveEndCount(scale, inputs, id)
            && CreateCount(posted, id) == CloseCount(posted, id) + if id in Shown(posted) then 1 else 0
  {
    ThroughMatches(scale, inputs);
    Balance(Through(scale, inputs).posted, id);
    if |inputs| > 0 {
      var init, last := inputs[..|inputs| - 1], inputs[|inputs| - 1];
      var s := Through(scale, init);
      DestroysOfRun(scale, init, id);
      ThroughMatches(scale, init);
      assert id in Shown(s.posted) <==> id in s.live;
      match last {
        case Called(call) => CallCounts(s, scale, call, id);
        case Ended => DestroysCount(s.posted, s.live, id);
      }
    }
  }

  // ---- sizes left behind -------------------------------------------------

  /** The size of the window's last create or update with a size, unless it was deleted
      since; sessions may have ended in between. */
  function LastSize(scale: Scale, inputs: seq<Input>, id: U32): Option<(int, int)>
  {
    if |inputs| == 0 then None
    else
      var init := inputs[..|inputs| - 1];
      match inputs[|inputs| - 1]
      case Called(WindowCreate(i, _, _, w, h, _)) => SizeOr(scale, i == id, w, h, LastSize(scale, init, id))
      case Called(WindowUpdate(i, _, _, w, h)) => SizeOr(scale, i == id, w, h, LastSize(scale, init, id))
      case Called(WindowDelete(i)) => if i == id then None else LastSize(scale, init, id)
      case _ => LastSize(scale, init, id)
  }

  function SizeOr(scale: Scale, named: bool, w: U32, h: U32, before: Option<(int, int)>): Option<(int, int)> {
    if named && w > 0 && h > 0 then Some((Points(w, scale), Points(h, scale))) else before
  }

  /** What earlier sessions left on record for the window, unless this one deleted it. */
  function SizeLeft(scale: Scale, inputs: seq<Input>, id: U32): Option<(int, int)>
  {
    if |inputs| == 0 then None
    else
      var init := inputs[..|inputs| - 1];
      match inputs[|inputs| - 1]
      case Ended => LastSize(scale, init, id)
      case Called(WindowDelete(i)) => if i == id then None else SizeLeft(scale, init, id)
      case _ => SizeLeft(scale, init, id)
  }

  function Recorded(s: State, id: U32): Option<(int, int)> {
    if id in s.logical then Some(s.logical[id]) else None
  }

  /** The record of sizes outlives a session: the end drains the live list only. */
  lemma {:induction false} RecordIsLastSize(scale: Scale, inputs: seq<Input>, id: U32)
    ensures Recorded(Through(scale, inputs), id) == LastSize(scale, inputs, id)
  {
    if |inputs| > 0 { RecordIsLastSize(scale, inputs[..|inputs| - 1], id); }
  }

  /** A window the present session gave no size has the size an earlier session left. */
  lemma {:induction false} UnsizedHasSizeLeft(scale: Scale, inputs: seq<Input>, id: U32)
    requires WellSince(inputs)
    ensures (id in OpenSince(inputs) && SizedSince(inputs, id))
            || LastSize(scale, inputs, id) == SizeLeft(scale, inputs, id)
  {
    if |inputs| > 0 { UnsizedHasSizeLeft(scale, inputs[..|inputs| - 1], id); }
  }

  /** Pixels for a window still waiting for its first size go to a window that is not shown,
      at the size an earlier session left on record for it, or else at the frame's own. */
  lemma DeferredPresent(scale: Scale, inputs: seq<Input>, id: U32, frame: Frame)
    requires WellSince(inputs) && id in OpenSince(inputs) && !SizedSince(inputs, id)
    requires frame.width > 0 && frame.height > 0
    ensures var s := Through(scale, inputs);
            var own := (Points(frame.width, scale), Points(frame.height, scale));
            var left := SizeLeft(scale, inputs, id);
            var size := if left.Some? then left.value else own;
            && Step(s, scale, WindowSurface(id, frame)).posted == s.posted + [Present(id, frame, size.0, size.1)]
            && id !in Shown(s.posted)
  {
    RecordIsLastSize(scale, inputs, id);
    UnsizedHasSizeLeft(scale, inputs, id);
    LiveIffSizedSince(scale, inputs, id);
    ThroughMatches(scale, inputs);
  }

  /** A size that outlives its session: the second session announces the window without a
      size, and its pixels are presented at the first session's. */
  lemma OldSizePresented(frame: Frame)
    requires frame.width > 0 && frame.height > 0
    ensures var inputs := [Called(WindowCreate(7, 0, 0, 10, 10, [])), Ended, Called(WindowCreate(7, 0, 0, 0, 0, []))];
            var s := Through(1, inputs);
            && WellSince(inputs)
            && Step(s, 1, WindowSurface(7, frame)).posted == s.posted + [Present(7, frame, 10, 10)]
  {
    var first, again := Called(WindowCreate(7, 0, 0, 10, 10, [])), Called(WindowCreate(7, 0, 0, 0, 0, []));
    var inputs := [first, Ended, again];
    assert inputs == [] + [first] + [Ended] + [again];
    SinceAppend([], first);
    SinceAppend([] + [first], Ended);
    SinceAppend([] + [first] + [Ended], again);
    assert inputs[..2] == [first, Ended] && [first, Ended][..1] == [first] && [first][..0] == [];
    assert SizeLeft(1, [first, Ended], 7) == LastSize(1, [first], 7) == Some((10, 10));
    DeferredPresent(1, inputs, 7, frame);
  }

  // ---- whole sessions ----------------------------------------------------

  datatype Happening = Wire(event: S.Event) | Lost

  /** The present session's bridge, which starts afresh after an end, and what has reached
      the Rust side. */
  function Sessions(hs: seq<Happening>): (B.Bridge, seq<Input>) {
    if |hs| == 0 then (B.Start(), [])
    else
      var (b, inputs) := Sessions(hs[..|hs| - 1]);
      match hs[|hs| - 1]
      case Lost => (B.Start(), inputs + [Ended])
      case Wire(e) =>
        var b' := S.Step(b, e);
        (b', inputs + Calleds(if |b.calls| <= |b'.calls| then b'.calls[|b.calls|..] else []))
  }

  /** The events of the present session. */
  function EventsSince(hs: seq<Happening>): seq<S.Event> {
    if |hs| == 0 then []
    else
      match hs[|hs| - 1]
      case Lost => []
      case Wire(e) => EventsSince(hs[..|hs| - 1]) + [e]
  }

  lemma SessionAppend(events: seq<S.Event>, e: S.Event)
    ensures S.Run(events + [e]) == S.Step(S.Run(events), e)
  {
    assert (events + [e])[..|events|] == events;
  }

  lemma CallsGrow(b: B.Bridge, e: S.Event)
    ensures b.calls <= S.Step(b, e).calls
  {
  }

  lemma {:induction false} SessionRun(hs: seq<Happening>)
    ensures Sessions(hs).0 == S.Run(EventsSince(hs))
  {
    if |hs| > 0 {
      SessionRun(hs[..|hs| - 1]);
      match hs[|hs| - 1] {
        case Lost =>
        case Wire(e) => SessionAppend(EventsSince(hs[..|hs| - 1]), e);
      }
    }
  }

  /** What reached the Rust side is well formed session by session, and what the present
      session has open there is what its bridge's callbacks have open. */
  ghost predicate Follows(inputs: seq<Input>, calls: seq<Call>) {
    WellSince(inputs) && OpenSince(inputs) == Open(calls)
  }

  lemma {:induction false} MoreCalls(was: seq<Call>, now: seq<Call>, inputs: seq<Input>)
    requires was <= now && WellFormed(now) && Follows(inputs, was)
    ensures Follows(inputs + Calleds(now[|was|..]), now)
    decreases |now|
  {
    if was == now {
      assert inputs + Calleds(now[|was|..]) == inputs;
    } else {
      var n := |now| - 1;
      MoreCalls(was, now[..n], inputs);
      var more := now[..n][|was|..];
      assert now[|was|..] == more + [now[n]];
      CalledsSnoc(now[|was|..]);
      assert now[|was|..][..|more|] == more;
      ConcatAssoc(inputs, Calleds(more), [Called(now[n])]);
      SinceAppend(inputs + Calleds(more), Called(now[n]));
    }
  }

  lemma {:induction false} SessionFollows(hs: seq<Happening>)
    ensures Follows(Sessions(hs).1, Sessions(hs).0.calls)
  {
    if |hs| > 0 {
      var (b, inputs) := Sessions(hs[..|hs| - 1]);
      SessionFollows(hs[..|hs| - 1]);
      match hs[|hs| - 1] {
        case Lost => SinceAppend(inputs, Ended);
        case Wire(e) =>
          SessionRun(hs);
          S.SessionStream(EventsSince(hs));
          CallsGrow(b, e);
          MoreCalls(b.calls, S.Step(b, e).calls, inputs);
      }
    }
  }

  /** For all sessions of window orders, surface events and ends: the counts of
      `DestroysOfRun` hold, what is shown is the live list, and a window is live iff the
      present session's router mirrors it and this session gave it a size since it created
      it. So nothing of an earlier session is left shown. */
  lemma DestroysOfSession(scale: Scale, hs: seq<Happening>, id: U32)
    ensures var (b, inputs) := Sessions(hs);
            var s := Through(scale, inputs);
            && DestroyCount(s.posted, id) == DeleteCount(inputs, id) + LiveEndCount(scale, inputs, id)
            && CloseCount(s.posted, id) == LiveDeleteCount(scale, inputs, id) + LiveEndCount(scale, inputs, id)
            && CreateCount(s.posted, id) == CloseCount(s.posted, id) + (if id in Shown(s.posted) then 1 else 0)
            && Shown(s.posted) == ToSet(s.live)
            && (id in s.live <==> R.Mirrored(b.router.windows, id) && SizedSince(inputs, id))
  {
    var (b, inputs) := Sessions(hs);
    SessionFollows(hs);
    SessionRun(hs);
    S.SessionStream(EventsSince(hs));
    DestroysOfRun(scale, inputs, id);
    ThroughMatches(scale, inputs);
    LiveIffSizedSince(scale, inputs, id);
  }
}
