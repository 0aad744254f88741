/** The C bridge: a fixed window table, a fixed table of frames that arrived before their
    surface was mapped, and the callbacks that turn router verdicts into window events. */
module RailBridge {
  import opened Prelude
  import opened RailGeometry
  import R = RailRouter
  import opened RailFrame
  import opened RailCalls
  import C = RailClient
  import T = RailTitle

  const MAX_WINDOWS := 256
  const MAX_SURFACES := 256

  datatype Slot = Slot(used: bool, id: U32, x: I32, y: I32, w: U32, h: U32)

  /** A pending-frame slot; `frame` is None while it holds no pixels. */
  datatype Pending = Pending(used: bool, sid: U16, frame: Option<Frame>)

  const NO_SLOT := Slot(false, 0, 0, 0, 0, 0)
  const NO_PENDING := Pending(false, 0, None)

  /** A window order with its field flags. */
  datatype OrderInfo = OrderInfo(
    id: U32,
    hasOffset: bool, x: I32, y: I32,
    hasSize: bool, w: U32, h: U32,
    hasStyle: bool, exstyle: U32,
    hasOwner: bool, owner: U32,
    hasTitle: bool, title: seq<Byte>)

  /** Bridge and router state, with every callback made so far. */
  datatype Bridge = Bridge(slots: seq<Slot>, pending: seq<Pending>, router: R.State, calls: seq<Call>)

  function Start(): Bridge {
    Bridge(seq(MAX_WINDOWS, _ => NO_SLOT), seq(MAX_SURFACES, _ => NO_PENDING), R.EMPTY, [])
  }

  // ---- window slots ------------------------------------------------------

  predicate Holds(slot: Slot, id: U32) { slot.used && slot.id == id }

  /** The first slot holding `id`, or `|slots|`. */
  function FindSlot(slots: seq<Slot>, id: U32): (i: nat)
    ensures i <= |slots|
    ensures i < |slots| ==> Holds(slots[i], id)
    ensures forall j :: 0 <= j < i ==> !Holds(slots[j], id)
  {
    if |slots| == 0 || Holds(slots[0], id) then 0 else 1 + FindSlot(slots[1..], id)
  }

  /** The first unused slot, or `|slots|`. */
  function FreeSlot(slots: seq<Slot>): (i: nat)
    ensures i <= |slots|
    ensures i < |slots| ==> !slots[i].used
    ensures forall j :: 0 <= j < i ==> slots[j].used
  {
    if |slots| == 0 || !slots[0].used then 0 else 1 + FreeSlot(slots[1..])
  }

  /** The slot for `id`, taken if need be, and the table with it; None when full. */
  function AllocSlot(slots: seq<Slot>, id: U32): Option<(nat, seq<Slot>)> {
    var i := FindSlot(slots, id);
    if i < |slots| then Some((i, slots))
    else
      var j := FreeSlot(slots);
      if j < |slots| then Some((j, slots[j := Slot(true, id, 0, 0, 0, 0)])) else None
  }

  function ApplyState(slot: Slot, oi: OrderInfo): Slot {
    var placed := if oi.hasOffset then slot.(x := oi.x, y := oi.y) else slot;
    if oi.hasSize then placed.(w := oi.w, h := oi.h) else placed
  }

  // ---- orders ------------------------------------------------------------

  function TitleOf(oi: OrderInfo): seq<Byte> {
    if oi.hasTitle then T.Utf8(oi.title) else []
  }

  /** What the router is told; a missing owner field reads as 0, and the geometry is the
      order's own even when its flags say it carries none. */
  function StyleOf(oi: OrderInfo): Option<R.Style> {
    if oi.hasStyle then Some(R.Style(oi.exstyle, if oi.hasOwner then oi.owner else 0)) else None
  }

  function RectOf(oi: OrderInfo): Rect {
    Rect(oi.x, oi.y, WrapI32(oi.w), WrapI32(oi.h))
  }

  /** The deletes for the queued demotions, newest first. Popping stops at 0, which is
      also the code for an empty queue. */
  function DrainDeletes(demoted: seq<U32>): seq<Call> {
    if |demoted| == 0 || demoted[|demoted| - 1] == 0 then []
    else [WindowDelete(demoted[|demoted| - 1])] + DrainDeletes(demoted[..|demoted| - 1])
  }

  function DrainRest(demoted: seq<U32>): seq<U32> {
    if |demoted| == 0 then []
    else if demoted[|demoted| - 1] == 0 then demoted[..|demoted| - 1]
    else DrainRest(demoted[..|demoted| - 1])
  }

  /** One turn of the drain. */
  lemma DrainOne(rest: seq<U32>, id: U32)
    ensures DrainRest(rest + [id]) == if id == 0 then rest else DrainRest(rest)
    ensures DrainDeletes(rest + [id]) == if id == 0 then [] else [WindowDelete(id)] + DrainDeletes(rest)
  {
    assert (rest + [id])[..|rest|] == rest;
  }

  function VerdictCalls(v: R.Order, slot: Slot, oi: OrderInfo): seq<Call> {
    match v
    case NewMirror => [WindowCreate(slot.id, slot.x, slot.y, slot.w, slot.h, TitleOf(oi))]
    case NowFiltered => [WindowDelete(slot.id)]
    case _ => []
  }

  function RouteOrder(b: Bridge, slot: Slot, oi: OrderInfo): (Bridge, R.Order) {
    var (router, v) := R.WindowOrder(b.router, slot.id, StyleOf(oi), RectOf(oi));
    (b.(router := router.(demoted := DrainRest(router.demoted)),
        calls := b.calls + VerdictCalls(v, slot, oi) + DrainDeletes(router.demoted)), v)
  }

  function OnCreate(b: Bridge, oi: OrderInfo): Bridge {
    match AllocSlot(b.slots, oi.id)
    case None => b
    case Some((i, slots)) =>
      var slot := ApplyState(slots[i], oi);
      RouteOrder(b.(slots := slots[i := slot]), slot, oi).0
  }

  /** The callbacks of a plain update. */
  function PlainUpdate(slot: Slot, oi: OrderInfo): seq<Call> {
    (if oi.hasTitle then [WindowTitle(slot.id, T.Utf8(oi.title))] else [])
    + (if oi.hasOffset || oi.hasSize then [WindowUpdate(slot.id, slot.x, slot.y, slot.w, slot.h)] else [])
  }

  function OnUpdate(b: Bridge, oi: OrderInfo): Bridge {
    var i := FindSlot(b.slots, oi.id);
    if i == |b.slots| then OnCreate(b, oi)
    else
      var slot := ApplyState(b.slots[i], oi);
      var (b', v) := RouteOrder(b.(slots := b.slots[i := slot]), slot, oi);
      if v.KnownMirror? then b'.(calls := b'.calls + PlainUpdate(slot, oi)) else b'
  }

  function OnDelete(b: Bridge, id: U32): Bridge {
    var i := FindSlot(b.slots, id);
    var (router, wasMirror) := R.WindowDeleted(b.router, id);
    b.(slots := if i < |b.slots| then b.slots[i := b.slots[i].(used := false)] else b.slots,
       router := router,
       calls := if wasMirror then b.calls + [WindowDelete(id)] else b.calls)
  }

  // ---- surfaces ----------------------------------------------------------

  predicate HoldsSurface(p: Pending, sid: U16) { p.used && p.sid == sid }

  function FindPending(pending: seq<Pending>, sid: U16): (i: nat)
    ensures i <= |pending|
    ensures i < |pending| ==> HoldsSurface(pending[i], sid)
    ensures forall j :: 0 <= j < i ==> !HoldsSurface(pending[j], sid)
  {
    if |pending| == 0 || HoldsSurface(pending[0], sid) then 0 else 1 + FindPending(pending[1..], sid)
  }

  function FreePending(pending: seq<Pending>): (i: nat)
    ensures i <= |pending|
    ensures i < |pending| ==> !pending[i].used
    ensures forall j :: 0 <= j < i ==> pending[j].used
  {
    if |pending| == 0 || !pending[0].used then 0 else 1 + FreePending(pending[1..])
  }

  function ClearPending(pending: seq<Pending>, sid: U16): seq<Pending> {
    var i := FindPending(pending, sid);
    if i < |pending| then pending[i := Pending(false, pending[i].sid, None)] else pending
  }

  /** Holds the frame for its surface; a full table drops it. */
  function SetPending(pending: seq<Pending>, sid: U16, frame: Frame): seq<Pending> {
    var i := FindPending(pending, sid);
    if i < |pending| then pending[i := Pending(true, sid, Some(frame))]
    else
      var j := FreePending(pending);
      if j < |pending| then pending[j := Pending(true, sid, Some(frame))] else pending
  }

  /** The frame cropped to the tracked window size. */
  function CropTo(slots: seq<Slot>, win: U32, frame: Frame): (f: Frame)
    ensures f.serial == frame.serial
  {
    var i := FindSlot(slots, win);
    if i < |slots| then Cropped(frame, slots[i].w, slots[i].h) else frame
  }

  /** The router's answer with 0 standing for "none". */
  function ResolveId(router: R.State, sid: U16, surfaceWindow: U32): U32 {
    match R.Resolve(router, sid, surfaceWindow)
    case Some(w) => w
    case None => 0
  }

  function OnSurface(b: Bridge, sid: U16, surfaceWindow: U64, frame: Option<Frame>): Bridge {
    match frame
    case None => b
    case Some(f) =>
      var win := ResolveId(b.router, sid, WrapU32(surfaceWindow));
      if win == 0 then b.(pending := SetPending(b.pending, sid, f))
      else b.(pending := ClearPending(b.pending, sid),
              calls := b.calls + [WindowSurface(win, CropTo(b.slots, win, f))])
  }

  function OnMapSurface(b: Bridge, sid: U16, windowId: U64): Bridge {
    var router := b.router.(surfMap := b.router.surfMap[sid := WrapU32(windowId)]);
    var i := FindPending(b.pending, sid);
    if i < |b.pending| && b.pending[i].frame.Some? then
      var win := ResolveId(router, sid, 0);
      b.(router := router,
         pending := ClearPending(b.pending, sid),
         calls := if win == 0 then b.calls
                  else b.calls + [WindowSurface(win, CropTo(b.slots, win, b.pending[i].frame.value))])
    else b.(router := router)
  }

  function OnUnmapWindow(b: Bridge, windowId: U64): Bridge {
    b.(router := b.router.(surfMap := R.Unmapped(b.router.surfMap, WrapU32(windowId))))
  }

  // ---- the callback table ------------------------------------------------

  /** The Rust callbacks, with the calls the present session made through them. `past` is
      everything that reached the Rust side up to the last end of a session. */
  class Callbacks {
    const client: C.Client
    ghost var calls: seq<Call>
    ghost var past: seq<C.Input>

    /** The Rust side has processed exactly what reached it so far. */
    ghost predicate Valid()
      reads this, client
    {
      client.St() == C.Through(client.scale, past + C.Calleds(calls))
    }

    constructor (scale: int)
      ensures Valid() && calls == [] && past == [] && fresh(client)
    {
      client := new C.Client(scale);
      calls, past := [], [];
    }

    method Create(slot: Slot, title: seq<Byte>)
      requires Valid()
      modifies client, this`calls
      ensures Valid() && calls == old(calls) + [WindowCreate(slot.id, slot.x, slot.y, slot.w, slot.h, title)]
    {
      client.OnCreate(slot.id, slot.x, slot.y, slot.w, slot.h, title);
      C.CalledNext(client.scale, past, calls, WindowCreate(slot.id, slot.x, slot.y, slot.w, slot.h, title));
      calls := calls + [WindowCreate(slot.id, slot.x, slot.y, slot.w, slot.h, title)];
    }

    method Delete(id: U32)
      requires Valid()
      modifies client, this`calls
      ensures Valid() && calls == old(calls) + [WindowDelete(id)]
    {
      client.OnDelete(id);
      C.CalledNext(client.scale, past, calls, WindowDelete(id));
      calls := calls + [WindowDelete(id)];
    }

    method Update(slot: Slot)
      requires Valid()
      modifies client, this`calls
      ensures Valid() && calls == old(calls) + [WindowUpdate(slot.id, slot.x, slot.y, slot.w, slot.h)]
    {
      client.OnUpdate(slot.id, slot.x, slot.y, slot.w, slot.h);
      C.CalledNext(client.scale, past, calls, WindowUpdate(slot.id, slot.x, slot.y, slot.w, slot.h));
      calls := calls + [WindowUpdate(slot.id, slot.x, slot.y, slot.w, slot.h)];
    }

    method Title(id: U32, title: seq<Byte>)
      requires Valid()
      modifies client, this`calls
      ensures Valid() && calls == old(calls) + [WindowTitle(id, title)]
    {
      client.OnTitle(id, title);
      C.CalledNext(client.scale, past, calls, WindowTitle(id, title));
      calls := calls + [WindowTitle(id, title)];
    }

    method Surface(id: U32, frame: Frame)
      requires Valid()
      modifies client, this`calls
      ensures Valid() && calls == old(calls) + [WindowSurface(id, frame)]
    {
      client.OnSurface(id, frame);
      C.CalledNext(client.scale, past, calls, WindowSurface(id, frame));
      calls := calls + [WindowSurface(id, frame)];
    }

    method Ended()
      requires Valid()
      modifies client, this`past, this`calls
      ensures Valid() && past == old(past + C.Calleds(calls)) + [C.Ended] && calls == []
      ensures client.St() == C.Disconnected(old(client.St()))
    {
      client.OnDisconnected();
      C.ThroughAppend(client.scale, past + C.Calleds(calls), C.Ended);
      past, calls := past + C.Calleds(calls) + [C.Ended], [];
      assert past + C.Calleds([]) == past;
    }

    method TitleBytes(bytes: seq<Byte>) returns (title: seq<Byte>)
      ensures title == T.Utf8(bytes)
    {
      var buf, len := T.TitleUtf8(bytes);
      title := buf[..len];
    }

    method Plain(slot: Slot, oi: OrderInfo)
      requires Valid()
      modifies client, this`calls
      ensures Valid() && calls == old(calls) + PlainUpdate(slot, oi)
    {
      if oi.hasTitle {
        var title := TitleBytes(oi.title);
        Title(slot.id, title);
      }
      if oi.hasOffset || oi.hasSize {
        Update(slot);
      }
    }

    /** Deletes every window the last order exposed as a frame. */
    method DrainDemoted(router: R.Router)
      requires Valid()
      modifies router`demoted, client, this`calls
      ensures Valid()
      ensures router.demoted == DrainRest(old(router.demoted))
      ensures calls == old(calls) + DrainDeletes(old(router.demoted))
    {
      ghost var all := router.demoted;
      var dead := Popped(router);
      while dead != 0
        invariant Valid()
        invariant if dead == 0 then router.demoted == DrainRest(all) && calls == old(calls) + DrainDeletes(all)
                  else DrainRest(router.demoted) == DrainRest(all)
                       && calls + ([WindowDelete(dead)] + DrainDeletes(router.demoted)) == old(calls) + DrainDeletes(all)
        decreases |router.demoted| + if dead == 0 then 0 else 1
      {
        ConcatAssoc(calls, [WindowDelete(dead)], DrainDeletes(router.demoted));
        Delete(dead);
        dead := Popped(router);
      }
    }

    /** Takes the newest demotion, 0 when there is none. */
    method Popped(router: R.Router) returns (dead: U32)
      modifies router`demoted
      ensures |router.demoted| <= |old(router.demoted)| && (dead != 0 ==> |router.demoted| < |old(router.demoted)|)
      ensures DrainDeletes(old(router.demoted)) == if dead == 0 then [] else [WindowDelete(dead)] + DrainDeletes(router.demoted)
      ensures DrainRest(old(router.demoted)) == if dead == 0 then router.demoted else DrainRest(router.demoted)
    {
      ghost var before := router.demoted;
      var id := router.Pop();
      dead := if id.Some? then id.value else 0;
      if id.Some? {
        assert before == router.demoted + [id.value];
        DrainOne(router.demoted, id.value);
      }
    }

    /** The callback of a verdict. */
    method Verdict(v: R.Order, slot: Slot, oi: OrderInfo)
      requires Valid()
      modifies client, this`calls
      ensures Valid() && calls == old(calls) + VerdictCalls(v, slot, oi)
    {
      match v {
        case NewMirror =>
          var title := [];
          if oi.hasTitle { title := TitleBytes(oi.title); }
          Create(slot, title);
        case NowFiltered => Delete(slot.id);
        case _ => assert calls + [] == calls;
      }
    }
  }

  // ---- the bridge itself -------------------------------------------------

  class RailContext {
    const windows: array<Slot>
    const pending: array<Pending>
    const router: R.Router
    const cb: Callbacks

    ghost function St(): Bridge
      reads windows, pending, router, cb
    {
      Bridge(windows[..], pending[..], router.St(), cb.calls)
    }

    ghost predicate Valid()
      reads cb, cb.client
    {
      windows.Length == MAX_WINDOWS && pending.Length == MAX_SURFACES && cb.Valid()
    }

    /** The start of a session: the routing state is cleared and the tables are zeroed,
        while the Rust side keeps what earlier sessions left it. */
    constructor (router: R.Router, cb: Callbacks)
      requires cb.Valid() && cb.calls == []
      modifies router
      ensures Valid() && St() == Start()
      ensures this.router == router && this.cb == cb
      ensures fresh(windows) && fresh(pending)
    {
      windows := new Slot[MAX_WINDOWS](_ => NO_SLOT);
      pending := new Pending[MAX_SURFACES](_ => NO_PENDING);
      this.router, this.cb := router, cb;
      new;
      router.Reset();
      assert windows[..] == seq(MAX_WINDOWS, _ => NO_SLOT);
      assert pending[..] == seq(MAX_SURFACES, _ => NO_PENDING);
    }

    method WinFind(id: U32) returns (i: nat)
      ensures i == FindSlot(windows[..], id)
    {
      i := 0;
      while i < windows.Length
        invariant 0 <= i <= windows.Length
        invariant FindSlot(windows[..], id) == i + FindSlot(windows[i..], id)
      {
        assert windows[i..][1..] == windows[i + 1..];
        if windows[i].used && windows[i].id == id {
          return;
        }
        i := i + 1;
      }
    }

    /** The index of the slot for `id`, or the table length when the table is full. */
    method WinAlloc(id: U32) returns (i: nat)
      modifies windows
      ensures i <= windows.Length
      ensures AllocSlot(old(windows[..]), id) == if i < windows.Length then Some((i, windows[..])) else None
      ensures i == windows.Length ==> windows[..] == old(windows[..])
    {
      i := WinFind(id);
      if i < windows.Length {
        return;
      }
      i := 0;
      while i < windows.Length
        invariant 0 <= i <= windows.Length
        invariant windows[..] == old(windows[..])
        invariant FreeSlot(windows[..]) == i + FreeSlot(windows[i..])
      {
        assert windows[i..][1..] == windows[i + 1..];
        if !windows[i].used {
          windows[i] := Slot(true, id, 0, 0, 0, 0);
          return;
        }
        i := i + 1;
      }
    }

    method RouteWindowOrder(slot: Slot, oi: OrderInfo) returns (v: R.Order)
      requires Valid()
      modifies router, cb, cb.client
      ensures Valid() && (St(), v) == RouteOrder(old(St()), slot, oi)
    {
      var exstyle := if oi.hasStyle then oi.exstyle else 0;
      var owner := if oi.hasOwner then oi.owner else 0;
      var style := if oi.hasStyle then Some(R.Style(exstyle, owner)) else None;
      v := router.Order(slot.id, style, Rect(oi.x, oi.y, WrapI32(oi.w), WrapI32(oi.h)));
      cb.Verdict(v, slot, oi);
      cb.DrainDemoted(router);
    }

    method WindowCreated(oi: OrderInfo)
      requires Valid()
      modifies windows, router, cb, cb.client
      ensures Valid() && St() == OnCreate(old(St()), oi)
    {
      var i := WinAlloc(oi.id);
      if i == windows.Length {
        return;
      }
      ApplyStateAt(i, oi);
      var _ := RouteWindowOrder(windows[i], oi);
    }

    method ApplyStateAt(i: nat, oi: OrderInfo)
      requires i < windows.Length
      modifies windows
      ensures windows[..] == old(windows[..])[i := ApplyState(old(windows[i]), oi)]
    {
      if oi.hasOffset {
        windows[i] := windows[i].(x := oi.x, y := oi.y);
      }
      if oi.hasSize {
        windows[i] := windows[i].(w := oi.w, h := oi.h);
      }
    }

    method WindowUpdated(oi: OrderInfo)
      requires Valid()
      modifies windows, router, cb, cb.client
      ensures Valid() && St() == OnUpdate(old(St()), oi)
    {
      var i := WinFind(oi.id);
      if i == windows.Length {
        WindowCreated(oi);
        return;
      }
      ApplyStateAt(i, oi);
      var slot := windows[i];
      var v := RouteWindowOrder(slot, oi);
      if v != R.KnownMirror {
        return;
      }
      cb.Plain(slot, oi);
    }

    method WindowDeleted(id: U32)
      requires Valid()
      modifies windows, router, cb, cb.client
      ensures Valid() && St() == OnDelete(old(St()), id)
    {
      var i := WinFind(id);
      if i < windows.Length {
        windows[i] := windows[i].(used := false);
      }
      var wasMirror := router.Delete(id);
      if wasMirror {
        cb.Delete(id);
      }
    }

    /** The surface's slot or, failing that, the first free one (`free`). */
    method PendingSlot(sid: U16) returns (i: nat, free: nat)
      ensures i == FindPending(pending[..], sid)
      ensures i == pending.Length ==> free == FreePending(pending[..])
    {
      i, free := 0, pending.Length;
      while i < pending.Length
        invariant 0 <= i <= pending.Length
        invariant FindPending(pending[..], sid) == i + FindPending(pending[i..], sid)
        invariant free <= pending.Length
        invariant FreePending(pending[..]) == if free < pending.Length then free else i + FreePending(pending[i..])
      {
        assert pending[i..][1..] == pending[i + 1..];
        if pending[i].used && pending[i].sid == sid {
          return;
        }
        if free == pending.Length && !pending[i].used {
          free := i;
        }
        i := i + 1;
      }
    }

    method PendingClear(sid: U16)
      modifies pending
      ensures pending[..] == ClearPending(old(pending[..]), sid)
    {
      var i, _ := PendingSlot(sid);
      if i < pending.Length {
        pending[i] := Pending(false, pending[i].sid, None);
      }
    }

    method PendingSet(sid: U16, frame: Frame)
      modifies pending
      ensures pending[..] == SetPending(old(pending[..]), sid, frame)
    {
      var i, free := PendingSlot(sid);
      if i < pending.Length {
        pending[i] := pending[i].(frame := Some(frame));
      } else if free < pending.Length {
        pending[free] := Pending(true, sid, Some(frame));
      }
    }

    method EmitSurface(win: U32, frame: Frame)
      requires Valid()
      modifies cb, cb.client
      ensures Valid() && cb.calls == old(cb.calls) + [WindowSurface(win, CropTo(windows[..], win, frame))]
    {
      var out := frame;
      var i := WinFind(win);
      if i < windows.Length && Crops(frame, windows[i].w, windows[i].h) {
        var cw, ch := windows[i].w, windows[i].h;
        MulLe(ch, frame.height, frame.stride);
        var buf := CropCopy(frame.data, frame.stride, 4 * cw, ch);
        out := FrameData(frame.serial, cw, ch, 4 * cw, buf[..]);
      }
      cb.Surface(win, out);
    }

    method UpdateSurfaceArea(sid: U16, surfaceWindow: U64, frame: Option<Frame>)
      requires Valid()
      modifies pending, cb, cb.client
      ensures Valid() && St() == OnSurface(old(St()), sid, surfaceWindow, frame)
    {
      if frame.None? {
        return;
      }
      var win := ResolveId(R.State(router.windows, router.surfMap, router.demoted), sid, WrapU32(surfaceWindow));
      if win == 0 {
        PendingSet(sid, frame.value);
        return;
      }
      PendingClear(sid);
      EmitSurface(win, frame.value);
    }

    method MapWindowForSurface(sid: U16, windowId: U64)
      requires Valid()
      modifies pending, router, cb, cb.client
      ensures Valid() && St() == OnMapSurface(old(St()), sid, windowId)
    {
      router.MapSurface(sid, WrapU32(windowId));
      var i, _ := PendingSlot(sid);
      if i < pending.Length && pending[i].frame.Some? { FlushPending(sid, pending[i].frame.value); }
    }

    /** Delivers a held frame if its surface now resolves, and releases it. */
    method FlushPending(sid: U16, frame: Frame)
      requires Valid()
      modifies pending, cb, cb.client
      ensures Valid()
      ensures pending[..] == ClearPending(old(pending[..]), sid)
      ensures var win := ResolveId(router.St(), sid, 0);
              cb.calls == if win == 0 then old(cb.calls) else old(cb.calls) + [WindowSurface(win, CropTo(windows[..], win, frame))]
    {
      var win := ResolveId(R.State(router.windows, router.surfMap, router.demoted), sid, 0);
      if win != 0 { EmitSurface(win, frame); }
      PendingClear(sid);
    }

    method UnmapWindowForSurface(windowId: U64)
      requires Valid()
      modifies router
      ensures Valid() && St() == OnUnmapWindow(old(St()), windowId)
    {
      router.UnmapWindow(WrapU32(windowId));
    }

    /** The end of the session, its last callback. This context is freed after it. */
    method SessionEnded()
      requires Valid()
      modifies cb, cb.client
      ensures cb.Valid() && cb.calls == []
      ensures cb.past == old(cb.past + C.Calleds(cb.calls)) + [C.Ended]
      ensures cb.client.St() == C.Disconnected(old(cb.client.St()))
    {
      cb.Ended();
    }
  }

  /** One session after another: the next one starts on reset tables, whatever the last one
      held, and the Rust side goes on from the last one's end. */
  method NextSession(last: RailContext) returns (next: RailContext)
    requires last.Valid()
    modifies last.router, last.cb, last.cb.client
    ensures next.Valid() && next.St() == Start()
    ensures next.router == last.router && next.cb == last.cb
    ensures next.cb.past == old(last.cb.past + C.Calleds(last.cb.calls)) + [C.Ended]
    ensures next.cb.client.St() == C.Disconnected(old(last.cb.client.St()))
  {
    last.SessionEnded();
    next := new RailContext(last.router, last.cb);
  }
}
