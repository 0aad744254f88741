/** Whole RAIL sessions: any interleaving of window orders and surface events, and what
    the slot table, the router, the pending frames and the callback stream agree on. */
module RailSession {
  import opened Prelude
  import opened RailGeometry
  import R = RailRouter
  import opened RailFrame
  import opened RailCalls
  import C = RailClient
  import opened RailBridge

  datatype Event =
    | CreateOrder(oi: OrderInfo)
    | UpdateOrder(oi: OrderInfo)
    | DeleteOrder(id: U32)
    | Painted(sid: U16, surfaceWindow: U64, frame: Option<Frame>)
    | SurfaceMapped(sid: U16, windowId: U64)
    | WindowUnmapped(windowId: U64)

  function Step(b: Bridge, e: Event): Bridge {
    match e
    case CreateOrder(oi) => OnCreate(b, oi)
    case UpdateOrder(oi) => OnUpdate(b, oi)
    case DeleteOrder(id) => OnDelete(b, id)
    case Painted(sid, win, frame) => OnSurface(b, sid, win, frame)
    case SurfaceMapped(sid, win) => OnMapSurface(b, sid, win)
    case WindowUnmapped(win) => OnUnmapWindow(b, win)
  }

  function Run(events: seq<Event>): Bridge {
    if |events| == 0 then Start() else Step(Run(events[..|events| - 1]), events[|events| - 1])
  }

  // ---- slot tables -------------------------------------------------------

  ghost predicate OneSlotEach(slots: seq<Slot>) {
    forall i, j :: 0 <= i < j < |slots| && slots[i].used && slots[j].used ==> slots[i].id != slots[j].id
  }

  ghost function UsedIds(slots: seq<Slot>): set<U32> {
    set i | 0 <= i < |slots| && slots[i].used :: slots[i].id
  }

  lemma FoundIffUsed(slots: seq<Slot>, id: U32)
    ensures FindSlot(slots, id) < |slots| <==> id in UsedIds(slots)
  {
  }

  lemma AllocKeeps(slots: seq<Slot>, id: U32)
    requires OneSlotEach(slots)
    ensures match AllocSlot(slots, id)
            case None => id !in UsedIds(slots) && forall i :: 0 <= i < |slots| ==> slots[i].used
            case Some((i, slots')) =>
              && |slots'| == |slots| && i < |slots'| && Holds(slots'[i], id)
              && OneSlotEach(slots') && UsedIds(slots') == UsedIds(slots) + {id}
  {
    FoundIffUsed(slots, id);
    match AllocSlot(slots, id) {
      case None =>
      case Some((i, slots')) =>
        forall x ensures x in UsedIds(slots') <==> x in UsedIds(slots) + {id} {
          if x in UsedIds(slots) {
            var k :| 0 <= k < |slots| && slots[k].used && slots[k].id == x;
            assert slots'[k].used && slots'[k].id == x;
          }
          assert slots'[i].used && slots'[i].id == id;
        }
    }
  }

  lemma RefillKeeps(slots: seq<Slot>, i: nat, slot: Slot)
    requires OneSlotEach(slots) && i < |slots| && slots[i].used
    requires slot.used && slot.id == slots[i].id
    ensures OneSlotEach(slots[i := slot]) && UsedIds(slots[i := slot]) == UsedIds(slots)
  {
    var slots' := slots[i := slot];
    forall x ensures x in UsedIds(slots') <==> x in UsedIds(slots) {
      if x in UsedIds(slots) {
        var k :| 0 <= k < |slots| && slots[k].used && slots[k].id == x;
        assert slots'[k].used && slots'[k].id == x;
      }
    }
  }

  lemma ReleaseKeeps(slots: seq<Slot>, id: U32)
    requires OneSlotEach(slots)
    ensures var i := FindSlot(slots, id);
            var slots' := if i < |slots| then slots[i := slots[i].(used := false)] else slots;
            OneSlotEach(slots') && UsedIds(slots') == UsedIds(slots) - {id}
  {
    var i := FindSlot(slots, id);
    FoundIffUsed(slots, id);
    if i < |slots| {
      var slots' := slots[i := slots[i].(used := false)];
      forall x ensures x in UsedIds(slots') <==> x in UsedIds(slots) - {id} {
        if x in UsedIds(slots) - {id} {
          var k :| 0 <= k < |slots| && slots[k].used && slots[k].id == x;
          assert slots'[k].used && slots'[k].id == x;
        }
      }
    }
  }

  /** No more windows than slots. */
  lemma UsedIdsBounded(slots: seq<Slot>)
    ensures |UsedIds(slots)| <= |slots|
    decreases |slots|
  {
    if |slots| > 0 {
      var init, last := slots[..|slots| - 1], slots[|slots| - 1];
      UsedIdsBounded(init);
      assert UsedIds(slots) <= UsedIds(init) + {last.id};
      SubsetSize(UsedIds(slots), UsedIds(init) + {last.id});
    } else {
      assert UsedIds(slots) == {};
    }
  }

  lemma {:induction false} SubsetSize<T>(a: set<T>, b: set<T>)
    requires a <= b
    ensures |a| <= |b|
  {
    if a != {} {
      var x :| x in a;
      SubsetSize(a - {x}, b - {x});
    }
  }

  // ---- the invariant of every run ----------------------------------------

  /** Router and callback stream agree: the open windows are the mirrored ones, every
      create and delete was due, and no mirrored window is a covered frame. */
  ghost predicate CallsAgree(b: Bridge) {
    && R.Sound(b.router.windows)
    && b.router.demoted == []
    && WellFormed(b.calls)
    && Open(b.calls) == R.MirrorIds(b.router.windows)
  }

  ghost predicate OnePendingEach(pending: seq<Pending>) {
    forall i, j :: 0 <= i < j < |pending| && pending[i].used && pending[j].used ==> pending[i].sid != pending[j].sid
  }

  ghost predicate PendingFull(pending: seq<Pending>) {
    forall i :: 0 <= i < |pending| && pending[i].used ==> pending[i].frame.Some?
  }

  ghost predicate Inv(b: Bridge) {
    Tables(b) && CallsAgree(b)
  }

  /** The two tables have their fixed sizes, hold no id twice, and the used slots are the
      router's windows. */
  ghost predicate Tables(b: Bridge) {
    && |b.slots| == MAX_WINDOWS && |b.pending| == MAX_SURFACES
    && OneSlotEach(b.slots)
    && UsedIds(b.slots) == b.router.windows.Keys
    && OnePendingEach(b.pending) && PendingFull(b.pending)
  }

  lemma VerdictKeeps(calls: seq<Call>, v: R.Order, slot: Slot, oi: OrderInfo)
    requires WellFormed(calls)
    requires v.NewMirror? ==> slot.id !in Open(calls)
    requires v.NowFiltered? || v.KnownMirror? ==> slot.id in Open(calls)
    requires v.Suppressed? ==> slot.id !in Open(calls)
    ensures WellFormed(calls + VerdictCalls(v, slot, oi))
    ensures Open(calls + VerdictCalls(v, slot, oi)) ==
            if v.NewMirror? || v.KnownMirror? then Open(calls) + {slot.id} else Open(calls) - {slot.id}
  {
    AppendUpToOne(calls, VerdictCalls(v, slot, oi));
  }

  lemma DrainKeeps(calls: seq<Call>, p: U32)
    requires WellFormed(calls) && p in Open(calls) && p != 0
    ensures DrainRest([p]) == [] && DrainDeletes([p]) == [WindowDelete(p)]
    ensures WellFormed(calls + DrainDeletes([p]))
    ensures Open(calls + DrainDeletes([p])) == Open(calls) - {p}
  {
    assert [p][..0] == [];
    Append(calls, WindowDelete(p));
  }

  lemma RouteKeeps(b: Bridge, slot: Slot, oi: OrderInfo)
    requires CallsAgree(b)
    ensures var (b', v) := RouteOrder(b, slot, oi);
            && CallsAgree(b')
            && b'.slots == b.slots && b'.pending == b.pending
            && b'.router.windows.Keys == b.router.windows.Keys + {slot.id}
            && b'.router.surfMap == b.router.surfMap
            && (v.KnownMirror? ==> slot.id in R.MirrorIds(b'.router.windows))
  {
    var (r, v) := R.WindowOrder(b.router, slot.id, StyleOf(oi), RectOf(oi));
    R.OrderEffect(b.router, slot.id, StyleOf(oi), RectOf(oi));
    R.OrderKeepsSound(b.router, slot.id, StyleOf(oi), RectOf(oi));
    VerdictKeeps(b.calls, v, slot, oi);
    var mid := b.calls + VerdictCalls(v, slot, oi);
    if r.demoted == b.router.demoted {
      assert r.demoted == [] && DrainDeletes(r.demoted) == [] && DrainRest(r.demoted) == [];
      assert mid + [] == mid;
    } else {
      assert r.demoted == [r.demoted[0]];
      DrainKeeps(mid, r.demoted[0]);
      var b' := RouteOrder(b, slot, oi).0;
      assert b'.calls == mid + DrainDeletes(r.demoted) && b'.router.windows == r.windows;
      assert Open(b'.calls) == R.MirrorIds(r.windows);
    }
  }

  lemma CreateKeeps(b: Bridge, oi: OrderInfo)
    requires Inv(b)
    ensures Inv(OnCreate(b, oi))
  {
    AllocKeeps(b.slots, oi.id);
    match AllocSlot(b.slots, oi.id) {
      case None =>
      case Some((i, slots)) =>
        var slot := ApplyState(slots[i], oi);
        RefillKeeps(slots, i, slot);
        RouteKeeps(b.(slots := slots[i := slot]), slot, oi);
    }
  }

  lemma PlainKeeps(b: Bridge, slot: Slot, oi: OrderInfo)
    requires CallsAgree(b) && slot.id in Open(b.calls)
    ensures CallsAgree(b.(calls := b.calls + PlainUpdate(slot, oi)))
    ensures Open(b.calls + PlainUpdate(slot, oi)) == Open(b.calls)
  {
    var titles := if oi.hasTitle then [WindowTitle(slot.id, T.Utf8(oi.title))] else [];
    var updates := if oi.hasOffset || oi.hasSize then [WindowUpdate(slot.id, slot.x, slot.y, slot.w, slot.h)] else [];
    AppendUpToOne(b.calls, titles);
    AppendUpToOne(b.calls + titles, updates);
    assert b.calls + PlainUpdate(slot, oi) == b.calls + titles + updates;
  }

  lemma AppendUpToOne(calls: seq<Call>, more: seq<Call>)
    requires |more| <= 1
    ensures more == [] ==> calls + more == calls
    ensures |more| == 1 ==> Open(calls + more) == OpenStep(Open(calls), more[0])
    ensures |more| == 1 ==> (WellFormed(calls + more) <==> WellFormed(calls) && Proper(Open(calls), more[0]))
  {
    if |more| == 1 {
      Append(calls, more[0]);
      assert more == [more[0]];
    }
  }

  lemma UpdateKeeps(b: Bridge, oi: OrderInfo)
    requires Inv(b)
    ensures Inv(OnUpdate(b, oi))
  {
    var i := FindSlot(b.slots, oi.id);
    if i == |b.slots| {
      CreateKeeps(b, oi);
    } else {
      FoundIffUsed(b.slots, oi.id);
      RefillKeeps(b.slots, i, ApplyState(b.slots[i], oi));
      KnownKeeps(b.(slots := b.slots[i := ApplyState(b.slots[i], oi)]), ApplyState(b.slots[i], oi), oi);
    }
  }

  /** An order for a known window, its slot already holding the new state. */
  lemma KnownKeeps(b: Bridge, slot: Slot, oi: OrderInfo)
    requires Inv(b) && slot.id in b.router.windows
    ensures var (b', v) := RouteOrder(b, slot, oi);
            Inv(if v.KnownMirror? then b'.(calls := b'.calls + PlainUpdate(slot, oi)) else b')
  {
    RouteKeeps(b, slot, oi);
    var (b', v) := RouteOrder(b, slot, oi);
    assert b'.router.windows.Keys == b.router.windows.Keys;
    if v.KnownMirror? { PlainKeeps(b', slot, oi); }
  }

  lemma DeleteKeeps(b: Bridge, id: U32)
    requires Inv(b)
    ensures Inv(OnDelete(b, id))
  {
    ReleaseKeeps(b.slots, id);
    DeleteCalls(b, id);
  }

  lemma DeleteCalls(b: Bridge, id: U32)
    requires CallsAgree(b)
    ensures CallsAgree(OnDelete(b, id)) && OnDelete(b, id).router.windows.Keys == b.router.windows.Keys - {id}
  {
    R.DeleteKeepsSound(b.router, id);
    Append(b.calls, WindowDelete(id));
    DeleteMirrors(b.router, id);
  }

  lemma DeleteMirrors(r: R.State, id: U32)
    ensures R.MirrorIds(R.WindowDeleted(r, id).0.windows) == R.MirrorIds(r.windows) - {id}
  {
  }

  lemma ResolvedIsMirrored(r: R.State, sid: U16, surfaceWindow: U32)
    ensures ResolveId(r, sid, surfaceWindow) != 0 ==>
            ResolveId(r, sid, surfaceWindow) in R.MirrorIds(r.windows)
  {
  }

  lemma SurfaceCallKeeps(b: Bridge, win: U32, frame: Frame)
    requires CallsAgree(b) && win in Open(b.calls)
    ensures CallsAgree(b.(calls := b.calls + [WindowSurface(win, frame)]))
  {
    Append(b.calls, WindowSurface(win, frame));
  }

  lemma SetPendingKeeps(pending: seq<Pending>, sid: U16, frame: Frame)
    requires OnePendingEach(pending) && PendingFull(pending)
    ensures OnePendingEach(SetPending(pending, sid, frame)) && PendingFull(SetPending(pending, sid, frame))
    ensures |SetPending(pending, sid, frame)| == |pending|
  {
  }

  lemma ClearPendingKeeps(pending: seq<Pending>, sid: U16)
    requires OnePendingEach(pending) && PendingFull(pending)
    ensures OnePendingEach(ClearPending(pending, sid)) && PendingFull(ClearPending(pending, sid))
    ensures |ClearPending(pending, sid)| == |pending|
  {
  }

  lemma SurfaceCalls(b: Bridge, sid: U16, win: U64, frame: Option<Frame>)
    requires CallsAgree(b)
    ensures CallsAgree(OnSurface(b, sid, win, frame))
  {
    if frame.Some? {
      var to := ResolveId(b.router, sid, WrapU32(win));
      ResolvedIsMirrored(b.router, sid, WrapU32(win));
      if to != 0 { SurfaceCallKeeps(b, to, CropTo(b.slots, to, frame.value)); }
    }
  }

  lemma SurfaceTables(b: Bridge, sid: U16, win: U64, frame: Option<Frame>)
    requires Tables(b)
    ensures Tables(OnSurface(b, sid, win, frame))
  {
    if frame.Some? {
      SetPendingKeeps(b.pending, sid, frame.value);
      ClearPendingKeeps(b.pending, sid);
    }
  }

  lemma MapCalls(b: Bridge, sid: U16, win: U64)
    requires CallsAgree(b)
    ensures CallsAgree(OnMapSurface(b, sid, win))
  {
    var router := b.router.(surfMap := b.router.surfMap[sid := WrapU32(win)]);
    var i := FindPending(b.pending, sid);
    var to := ResolveId(router, sid, 0);
    ResolvedIsMirrored(router, sid, 0);
    if i < |b.pending| && b.pending[i].frame.Some? && to != 0 {
      SurfaceCallKeeps(b, to, CropTo(b.slots, to, b.pending[i].frame.value));
    }
  }

  lemma MapTables(b: Bridge, sid: U16, win: U64)
    requires Tables(b)
    ensures Tables(OnMapSurface(b, sid, win))
  {
    ClearPendingKeeps(b.pending, sid);
  }

  lemma StepKeeps(b: Bridge, e: Event)
    requires Inv(b)
    ensures Inv(Step(b, e))
  {
    match e
    case CreateOrder(oi) => CreateKeeps(b, oi);
    case UpdateOrder(oi) => UpdateKeeps(b, oi);
    case DeleteOrder(id) => DeleteKeeps(b, id);
    case Painted(sid, win, frame) =>
      SurfaceCalls(b, sid, win, frame);
      SurfaceTables(b, sid, win, frame);
    case SurfaceMapped(sid, win) =>
      MapCalls(b, sid, win);
      MapTables(b, sid, win);
    case WindowUnmapped(win) =>
  }

  lemma {:induction false} RunKeeps(events: seq<Event>)
    ensures Inv(Run(events))
  {
    if |events| > 0 {
      RunKeeps(events[..|events| - 1]);
      StepKeeps(Run(events[..|events| - 1]), events[|events| - 1]);
    } else {
      assert UsedIds(Start().slots) == {};
      assert R.MirrorIds(R.EMPTY.windows) == {};
    }
  }

  // ---- what a session guarantees -----------------------------------------

  /** The callbacks are well formed, and the windows created and not deleted since are
      exactly the router's mirrored ones, none of which is a covered frame. */
  ghost predicate StreamRight(b: Bridge) {
    && WellFormed(b.calls)
    && Open(b.calls) == R.MirrorIds(b.router.windows)
    && R.NoCoveredMirror(b.router.windows)
  }

  /** So after every sequence of orders, paints and mappings. */
  lemma SessionStream(events: seq<Event>)
    ensures StreamRight(Run(events))
  {
    RunKeeps(events);
  }

  /** The three layers agree on every run: used slots have distinct ids, which are the
      router's keys, so at most 256 windows are known; the Rust side's live list is
      duplicate-free, within the mirrored windows, and is what is shown natively; and
      a disconnect leaves nothing shown. */
  lemma LayersAgree(events: seq<Event>, scale: C.Scale)
    ensures var b := Run(events);
            var client := C.Run(scale, b.calls);
            && OneSlotEach(b.slots) && UsedIds(b.slots) == b.router.windows.Keys
            && |b.router.windows| <= 256
            && Distinct(client.live) && ToSet(client.live) <= R.MirrorIds(b.router.windows)
            && C.Shown(client.posted) == ToSet(client.live) && C.NoDoubleCreate(client.posted)
            && C.Shown(C.Disconnected(client).posted) == {}
  {
    RunKeeps(events);
    var b := Run(events);
    UsedIdsBounded(b.slots);
    assert |b.router.windows| == |b.router.windows.Keys|;
    C.ClientAgrees(scale, b.calls);
    C.DisconnectClosesAll(scale, b.calls);
  }

  // ---- the first window of a session -------------------------------------

  /** An order without style, owner, position or title. */
  function PlainOrder(id: U32, hasSize: bool, w: U32, h: U32): OrderInfo {
    OrderInfo(id, false, 0, 0, hasSize, w, h, false, 0, false, 0, false, [])
  }

  lemma EmptyTable(id: U32)
    ensures var slots := Start().slots;
            && |slots| == MAX_WINDOWS
            && AllocSlot(slots, id) == Some((0, slots[0 := Slot(true, id, 0, 0, 0, 0)]))
  {
    assert !Start().slots[0].used;
  }

  lemma FirstRouted(id: U32, rect: Rect)
    ensures R.WindowOrder(R.EMPTY, id, None, rect) == (R.State(map[id := R.Win(R.Mirror, None, rect)], map[], []), R.NewMirror)
  {
    assert R.Filed(map[], id, None, rect) == map[id := R.Win(R.Mirror, None, rect)];
  }

  /** A plain create order opening a session fills the first slot, is mirrored and makes one
      callback. */
  lemma FirstPlainOrder(id: U32, hasSize: bool, w: U32, h: U32)
    ensures var b := OnCreate(Start(), PlainOrder(id, hasSize, w, h));
            var slot := ApplyState(Slot(true, id, 0, 0, 0, 0), PlainOrder(id, hasSize, w, h));
            && |b.slots| == MAX_WINDOWS && b.slots[0] == slot
            && b.router == R.State(map[id := R.Win(R.Mirror, None, RectOf(PlainOrder(id, hasSize, w, h)))], map[], [])
            && b.calls == [WindowCreate(id, 0, 0, slot.w, slot.h, [])]
  {
    var first := PlainOrder(id, hasSize, w, h);
    EmptyTable(id);
    FirstRouted(id, RectOf(first));
    var create := [WindowCreate(id, 0, 0, if hasSize then w else 0, if hasSize then h else 0, [])];
    assert [] + create + [] == create;
  }
}
