/** What every order does in every reachable state, read off its fields: the window table,
    the tracked geometry and the callbacks. */
module RailOrders {
  import opened Prelude
  import opened RailGeometry
  import R = RailRouter
  import opened RailFrame
  import opened RailCalls
  import T = RailTitle
  import opened RailBridge
  import opened RailSession
  import opened RailWire

  predicate IsOrder(e: Event) { e.CreateOrder? || e.UpdateOrder? }

  // ---- the window table --------------------------------------------------

  /** Some other window owns up to `q` and covers it. */
  ghost predicate Covered(ws: R.Windows, q: U32)
    requires q in ws
  {
    exists c :: c in ws && c != q && ws[c].owner == Some(q) && ws[c].rect.Covers(ws[q].rect)
  }

  /** The ordered window: its owner is the one named, or else the one it had; its rectangle is
      the order's; and it is filtered iff it is styled as decoration, is covered, or was
      filtered and the order brings no style. */
  ghost predicate OwnRow(ws: R.Windows, ws': R.Windows, oi: OrderInfo)
    requires oi.id in ws'
  {
    var id, owner := oi.id, ws'[oi.id].owner;
    && owner == (if NamesOwner(oi) then Some(oi.owner) else if id in ws then ws[id].owner else None)
    && ws'[id].rect == Place(oi)
    && (ws'[id].kind == R.Filtered <==>
        || (oi.hasStyle && (oi.exstyle / 0x80 % 2 == 1 || (oi.exstyle / 0x0800_0000 % 2 == 1 && owner.Some?)))
        || Covered(ws', id)
        || (!oi.hasStyle && id in ws && ws[id].kind == R.Filtered))
  }

  /** Any other window: only its kind can change, and it is filtered iff it was or the ordered
      window is owned by it and it is covered. */
  ghost predicate OtherRow(ws: R.Windows, ws': R.Windows, oi: OrderInfo, q: U32)
    requires oi.id in ws' && q in ws && q in ws'
  {
    && ws'[q].owner == ws[q].owner && ws'[q].rect == ws[q].rect
    && (ws'[q].kind == R.Filtered <==>
        ws[q].kind == R.Filtered || (ws'[oi.id].owner == Some(q) && Covered(ws', q)))
  }

  ghost predicate TableRule(ws: R.Windows, ws': R.Windows, oi: OrderInfo) {
    && ws'.Keys == ws.Keys + {oi.id}
    && OwnRow(ws, ws', oi)
    && forall q :: q in ws && q != oi.id ==> OtherRow(ws, ws', oi, q)
  }

  lemma CoveredMeans(ws: R.Windows, q: U32)
    requires q in ws
    ensures R.HasCoveringChild(ws, q) <==> Covered(ws, q)
  {
    if Covered(ws, q) {
      var c :| c in ws && c != q && ws[c].owner == Some(q) && ws[c].rect.Covers(ws[q].rect);
      assert R.CoveringChild(ws, c, q);
    }
  }

  lemma FiledRow(ws: R.Windows, oi: OrderInfo)
    ensures var filed := R.Filed(ws, oi.id, StyleOf(oi), RectOf(oi));
            && filed.Keys == ws.Keys + {oi.id} && OwnRow(ws, filed, oi)
            && forall q :: q in ws && q != oi.id ==> filed[q] == ws[q]
  {
    var id, style := oi.id, StyleOf(oi);
    var owner, prev := R.OrderOwner(ws, id, style), R.PrevKind(ws, id);
    var placed := ws[id := R.Win(if prev.Some? then prev.value else R.Mirror, owner, RectOf(oi))];
    var filed := R.Filed(ws, id, style, RectOf(oi));
    assert filed == placed[id := placed[id].(kind := filed[id].kind)];
    R.CoveringIgnoresKind(placed, id, filed[id].kind, id);
    CoveredMeans(filed, id);
  }

  lemma CoveredIgnoresKind(ws: R.Windows, p: U32, q: U32)
    requires p in ws && q in ws
    ensures Covered(ws[p := ws[p].(kind := R.Filtered)], q) <==> Covered(ws, q)
  {
    CoveredMeans(ws, q);
    CoveredMeans(ws[p := ws[p].(kind := R.Filtered)], q);
    R.CoveringIgnoresKind(ws, p, R.Filtered, q);
  }

  /** Every order, whatever the table. */
  lemma OrderRule(r: R.State, oi: OrderInfo)
    requires R.OwnersNamed(r.windows)
    ensures TableRule(r.windows, R.WindowOrder(r, oi.id, StyleOf(oi), RectOf(oi)).0.windows, oi)
  {
    var ws, filed := r.windows, R.Filed(r.windows, oi.id, StyleOf(oi), RectOf(oi));
    var ws' := R.WindowOrder(r, oi.id, StyleOf(oi), RectOf(oi)).0.windows;
    FiledRow(ws, oi);
    R.OrderTable(r, oi.id, StyleOf(oi), RectOf(oi));
    var p := R.Exposed(filed, filed[oi.id].owner);
    if p.Some? {
      CoveredMeans(filed, p.value);
      CoveredIgnoresKind(filed, p.value, oi.id);
      ExposedOther(ws, filed, oi, p.value);
    }
    forall q | q in ws && q != oi.id ensures OtherRow(ws, ws', oi, q) {
      CoveredMeans(filed, q);
      if p.Some? { CoveredIgnoresKind(filed, p.value, q); }
    }
  }

  /** The ordered window, filtered if covered, is never the one exposed. */
  lemma ExposedOther(ws: R.Windows, filed: R.Windows, oi: OrderInfo, p: U32)
    requires oi.id in filed && OwnRow(ws, filed, oi)
    requires R.Exposed(filed, filed[oi.id].owner) == Some(p)
    ensures p != oi.id
  {
    CoveredMeans(filed, oi.id);
  }

  // ---- how an order is routed --------------------------------------------

  /** The window has a slot, or there is one for it. */
  predicate Room(b: Bridge, id: U32) {
    id in b.router.windows || exists i :: 0 <= i < |b.slots| && !b.slots[i].used
  }

  /** Create and update orders alike are routed with the window's new state in its slot; an
      update of a window that stays mirrored is passed on after that. */
  lemma OrderRoutes(b: Bridge, e: Event)
    requires Inv(b) && IsOrder(e)
    ensures AllocSlot(b.slots, e.oi.id).Some? <==> Room(b, e.oi.id)
    ensures match AllocSlot(b.slots, e.oi.id)
            case None => Step(b, e) == b
            case Some((i, slots)) =>
              var slot := ApplyState(slots[i], e.oi);
              var (routed, v) := RouteOrder(b.(slots := slots[i := slot]), slot, e.oi);
              && slot.id == e.oi.id
              && Step(b, e).slots == slots[i := slot] && Step(b, e).router == routed.router
              && Step(b, e).calls == routed.calls + if e.UpdateOrder? && v.KnownMirror? then PlainUpdate(slot, e.oi) else []
  {
    var i, j := FindSlot(b.slots, e.oi.id), FreeSlot(b.slots);
    FoundIffUsed(b.slots, e.oi.id);
    match AllocSlot(b.slots, e.oi.id) {
      case None =>
      case Some((k, slots)) =>
        var slot := ApplyState(slots[k], e.oi);
        var (routed, v) := RouteOrder(b.(slots := slots[k := slot]), slot, e.oi);
        assert routed.calls + [] == routed.calls;
        if i == |b.slots| { R.KnownMirrorIff(b.router, slot.id, StyleOf(e.oi), RectOf(e.oi)); }
    }
  }

  /** The table after any event of a session: orders follow the rule unless the window is new
      and all slots are taken, a delete removes its window, and nothing else changes it. */
  lemma StepTable(b: Bridge, e: Event)
    requires Inv(b)
    ensures var ws, ws' := b.router.windows, Step(b, e).router.windows;
            if IsOrder(e) then (if Room(b, e.oi.id) then TableRule(ws, ws', e.oi) else ws' == ws)
            else ws' == if e.DeleteOrder? then ws - {e.id} else ws
  {
    if IsOrder(e) {
      OrderRoutes(b, e);
      OrderRule(b.router, e.oi);
    }
  }

  // ---- tracked geometry --------------------------------------------------

  datatype Geometry = Geometry(x: I32, y: I32, w: U32, h: U32)

  const NOWHERE := Geometry(0, 0, 0, 0)

  /** The geometry with the parts the order gives. */
  function Moved(g: Geometry, oi: OrderInfo): Geometry {
    Geometry(if oi.hasOffset then oi.x else g.x, if oi.hasOffset then oi.y else g.y,
             if oi.hasSize then oi.w else g.w, if oi.hasSize then oi.h else g.h)
  }

  predicate At(slot: Slot, g: Geometry) {
    slot.x == g.x && slot.y == g.y && slot.w == g.w && slot.h == g.h
  }

  /** The window's slot, if it has one, holds this geometry. */
  ghost predicate Tracks(slots: seq<Slot>, id: U32, g: Geometry) {
    forall i :: 0 <= i < |slots| && slots[i].used && slots[i].id == id ==> At(slots[i], g)
  }

  /** What the orders gave the window since it has its slot; 0 for what they did not give. */
  function Given(events: seq<Event>, id: U32): Geometry {
    if |events| == 0 || id !in Run(events).router.windows then NOWHERE
    else
      var init, e := events[..|events| - 1], events[|events| - 1];
      if IsOrder(e) && e.oi.id == id then Moved(Given(init, id), e.oi) else Given(init, id)
  }

  lemma StepTracks(b: Bridge, e: Event, id: U32, g: Geometry)
    requires Inv(b) && Tracks(b.slots, id, g) && (id !in b.router.windows ==> g == NOWHERE)
    ensures Tracks(Step(b, e).slots, id, if IsOrder(e) && e.oi.id == id then Moved(g, e.oi) else g)
  {
    if IsOrder(e) { OrderTracks(b, e, id, g); }
  }

  lemma OrderTracks(b: Bridge, e: Event, id: U32, g: Geometry)
    requires Inv(b) && IsOrder(e) && Tracks(b.slots, id, g) && (id !in b.router.windows ==> g == NOWHERE)
    ensures Tracks(Step(b, e).slots, id, if e.oi.id == id then Moved(g, e.oi) else g)
  {
    OrderRoutes(b, e);
    match AllocSlot(b.slots, e.oi.id) {
      case None => FoundIffUsed(b.slots, e.oi.id);
      case Some((i, slots)) =>
        FoundIffUsed(b.slots, e.oi.id);
        AllocTracks(b.slots, e.oi.id, id, g);
        MovedTracks(slots, i, e.oi, id, g);
    }
  }

  lemma AllocTracks(slots: seq<Slot>, id: U32, q: U32, g: Geometry)
    requires OneSlotEach(slots) && AllocSlot(slots, id).Some?
    requires Tracks(slots, q, g) && (q !in UsedIds(slots) ==> g == NOWHERE)
    ensures var (i, slots') := AllocSlot(slots, id).value;
            i < |slots'| && Holds(slots'[i], id) && OneSlotEach(slots') && Tracks(slots', q, g)
  {
    AllocKeeps(slots, id);
    FoundIffUsed(slots, id);
  }

  lemma MovedTracks(slots: seq<Slot>, i: nat, oi: OrderInfo, q: U32, g: Geometry)
    requires OneSlotEach(slots) && i < |slots| && Holds(slots[i], oi.id) && Tracks(slots, q, g)
    ensures Tracks(slots[i := ApplyState(slots[i], oi)], q, if oi.id == q then Moved(g, oi) else g)
  {
  }

  /** On every run each slot holds what the orders gave its window. */
  lemma {:induction false} GeometryOfRun(events: seq<Event>, id: U32)
    ensures Tracks(Run(events).slots, id, Given(events, id))
  {
    RunKeeps(events);
    if id !in Run(events).router.windows {
      var slots := Run(events).slots;
      forall i | 0 <= i < |slots| && slots[i].used ensures slots[i].id in UsedIds(slots) {}
    } else if |events| > 0 {
      var init := events[..|events| - 1];
      GeometryOfRun(init, id);
      RunKeeps(init);
      StepTracks(Run(init), events[|events| - 1], id, Given(init, id));
    }
  }

  // ---- callbacks ---------------------------------------------------------

  /** The callbacks about the ordered window itself. */
  function Own(was: bool, now: bool, g: Geometry, oi: OrderInfo): seq<Call> {
    if now && !was then [WindowCreate(oi.id, g.x, g.y, g.w, g.h, if oi.hasTitle then T.Utf8(oi.title) else [])]
    else if was && !now then [WindowDelete(oi.id)]
    else []
  }

  /** What an update of a window that was and is mirrored passes on. */
  function PassedOn(g: Geometry, oi: OrderInfo): seq<Call> {
    (if oi.hasTitle then [WindowTitle(oi.id, T.Utf8(oi.title))] else [])
    + if oi.hasOffset || oi.hasSize then [WindowUpdate(oi.id, g.x, g.y, g.w, g.h)] else []
  }

  /** Nothing, or the delete of another window that was open and is no more. */
  ghost predicate FrameGone(before: set<U32>, after: set<U32>, id: U32, frame: seq<Call>) {
    frame == [] || exists p :: p != id && p in before && p !in after && frame == [WindowDelete(p)]
  }

  /** An order that finds room makes these callbacks, in this order: its own window's create or
      delete; the delete of the window it shows to be a frame, if any; and, for an update of a
      window that stays mirrored, the new title and the new geometry. */
  ghost predicate Answers(b: Bridge, b': Bridge, e: Event, g: Geometry)
    requires IsOrder(e)
  {
    exists frame: seq<Call> {:trigger FrameGone(Open(b.calls), Open(b'.calls), e.oi.id, frame)} ::
      && FrameGone(Open(b.calls), Open(b'.calls), e.oi.id, frame)
      && AnswersWith(b.calls, b'.calls, e, g, frame)
  }

  predicate AnswersWith(calls: seq<Call>, calls': seq<Call>, e: Event, g: Geometry, frame: seq<Call>)
    requires IsOrder(e)
  {
    var was, now := e.oi.id in Open(calls), e.oi.id in Open(calls');
    calls' == calls + Own(was, now, g, e.oi) + frame + if e.UpdateOrder? && was && now then PassedOn(g, e.oi) else []
  }

  /** The verdict told from the mirrored windows before and after, and the drain's callback. */
  lemma RoutedFrame(r: R.State, oi: OrderInfo)
    requires R.Sound(r.windows) && r.demoted == []
    ensures var (r', v) := R.WindowOrder(r, oi.id, StyleOf(oi), RectOf(oi));
            var was, now := oi.id in R.MirrorIds(r.windows), oi.id in R.MirrorIds(r'.windows);
            && (v.NewMirror? <==> !was && now) && (v.NowFiltered? <==> was && !now) && (v.KnownMirror? <==> was && now)
            && FrameGone(R.MirrorIds(r.windows), R.MirrorIds(r'.windows), oi.id, DrainDeletes(r'.demoted))
  {
    var r' := R.WindowOrder(r, oi.id, StyleOf(oi), RectOf(oi)).0;
    R.OrderEffect(r, oi.id, StyleOf(oi), RectOf(oi));
    if r'.demoted != [] {
      assert r'.demoted == [r'.demoted[0]];
      DrainSingle(r'.demoted[0]);
    }
  }

  lemma DrainSingle(p: U32)
    requires p != 0
    ensures DrainDeletes([p]) == [WindowDelete(p)]
  {
    DrainOne([], p);
    assert [] + [p] == [p];
  }

  lemma OrderAnswers(b: Bridge, e: Event, g: Geometry)
    requires Inv(b) && IsOrder(e) && Room(b, e.oi.id)
    requires Tracks(Step(b, e).slots, e.oi.id, g)
    ensures Answers(b, Step(b, e), e, g)
  {
    OrderRoutes(b, e);
    StepKeeps(b, e);
    var (i, slots) := AllocSlot(b.slots, e.oi.id).value;
    var slot := ApplyState(slots[i], e.oi);
    SlotTracked(Step(b, e).slots, i, slot, g);
    RoutedAnswers(b, b.(slots := slots[i := slot]), slot, e, Step(b, e), g);
  }

  lemma SlotTracked(slots: seq<Slot>, i: nat, slot: Slot, g: Geometry)
    requires i < |slots| && slots[i] == slot && slot.used && Tracks(slots, slot.id, g)
    ensures At(slot, g)
  {
  }

  lemma RoutedAnswers(b: Bridge, b0: Bridge, slot: Slot, e: Event, b': Bridge, g: Geometry)
    requires CallsAgree(b) && CallsAgree(b') && b0 == b.(slots := b0.slots)
    requires IsOrder(e) && slot.id == e.oi.id && At(slot, g)
    requires var (routed, v) := RouteOrder(b0, slot, e.oi);
             && b'.router == routed.router
             && b'.calls == routed.calls + if e.UpdateOrder? && v.KnownMirror? then PlainUpdate(slot, e.oi) else []
    ensures Answers(b, b', e, g)
  {
    var (r, v) := R.WindowOrder(b.router, slot.id, StyleOf(e.oi), RectOf(e.oi));
    var was, now := e.oi.id in Open(b.calls), e.oi.id in Open(b'.calls);
    RoutedFrame(b.router, e.oi);
    assert b'.router.windows == r.windows;
    assert VerdictCalls(v, slot, e.oi) == Own(was, now, g, e.oi);
    assert PlainUpdate(slot, e.oi) == PassedOn(g, e.oi);
    assert AnswersWith(b.calls, b'.calls, e, g, DrainDeletes(r.demoted));
  }

  /** On every run: what the order at `n` makes the bridge call. */
  lemma AnswersOfRun(events: seq<Event>, n: nat)
    requires n < |events| && IsOrder(events[n]) && Room(Run(events[..n]), events[n].oi.id)
    ensures Answers(Run(events[..n]), Run(events[..n + 1]), events[n], Given(events[..n + 1], events[n].oi.id))
  {
    assert events[..n + 1][..n] == events[..n];
    RunKeeps(events[..n]);
    GeometryOfRun(events[..n + 1], events[n].oi.id);
    OrderAnswers(Run(events[..n]), events[n], Given(events[..n + 1], events[n].oi.id));
  }
}
