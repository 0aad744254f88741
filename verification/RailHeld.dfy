/** Frames that arrive before their surface is mapped: held, replaced by newer ones, and
    delivered at most once and in order. */
module RailHeld {
  import opened Prelude
  import R = RailRouter
  import opened RailFrame
  import opened RailCalls
  import opened RailBridge
  import opened RailSession

  predicate Paints(e: Event) { e.Painted? && e.frame.Some? }

  /** Frames are numbered in order of arrival. */
  predicate Labelled(events: seq<Event>) {
    forall i, j :: 0 <= i < j < |events| && Paints(events[i]) && Paints(events[j]) ==>
      events[i].frame.value.serial < events[j].frame.value.serial
  }

  /** The last frame that arrived for a surface. */
  function Newest(events: seq<Event>, sid: U16): Option<Frame> {
    if |events| == 0 then None
    else
      var last := events[|events| - 1];
      if Paints(last) && last.sid == sid then last.frame else Newest(events[..|events| - 1], sid)
  }

  predicate PaintedOn(events: seq<Event>, sid: U16, serial: nat) {
    exists k :: 0 <= k < |events| && Paints(events[k]) && events[k].sid == sid && events[k].frame.value.serial == serial
  }

  predicate Painted(events: seq<Event>, serial: nat) {
    exists k :: 0 <= k < |events| && Paints(events[k]) && events[k].frame.value.serial == serial
  }

  /** Call `k` delivers a frame that arrived for surface `sid`. */
  predicate Delivers(calls: seq<Call>, events: seq<Event>, k: nat, sid: U16) {
    k < |calls| && calls[k].WindowSurface? && PaintedOn(events, sid, calls[k].frame.serial)
  }

  ghost predicate DeliveredInOrder(calls: seq<Call>, events: seq<Event>) {
    forall i: nat, j: nat, sid :: i < j && Delivers(calls, events, i, sid) && Delivers(calls, events, j, sid) ==>
      calls[i].frame.serial < calls[j].frame.serial
  }

  ghost predicate DeliveredArrived(calls: seq<Call>, events: seq<Event>) {
    forall k :: 0 <= k < |calls| && calls[k].WindowSurface? ==>
      Painted(events, calls[k].frame.serial)
  }

  /** A held frame is the surface's newest, and newer than all it ever had delivered. */
  ghost predicate HeldIsNewest(p: Pending, calls: seq<Call>, events: seq<Event>) {
    p.used ==>
      && p.frame == Newest(events, p.sid) && p.frame.Some?
      && PaintedOn(events, p.sid, p.frame.value.serial)
      && forall k: nat :: Delivers(calls, events, k, p.sid) ==> calls[k].frame.serial < p.frame.value.serial
  }

  ghost predicate HeldInv(b: Bridge, events: seq<Event>) {
    && DeliveredInOrder(b.calls, events)
    && DeliveredArrived(b.calls, events)
    && forall i :: 0 <= i < |b.pending| ==> HeldIsNewest(b.pending[i], b.calls, events)
  }

  // ---- bookkeeping -------------------------------------------------------

  lemma AppendEvent(events: seq<Event>, e: Event)
    ensures forall sid :: Newest(events + [e], sid) == if Paints(e) && e.sid == sid then e.frame else Newest(events, sid)
    ensures forall sid, n :: PaintedOn(events + [e], sid, n) <==>
              PaintedOn(events, sid, n) || (Paints(e) && e.sid == sid && e.frame.value.serial == n)
    ensures forall n :: Painted(events + [e], n) <==> Painted(events, n) || (Paints(e) && e.frame.value.serial == n)
  {
    var all := events + [e];
    assert all[..|events|] == events;
    forall sid, n | PaintedOn(events, sid, n) ensures PaintedOn(all, sid, n) {
      var k :| 0 <= k < |events| && Paints(events[k]) && events[k].sid == sid && events[k].frame.value.serial == n;
      assert all[k] == events[k];
    }
    forall n | Painted(events, n) ensures Painted(all, n) {
      var k :| 0 <= k < |events| && Paints(events[k]) && events[k].frame.value.serial == n;
      assert all[k] == events[k];
    }
    assert all[|events|] == e;
  }

  /** A newly painted frame outnumbers everything painted before it. */
  lemma NewSerial(events: seq<Event>, e: Event, n: nat)
    requires Labelled(events + [e]) && Paints(e) && Painted(events, n)
    ensures n < e.frame.value.serial
  {
    var all := events + [e];
    var k :| 0 <= k < |events| && Paints(events[k]) && events[k].frame.value.serial == n;
    assert all[k] == events[k] && all[|events|] == e;
  }

  lemma OneSurfacePerSerial(events: seq<Event>, sid: U16, sid': U16, n: nat)
    requires Labelled(events) && PaintedOn(events, sid, n) && PaintedOn(events, sid', n)
    ensures sid == sid'
  {
    var k :| 0 <= k < |events| && Paints(events[k]) && events[k].sid == sid && events[k].frame.value.serial == n;
    var k' :| 0 <= k' < |events| && Paints(events[k']) && events[k'].sid == sid' && events[k'].frame.value.serial == n;
    assert k == k';
  }

  /** Calls that deliver no frame leave every delivery where it was. */
  predicate NoFrames(more: seq<Call>) {
    forall c :: c in more ==> !c.WindowSurface?
  }

  lemma DeliversMore(calls: seq<Call>, more: seq<Call>, events: seq<Event>, k: nat, sid: U16)
    requires NoFrames(more)
    ensures Delivers(calls + more, events, k, sid) <==> Delivers(calls, events, k, sid)
    ensures Delivers(calls, events, k, sid) ==> (calls + more)[k] == calls[k]
  {
    if |calls| <= k < |calls + more| {
      assert (calls + more)[k] in more;
    }
  }

  lemma QuietCalls(b: Bridge, more: seq<Call>, events: seq<Event>)
    requires HeldInv(b, events) && NoFrames(more)
    ensures HeldInv(b.(calls := b.calls + more), events)
  {
    var calls := b.calls + more;
    forall k: nat, sid ensures Delivers(calls, events, k, sid) <==> Delivers(b.calls, events, k, sid) {
      DeliversMore(b.calls, more, events, k, sid);
    }
    forall k | |b.calls| <= k < |calls| ensures !calls[k].WindowSurface? {
      assert calls[k] in more;
    }
  }

  /** An event that paints nothing changes no fact about arrivals. */
  lemma QuietEvent(b: Bridge, events: seq<Event>, e: Event)
    requires HeldInv(b, events) && !Paints(e)
    ensures HeldInv(b, events + [e])
  {
    AppendEvent(events, e);
    forall k: nat, sid ensures Delivers(b.calls, events + [e], k, sid) <==> Delivers(b.calls, events, k, sid) {}
  }

  lemma OrderMakesNoFrames(b: Bridge, slot: Slot, oi: OrderInfo)
    ensures exists more :: RouteOrder(b, slot, oi).0.calls == b.calls + more && NoFrames(more)
  {
    var r := R.WindowOrder(b.router, slot.id, StyleOf(oi), RectOf(oi));
    var more := VerdictCalls(r.1, slot, oi) + DrainDeletes(r.0.demoted);
    NoFramesInDrain(r.0.demoted);
    ConcatAssoc(b.calls, VerdictCalls(r.1, slot, oi), DrainDeletes(r.0.demoted));
    assert RouteOrder(b, slot, oi).0.calls == b.calls + more;
  }

  lemma {:induction false} NoFramesInDrain(demoted: seq<U32>)
    ensures NoFrames(DrainDeletes(demoted))
  {
    if |demoted| > 0 {
      NoFramesInDrain(demoted[..|demoted| - 1]);
    }
  }

  lemma WindowEventQuiet(b: Bridge, e: Event)
    requires e.CreateOrder? || e.UpdateOrder? || e.DeleteOrder? || e.WindowUnmapped?
    ensures Step(b, e).pending == b.pending
    ensures exists more :: Step(b, e).calls == b.calls + more && NoFrames(more)
  {
    var b' := Step(b, e);
    if b'.calls == b.calls {
      assert b'.calls == b.calls + [] && NoFrames([]);
    } else if e.DeleteOrder? {
      assert b'.calls == b.calls + [WindowDelete(e.id)] && NoFrames([WindowDelete(e.id)]);
    } else {
      OrderEventQuiet(b, e);
    }
  }

  lemma OrderEventQuiet(b: Bridge, e: Event)
    requires e.CreateOrder? || e.UpdateOrder?
    requires Step(b, e).calls != b.calls
    ensures exists more :: Step(b, e).calls == b.calls + more && NoFrames(more)
  {
    var oi := e.oi;
    var i := FindSlot(b.slots, oi.id);
    if e.CreateOrder? || i == |b.slots| {
      var (k, slots) := AllocSlot(b.slots, oi.id).value;
      var slot := ApplyState(slots[k], oi);
      OrderMakesNoFrames(b.(slots := slots[k := slot]), slot, oi);
    } else {
      var slot := ApplyState(b.slots[i], oi);
      var (b1, v) := RouteOrder(b.(slots := b.slots[i := slot]), slot, oi);
      OrderMakesNoFrames(b.(slots := b.slots[i := slot]), slot, oi);
      var more :| b1.calls == b.calls + more && NoFrames(more);
      if v.KnownMirror? {
        ConcatAssoc(b.calls, more, PlainUpdate(slot, oi));
        assert NoFrames(more + PlainUpdate(slot, oi));
      }
    }
  }

  // ---- deliveries --------------------------------------------------------

  /** Delivering a frame newer than everything its surface had delivered. */
  lemma DeliverKeeps(calls: seq<Call>, events: seq<Event>, sid: U16, win: U32, frame: Frame)
    requires Labelled(events)
    requires DeliveredInOrder(calls, events) && DeliveredArrived(calls, events)
    requires PaintedOn(events, sid, frame.serial)
    requires forall k: nat :: Delivers(calls, events, k, sid) ==> calls[k].frame.serial < frame.serial
    ensures DeliveredInOrder(calls + [WindowSurface(win, frame)], events)
    ensures DeliveredArrived(calls + [WindowSurface(win, frame)], events)
  {
    var calls' := calls + [WindowSurface(win, frame)];
    forall i: nat, j: nat, s | i < j && Delivers(calls', events, i, s) && Delivers(calls', events, j, s)
      ensures calls'[i].frame.serial < calls'[j].frame.serial
    {
      assert Delivers(calls, events, i, s);
      if j == |calls| {
        OneSurfacePerSerial(events, sid, s, frame.serial);
      } else {
        assert Delivers(calls, events, j, s);
      }
    }
    var k :| 0 <= k < |events| && Paints(events[k]) && events[k].sid == sid && events[k].frame.value.serial == frame.serial;
    assert Painted(events, frame.serial);
  }

  /** A delivery for one surface says nothing about what another surface holds. */
  lemma DeliverKeepsOthers(calls: seq<Call>, events: seq<Event>, sid: U16, win: U32, frame: Frame, p: Pending)
    requires Labelled(events) && PaintedOn(events, sid, frame.serial)
    requires HeldIsNewest(p, calls, events) && (p.used ==> p.sid != sid)
    ensures HeldIsNewest(p, calls + [WindowSurface(win, frame)], events)
  {
    var calls' := calls + [WindowSurface(win, frame)];
    if p.used {
      forall k: nat | Delivers(calls', events, k, p.sid) ensures calls'[k].frame.serial < p.frame.value.serial {
        if k == |calls| {
          OneSurfacePerSerial(events, sid, p.sid, frame.serial);
        } else {
          assert Delivers(calls, events, k, p.sid);
        }
      }
    }
  }

  /** What a paint leaves true before it is itself delivered or held. */
  lemma PaintArrives(b: Bridge, events: seq<Event>, e: Event)
    requires HeldInv(b, events) && Labelled(events + [e]) && Paints(e)
    ensures DeliveredInOrder(b.calls, events + [e]) && DeliveredArrived(b.calls, events + [e])
    ensures forall k: nat, sid :: Delivers(b.calls, events + [e], k, sid) ==> b.calls[k].frame.serial < e.frame.value.serial
    ensures forall i :: 0 <= i < |b.pending| && b.pending[i].sid != e.sid ==> HeldIsNewest(b.pending[i], b.calls, events + [e])
    ensures PaintedOn(events + [e], e.sid, e.frame.value.serial)
  {
    var all := events + [e];
    AppendEvent(events, e);
    forall k: nat, sid | Delivers(b.calls, all, k, sid)
      ensures Delivers(b.calls, events, k, sid) && b.calls[k].frame.serial < e.frame.value.serial
    {
      NewSerial(events, e, b.calls[k].frame.serial);
    }
  }

  lemma PaintKeeps(b: Bridge, events: seq<Event>, e: Event)
    requires OnePendingEach(b.pending) && HeldInv(b, events) && Labelled(events + [e]) && Paints(e)
    ensures HeldInv(Step(b, e), events + [e])
  {
    var all := events + [e];
    var f := e.frame.value;
    var win := ResolveId(b.router, e.sid, WrapU32(e.surfaceWindow));
    var b' := Step(b, e);
    PaintArrives(b, events, e);
    AppendEvent(events, e);
    if win == 0 {
      PaintHolds(b, all, e.sid, f);
    } else {
      PaintDelivers(b, all, e.sid, win, CropTo(b.slots, win, f));
    }
  }

  /** Holding a new frame in place of the one its surface held. */
  lemma PaintHolds(b: Bridge, all: seq<Event>, sid: U16, f: Frame)
    requires OnePendingEach(b.pending) && PaintedOn(all, sid, f.serial) && Newest(all, sid) == Some(f)
    requires DeliveredInOrder(b.calls, all) && DeliveredArrived(b.calls, all)
    requires forall k: nat :: Delivers(b.calls, all, k, sid) ==> b.calls[k].frame.serial < f.serial
    requires forall i :: 0 <= i < |b.pending| && b.pending[i].sid != sid ==> HeldIsNewest(b.pending[i], b.calls, all)
    ensures HeldInv(b.(pending := SetPending(b.pending, sid, f)), all)
  {
    var pending := SetPending(b.pending, sid, f);
    forall i | 0 <= i < |pending| ensures HeldIsNewest(pending[i], b.calls, all) {
      if pending[i].used && pending[i].sid == sid {
        assert pending[i].frame == Some(f);
      }
    }
  }

  /** Delivering a new frame and releasing the one its surface held. */
  lemma PaintDelivers(b: Bridge, all: seq<Event>, sid: U16, win: U32, out: Frame)
    requires OnePendingEach(b.pending) && Labelled(all) && PaintedOn(all, sid, out.serial)
    requires DeliveredInOrder(b.calls, all) && DeliveredArrived(b.calls, all)
    requires forall k: nat :: Delivers(b.calls, all, k, sid) ==> b.calls[k].frame.serial < out.serial
    requires forall i :: 0 <= i < |b.pending| && b.pending[i].sid != sid ==> HeldIsNewest(b.pending[i], b.calls, all)
    ensures HeldInv(b.(pending := ClearPending(b.pending, sid), calls := b.calls + [WindowSurface(win, out)]), all)
  {
    var pending, calls := ClearPending(b.pending, sid), b.calls + [WindowSurface(win, out)];
    DeliverKeeps(b.calls, all, sid, win, out);
    forall i | 0 <= i < |pending| ensures HeldIsNewest(pending[i], calls, all) {
      if pending[i].used {
        assert pending[i] == b.pending[i] && b.pending[i].sid != sid;
        DeliverKeepsOthers(b.calls, all, sid, win, out, b.pending[i]);
      }
    }
  }

  lemma MapKeepsHeld(b: Bridge, events: seq<Event>, e: Event)
    requires OnePendingEach(b.pending) && HeldInv(b, events) && Labelled(events) && e.SurfaceMapped?
    ensures HeldInv(Step(b, e), events)
  {
    var b' := Step(b, e);
    var i := FindPending(b.pending, e.sid);
    if i < |b.pending| {
      var router := b.router.(surfMap := b.router.surfMap[e.sid := WrapU32(e.windowId)]);
      var win := ResolveId(router, e.sid, 0);
      assert HeldIsNewest(b.pending[i], b.calls, events);
      if win != 0 {
        var out := CropTo(b.slots, win, b.pending[i].frame.value);
        PaintDelivers(b, events, e.sid, win, out);
      }
    }
  }

  lemma StepKeepsHeld(b: Bridge, events: seq<Event>, e: Event)
    requires OnePendingEach(b.pending) && HeldInv(b, events) && Labelled(events + [e])
    ensures HeldInv(Step(b, e), events + [e])
  {
    assert Labelled(events) by { forall i | 0 <= i < |events| ensures (events + [e])[i] == events[i] {} }
    if Paints(e) {
      PaintKeeps(b, events, e);
    } else {
      if e.SurfaceMapped? {
        MapKeepsHeld(b, events, e);
      } else if !e.Painted? {
        WindowEventQuiet(b, e);
        var more :| Step(b, e).calls == b.calls + more && NoFrames(more);
        QuietCalls(b, more, events);
      }
      QuietEvent(Step(b, e), events, e);
    }
  }

  lemma NothingHeld()
    ensures HeldInv(Start(), [])
  {
  }

  lemma LabelledInit(events: seq<Event>)
    requires Labelled(events) && |events| > 0
    ensures Labelled(events[..|events| - 1])
  {
  }

  lemma {:induction false} RunKeepsHeld(events: seq<Event>)
    requires Labelled(events)
    ensures HeldInv(Run(events), events)
  {
    if |events| == 0 {
      NothingHeld();
    } else {
      LabelledInit(events);
      RunKeepsHeld(events[..|events| - 1]);
      assert events == events[..|events| - 1] + [events[|events| - 1]];
      OnePendingInRuns(events[..|events| - 1]);
      StepKeepsHeld(Run(events[..|events| - 1]), events[..|events| - 1], events[|events| - 1]);
    }
  }

  lemma OnePendingInRuns(events: seq<Event>)
    ensures OnePendingEach(Run(events).pending)
  {
    RunKeeps(events);
  }

  // ---- what is delivered -------------------------------------------------

  /** The frame is one that arrived up to event `n`, cropped to the size tracked for the
      window just then. */
  ghost predicate Shows(events: seq<Event>, n: nat, win: U32, out: Frame) {
    n < |events| &&
    exists j :: 0 <= j <= n && Paints(events[j]) && out == CropTo(Run(events[..n]).slots, win, events[j].frame.value)
  }

  /** The call is made by some event, and what it delivers is such a frame. */
  ghost predicate Made(events: seq<Event>, k: nat, call: Call)
    requires call.WindowSurface?
  {
    exists n: nat :: Shows(events, n, call.id, call.frame) && |Run(events[..n]).calls| == k
  }

  ghost predicate DeliveredShows(calls: seq<Call>, events: seq<Event>) {
    forall k :: 0 <= k < |calls| && calls[k].WindowSurface? ==> Made(events, k, calls[k])
  }

  lemma MadeMore(events: seq<Event>, e: Event, k: nat, call: Call)
    requires call.WindowSurface? && Made(events, k, call)
    ensures Made(events + [e], k, call)
  {
    var n: nat :| Shows(events, n, call.id, call.frame) && |Run(events[..n]).calls| == k;
    var all := events + [e];
    assert all[..n] == events[..n];
    var j :| 0 <= j <= n && Paints(events[j]) && call.frame == CropTo(Run(events[..n]).slots, call.id, events[j].frame.value);
    assert all[j] == events[j];
    assert Shows(all, n, call.id, call.frame);
  }

  lemma {:induction false} NewestArrived(events: seq<Event>, sid: U16)
    requires Newest(events, sid).Some?
    ensures exists j :: 0 <= j < |events| && Paints(events[j]) && events[j].frame == Newest(events, sid)
  {
    var n := |events| - 1;
    if Paints(events[n]) && events[n].sid == sid {
    } else {
      NewestArrived(events[..n], sid);
      var j :| 0 <= j < n && Paints(events[..n][j]) && events[..n][j].frame == Newest(events[..n], sid);
      assert Paints(events[j]) && events[j].frame == Newest(events, sid);
    }
  }

  /** A call of the last event shows an arrival. */
  lemma LastShows(events: seq<Event>, e: Event, k: nat)
    requires HeldInv(Run(events), events) && OnePendingEach(Run(events).pending)
    requires var b := Run(events); var calls := Step(b, e).calls; |b.calls| <= k < |calls| && calls[k].WindowSurface?
    ensures Made(events + [e], k, Step(Run(events), e).calls[k])
  {
    var b, all, n := Run(events), events + [e], |events|;
    var call := Step(b, e).calls[k];
    assert all[..n] == events && all[n] == e;
    if e.Painted? {
      assert Shows(all, n, call.id, call.frame);
    } else if e.SurfaceMapped? {
      var i := FindPending(b.pending, e.sid);
      assert HeldIsNewest(b.pending[i], b.calls, events);
      NewestArrived(events, e.sid);
      var j :| 0 <= j < |events| && Paints(events[j]) && events[j].frame == Newest(events, e.sid);
      assert all[j] == events[j];
      assert Shows(all, n, call.id, call.frame);
    } else {
      WindowEventQuiet(b, e);
      assert false;
    }
  }

  /** Whatever is delivered on a run has arrived, and is the arrival's crop. */
  lemma {:induction false} RunShows(events: seq<Event>)
    requires Labelled(events)
    ensures DeliveredShows(Run(events).calls, events)
  {
    if |events| > 0 {
      var init, e := events[..|events| - 1], events[|events| - 1];
      LabelledInit(events);
      RunShows(init);
      RunKeepsHeld(init);
      OnePendingInRuns(init);
      assert events == init + [e];
      StepGrows(Run(init), e);
      forall k | 0 <= k < |Run(events).calls| && Run(events).calls[k].WindowSurface?
        ensures Made(events, k, Run(events).calls[k])
      {
        if k < |Run(init).calls| { MadeMore(init, e, k, Run(init).calls[k]); } else { LastShows(init, e, k); }
      }
    }
  }

  lemma StepGrows(b: Bridge, e: Event)
    ensures b.calls <= Step(b, e).calls
  {
  }

  // ---- what a session guarantees -----------------------------------------

  /** Every delivery is of a frame that arrived, cropped to the size tracked for its window,
      and names a window mirrored at that moment; the numbers delivered for one surface
      strictly increase; a surface has at most one held frame, and that frame is its
      newest arrival. */
  ghost predicate FramesRight(b: Bridge, events: seq<Event>) {
    && DeliveredShows(b.calls, events)
    && DeliveredArrived(b.calls, events)
    && DeliveredInOrder(b.calls, events)
    && (forall k :: 0 <= k < |b.calls| && b.calls[k].WindowSurface? ==> b.calls[k].id in Open(b.calls[..k]))
    && OnePendingEach(b.pending)
    && (forall i :: 0 <= i < |b.pending| && b.pending[i].used ==> b.pending[i].frame == Newest(events, b.pending[i].sid))
  }

  /** So on every run whose frames are numbered by arrival. */
  lemma HeldFrames(events: seq<Event>)
    requires Labelled(events)
    ensures FramesRight(Run(events), events)
  {
    RunKeepsHeld(events);
    RunShows(events);
    RunKeeps(events);
    ProperAt(Run(events).calls);
  }

  lemma {:induction false} ProperAt(calls: seq<Call>)
    requires WellFormed(calls)
    ensures forall k :: 0 <= k < |calls| ==> Proper(Open(calls[..k]), calls[k])
  {
    if |calls| > 0 {
      var init := calls[..|calls| - 1];
      ProperAt(init);
      forall k | 0 <= k < |calls| ensures Proper(Open(calls[..k]), calls[k]) {
        if k < |init| { assert init[..k] == calls[..k]; }
      }
    }
  }

  // ---- window id 0 -------------------------------------------------------

  /** No frame was delivered to window 0. */
  ghost predicate NoneToZero(calls: seq<Call>) {
    forall k :: 0 <= k < |calls| && calls[k].WindowSurface? ==> calls[k].id != 0
  }

  lemma NoneToZeroMore(calls: seq<Call>, more: seq<Call>)
    requires NoneToZero(calls) && NoFrames(more)
    ensures NoneToZero(calls + more)
  {
  }

  lemma StepNoneToZero(b: Bridge, e: Event)
    requires NoneToZero(b.calls)
    ensures NoneToZero(Step(b, e).calls)
  {
    if !e.Painted? && !e.SurfaceMapped? {
      WindowEventQuiet(b, e);
      var more :| Step(b, e).calls == b.calls + more && NoFrames(more);
      NoneToZeroMore(b.calls, more);
    }
  }

  /** On every run window 0 gets no pixels, since 0 is also the router's code for "none". */
  lemma {:induction false} NeverToZero(events: seq<Event>)
    ensures NoneToZero(Run(events).calls)
  {
    if |events| > 0 {
      NeverToZero(events[..|events| - 1]);
      StepNoneToZero(Run(events[..|events| - 1]), events[|events| - 1]);
    }
  }

  /** The failing case itself: window 0 is mirrored and open, and the router finds it for a
      surface, but the surface's frame is not delivered. */
  lemma ZeroGetsNothing(frame: Frame)
    ensures var create := CreateOrder(PlainOrder(0, true, 800, 600));
            var b := Run([create]);
            && R.Mirrored(b.router.windows, 0) && 0 in Open(b.calls)
            && R.Resolve(b.router, 5, 0) == Some(0)
            && Run([create, Event.Painted(5, 0, Some(frame))]).calls == b.calls
  {
    var create := CreateOrder(PlainOrder(0, true, 800, 600));
    RunTwo(create, Event.Painted(5, 0, Some(frame)));
    ZeroMirrored(OnCreate(Start(), create.oi));
    ZeroIsHeld(OnCreate(Start(), create.oi), 5, frame);
  }

  lemma ZeroMirrored(b: Bridge)
    requires b == OnCreate(Start(), PlainOrder(0, true, 800, 600))
    ensures R.Mirrored(b.router.windows, 0) && 0 in Open(b.calls) && R.Resolve(b.router, 5, 0) == Some(0)
  {
    FirstPlainOrder(0, true, 800, 600);
    OnlyWindow(b.router, 0);
    assert b.calls[..0] == [];
  }

  lemma RunTwo(e: Event, f: Event)
    ensures Run([e]) == Step(Start(), e) && Run([e, f]) == Step(Step(Start(), e), f)
  {
    assert [e][..0] == [] && [e, f][..1] == [e];
  }

  lemma ZeroIsHeld(b: Bridge, sid: U16, frame: Frame)
    requires R.Resolve(b.router, sid, 0) == Some(0)
    ensures OnSurface(b, sid, 0, Some(frame)).calls == b.calls
  {
  }

  lemma OnlyWindow(r: R.State, id: U32)
    requires r.windows.Keys == {id} && r.windows[id].kind == R.Mirror && r.surfMap == map[]
    ensures R.Resolve(r, 5, 0) == Some(id)
  {
    assert |r.windows| == |r.windows.Keys| == 1;
    assert R.SoleId(r.windows) in r.windows.Keys;
  }

  ghost predicate Holding(b: Bridge, sid: U16, frame: Frame) {
    exists i :: 0 <= i < |b.pending| && HoldsSurface(b.pending[i], sid) && b.pending[i].frame == Some(frame)
  }

  /** Mapping a surface to a window flushes the surface's held frame; the window gets it
      iff it is mirrored, and then nothing is held for that surface any more. Window 0 is
      the exception, since 0 is also the router's code for "no window". */
  lemma MapDeliversHeld(b: Bridge, sid: U16, windowId: U64, frame: Frame)
    requires Inv(b) && Holding(b, sid, frame)
    ensures var b' := OnMapSurface(b, sid, windowId);
            var w := WrapU32(windowId);
            && b'.calls == (if R.Mirrored(b.router.windows, w) && w != 0
                            then b.calls + [WindowSurface(w, CropTo(b.slots, w, frame))] else b.calls)
            && forall f :: !Holding(b', sid, f)
  {
    var i :| 0 <= i < |b.pending| && HoldsSurface(b.pending[i], sid) && b.pending[i].frame == Some(frame);
    assert FindPending(b.pending, sid) == i;
    var b' := OnMapSurface(b, sid, windowId);
    assert forall k :: 0 <= k < |b'.pending| ==> !HoldsSurface(b'.pending[k], sid);
  }

  /** A frame that arrives is delivered at once if it resolves, and is otherwise the one
      its surface holds, unless the table is full and had nothing for that surface. */
  lemma PaintOutcome(b: Bridge, sid: U16, win: U64, frame: Frame)
    requires Inv(b)
    ensures var b' := OnSurface(b, sid, win, Some(frame));
            var to := R.Resolve(b.router, sid, WrapU32(win));
            if to.Some? && to.value != 0 then
              && b'.calls == b.calls + [WindowSurface(to.value, CropTo(b.slots, to.value, frame))]
              && forall f :: !Holding(b', sid, f)
            else
              && b'.calls == b.calls
              && (Holding(b', sid, frame) <==>
                  exists i :: 0 <= i < |b.pending| && (b.pending[i].used ==> b.pending[i].sid == sid))
  {
    var b' := OnSurface(b, sid, win, Some(frame));
    var to := ResolveId(b.router, sid, WrapU32(win));
    if to != 0 {
      assert forall k :: 0 <= k < |b'.pending| ==> !HoldsSurface(b'.pending[k], sid);
    } else {
      var i, j := FindPending(b.pending, sid), FreePending(b.pending);
      if i < |b.pending| {
        assert HoldsSurface(b'.pending[i], sid);
        assert b.pending[i].used ==> b.pending[i].sid == sid;
      } else if j < |b.pending| {
        assert HoldsSurface(b'.pending[j], sid);
        assert !b.pending[j].used;
      }
    }
  }
}
