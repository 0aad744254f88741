/** Runs of the router alone, orders and deletes in any mix with pops of its queue. */
module RailRouterRuns {
  import opened Prelude
  import opened RailGeometry
  import opened RailRouter

  datatype Op =
    | Ordered(id: U32, style: Option<Style>, rect: Rect)
    | Deleted(id: U32)
    | Mapped(sid: U16, id: U32)
    | WindowUnmapped(id: U32)
    | Popped

  function Apply(s: State, op: Op): State {
    match op
    case Ordered(id, style, rect) => WindowOrder(s, id, style, rect).0
    case Deleted(id) => WindowDeleted(s, id).0
    case Mapped(sid, id) => s.(surfMap := s.surfMap[sid := id])
    case WindowUnmapped(id) => s.(surfMap := Unmapped(s.surfMap, id))
    case Popped => if |s.demoted| == 0 then s else s.(demoted := s.demoted[..|s.demoted| - 1])
  }

  function After(ops: seq<Op>): State {
    if |ops| == 0 then EMPTY else Apply(After(ops[..|ops| - 1]), ops[|ops| - 1])
  }

  /** Every queued demotion is of a known window and not of 0, the code for an empty queue. */
  ghost predicate QueueKnown(s: State) {
    forall p :: p in s.demoted ==> p in s.windows && p != 0
  }

  lemma ApplyKeeps(s: State, op: Op)
    requires Sound(s.windows) && QueueKnown(s)
    ensures Sound(Apply(s, op).windows) && QueueKnown(Apply(s, op))
  {
    match op {
      case Ordered(id, style, rect) =>
        OrderKeepsSound(s, id, style, rect);
        OrderEffect(s, id, style, rect);
        OrderQueue(s, id, style, rect);
      case Deleted(id) => DeleteKeepsSound(s, id); DeleteQueue(s, id);
      case Mapped(sid, id) =>
      case WindowUnmapped(id) =>
      case Popped => assert forall k :: k in Apply(s, op).demoted ==> k in s.demoted;
    }
  }

  /** An order queues a mirrored window or nothing. */
  lemma OrderQueue(s: State, id: U32, style: Option<Style>, rect: Rect)
    requires Sound(s.windows) && QueueKnown(s)
    ensures QueueKnown(WindowOrder(s, id, style, rect).0)
  {
    OrderEffect(s, id, style, rect);
  }

  lemma DeleteQueue(s: State, id: U32)
    requires QueueKnown(s)
    ensures QueueKnown(WindowDeleted(s, id).0)
  {
  }

  /** On every run no mirrored window is covered by one it owns, and what is popped is a known
      window. */
  lemma {:induction false} RouterOfRun(ops: seq<Op>)
    ensures Sound(After(ops).windows) && QueueKnown(After(ops))
  {
    if |ops| > 0 {
      RouterOfRun(ops[..|ops| - 1]);
      ApplyKeeps(After(ops[..|ops| - 1]), ops[|ops| - 1]);
    }
  }

  /** The window is unknown: neither queued, nor the answer for any surface. */
  ghost predicate Gone(s: State, id: U32) {
    && id !in s.windows && id !in s.demoted
    && forall sid: U16, named: U32 :: Resolve(s, sid, named) != Some(id)
  }

  /** A deleted window stays gone until it is ordered again, whatever else happens. */
  lemma DeletedStaysGone(ops: seq<Op>, id: U32, more: seq<Op>)
    requires forall op :: op in more ==> !(op.Ordered? && op.id == id)
    ensures Gone(After(ops + [Deleted(id)] + more), id)
  {
    RouterOfRun(ops + [Deleted(id)] + more);
    DeletedUnknown(ops, id, more);
  }

  lemma {:induction false} DeletedUnknown(ops: seq<Op>, id: U32, more: seq<Op>)
    requires forall op :: op in more ==> !(op.Ordered? && op.id == id)
    ensures id !in After(ops + [Deleted(id)] + more).windows
  {
    var all := ops + [Deleted(id)] + more;
    if |more| == 0 {
      assert all[..|all| - 1] == ops;
    } else {
      var init := more[..|more| - 1];
      assert all[..|all| - 1] == ops + [Deleted(id)] + init;
      DeletedUnknown(ops, id, init);
      StaysUnknown(After(ops + [Deleted(id)] + init), more[|more| - 1], id);
    }
  }

  lemma StaysUnknown(s: State, op: Op, id: U32)
    requires id !in s.windows && !(op.Ordered? && op.id == id)
    ensures id !in Apply(s, op).windows
  {
    match op {
      case Ordered(o, style, rect) => OrderTable(s, o, style, rect);
      case _ =>
    }
  }
}
