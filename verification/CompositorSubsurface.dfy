/** Where a subsurface is composited: the walk up the parents equals the first windowed
    ancestor on the path, with the sum of the positions along it, on every parent graph. */
module CompositorSubsurface {
  import opened Prelude
  import opened Compositor

  /** The surface `n` parents above, if the chain of records reaches that far. */
  function Ancestor(s: State, sid: Surface, n: nat): Option<Surface> {
    if n == 0 then Some(sid)
    else match Ancestor(s, sid, n - 1)
      case None => None
      case Some(x) => if Link(s, x).Some? then Some(Link(s, x).value.parent) else None
  }

  /** The sum of the first `n` positions along the chain. */
  function Offset(s: State, sid: Surface, n: nat): (int, int) {
    if n == 0 then (0, 0)
    else
      var below := Offset(s, sid, n - 1);
      match Ancestor(s, sid, n - 1)
      case None => below
      case Some(x) => if Link(s, x).Some? then (below.0 + Link(s, x).value.x, below.1 + Link(s, x).value.y) else below
  }

  /** The window in the record of the surface's toplevel or, if it has no toplevel, of its
      popup. */
  function RecordedWindow(s: State, x: Surface): Option<Win> {
    if x in s.surfaceToplevel then
      if s.surfaceToplevel[x] in s.toplevels then Some(s.toplevels[s.surfaceToplevel[x]].win) else None
    else if x in s.surfacePopup && s.surfacePopup[x] in s.popups then Some(s.popups[s.surfacePopup[x]].win)
    else None
  }

  lemma WindowForRecorded(s: State, x: Surface)
    ensures WindowFor(s, x) == RecordedWindow(s, x)
  {
  }

  /** The window recorded for the `n`-th ancestor. */
  function WindowAt(s: State, sid: Surface, n: nat): Option<Win> {
    match Ancestor(s, sid, n) case None => None case Some(x) => RecordedWindow(s, x)
  }

  /** The nearest windowed proper ancestor is `n` parents up. */
  ghost predicate Nearest(s: State, sid: Surface, n: nat) {
    n > 0 && WindowAt(s, sid, n).Some? && Bare(s, sid, n - 1)
  }

  ghost predicate Bare(s: State, sid: Surface, n: nat) {
    forall m :: 1 <= m <= n ==> WindowAt(s, sid, m).None?
  }

  /** Equal ancestors continue equally. */
  lemma {:induction false} Periodic(s: State, sid: Surface, i: nat, j: nat, d: nat)
    requires Ancestor(s, sid, i) == Ancestor(s, sid, j)
    ensures Ancestor(s, sid, i + d) == Ancestor(s, sid, j + d)
  {
    if d > 0 { Periodic(s, sid, i, j, d - 1); }
  }

  /** Once the chain loops without a window it never reaches one. */
  lemma {:induction false} LoopBare(s: State, sid: Surface, j: nat, i: nat, n: nat)
    requires j < i && Ancestor(s, sid, i) == Ancestor(s, sid, j) && Bare(s, sid, i)
    ensures Bare(s, sid, n)
  {
    if n > i {
      LoopBare(s, sid, j, i, n - 1);
      Periodic(s, sid, i, j, n - i);
      assert WindowAt(s, sid, n) == WindowAt(s, sid, j + (n - i));
    }
  }

  lemma {:induction false} ChainEnds(s: State, sid: Surface, i: nat, n: nat)
    requires Ancestor(s, sid, i).None? && i <= n
    ensures Ancestor(s, sid, n).None?
  {
    if n > i { ChainEnds(s, sid, i, n - 1); }
  }

  /** The surfaces the walk has passed after `i` steps. */
  function Passed(s: State, sid: Surface, i: nat): set<Surface> {
    if i == 0 then {}
    else Passed(s, sid, i - 1) + if Ancestor(s, sid, i - 1).Some? then {Ancestor(s, sid, i - 1).value} else {}
  }

  lemma {:induction false} PassedEarlier(s: State, sid: Surface, i: nat, x: Surface) returns (j: nat)
    requires x in Passed(s, sid, i)
    ensures j < i && Ancestor(s, sid, j) == Some(x)
  {
    if Ancestor(s, sid, i - 1) == Some(x) { j := i - 1; } else { j := PassedEarlier(s, sid, i - 1, x); }
  }

  /** What the walk computes, in terms of the path. */
  ghost predicate OnPath(s: State, sid: Surface, r: Option<(Win, I32, I32)>) {
    match r
    case None => forall n: nat :: Bare(s, sid, n)
    case Some((w, x, y)) =>
      exists n: nat :: Nearest(s, sid, n) && WindowAt(s, sid, n) == Some(w)
        && x == WrapI32(Offset(s, sid, n).0) && y == WrapI32(Offset(s, sid, n).1)
  }

  lemma {:induction false} WalkIsPath(s: State, sid: Surface, i: nat, ox: I32, oy: I32, seen: set<Surface>)
    requires Ancestor(s, sid, i).Some? && Bare(s, sid, i) && seen == Passed(s, sid, i)
    requires ox == WrapI32(Offset(s, sid, i).0) && oy == WrapI32(Offset(s, sid, i).1)
    ensures OnPath(s, sid, Walk(s, Ancestor(s, sid, i).value, ox, oy, seen))
    decreases s.surfaceSub.Keys - seen
  {
    var cur := Ancestor(s, sid, i).value;
    if cur in seen {
      var j := PassedEarlier(s, sid, i, cur);
      forall n: nat { LoopBare(s, sid, j, i, n); }
    } else if Link(s, cur).None? {
      EndBare(s, sid, i);
    } else {
      var rec := Link(s, cur).value;
      StepUp(s, sid, i, rec);
      WindowForRecorded(s, rec.parent);
      if RecordedWindow(s, rec.parent).Some? {
        assert Nearest(s, sid, i + 1);
      } else {
        WalkIsPath(s, sid, i + 1, WrapI32(ox + rec.x), WrapI32(oy + rec.y), seen + {cur});
      }
    }
  }

  /** One step up the chain. */
  lemma StepUp(s: State, sid: Surface, i: nat, rec: Sub)
    requires Ancestor(s, sid, i).Some? && Link(s, Ancestor(s, sid, i).value) == Some(rec) && Bare(s, sid, i)
    ensures Ancestor(s, sid, i + 1) == Some(rec.parent)
    ensures RecordedWindow(s, rec.parent).None? ==> Bare(s, sid, i + 1)
    ensures var (x, y) := Offset(s, sid, i);
            && WrapI32(WrapI32(x) + rec.x) == WrapI32(Offset(s, sid, i + 1).0)
            && WrapI32(WrapI32(y) + rec.y) == WrapI32(Offset(s, sid, i + 1).1)
  {
    WrapI32Add(Offset(s, sid, i).0, rec.x);
    WrapI32Add(Offset(s, sid, i).1, rec.y);
  }

  /** A chain that ends without a window never reaches one. */
  lemma EndBare(s: State, sid: Surface, i: nat)
    requires Ancestor(s, sid, i).Some? && Link(s, Ancestor(s, sid, i).value).None? && Bare(s, sid, i)
    ensures forall n: nat :: Bare(s, sid, n)
  {
    forall n: nat ensures Bare(s, sid, n) {
      forall m: nat | i < m <= n ensures WindowAt(s, sid, m).None? { ChainEnds(s, sid, i + 1, m); }
    }
  }

  lemma NearestUnique(s: State, sid: Surface, m: nat, n: nat)
    requires Nearest(s, sid, m) && Nearest(s, sid, n)
    ensures m == n
  {
  }

  /** The walk terminates on every parent graph, loops included, and returns something
      exactly when some proper ancestor is windowed: the nearest one's window, the sum of
      the positions up to it, and the subsurface's own id. */
  lemma ResolveIsPath(s: State, sid: Surface)
    ensures Resolve(s, sid).Some? <==> exists n: nat :: Nearest(s, sid, n)
    ensures forall n: nat :: Nearest(s, sid, n) ==>
              && Link(s, sid).Some?
              && Resolve(s, sid) == Some((WindowAt(s, sid, n).value, WrapI32(Offset(s, sid, n).0), WrapI32(Offset(s, sid, n).1),
                                          Link(s, sid).value.subId))
  {
    var r := Walk(s, sid, 0, 0, {});
    WalkIsPath(s, sid, 0, 0, 0, {});
    if r.Some? {
      var n: nat :| Nearest(s, sid, n) && WindowAt(s, sid, n) == Some(r.value.0)
        && r.value.1 == WrapI32(Offset(s, sid, n).0) && r.value.2 == WrapI32(Offset(s, sid, n).1);
      forall m: nat | Nearest(s, sid, m) ensures m == n { NearestUnique(s, sid, m, n); }
    } else {
      forall n: nat ensures !Nearest(s, sid, n) { assert Bare(s, sid, n); }
    }
  }

  /** A surface whose chain of parents comes back to an earlier one below every window is
      composited nowhere. */
  lemma LoopIsNowhere(s: State, sid: Surface, j: nat, i: nat)
    requires j < i && Ancestor(s, sid, i) == Ancestor(s, sid, j) && Bare(s, sid, i)
    ensures Resolve(s, sid) == None
  {
    ResolveIsPath(s, sid);
    forall n: nat ensures !Nearest(s, sid, n) { LoopBare(s, sid, j, i, n); }
  }
}
