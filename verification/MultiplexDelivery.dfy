/** Which hosts a window command reaches, and how each host was started. */
module MultiplexDelivery {
  import opened Prelude
  import opened Multiplex

  predicate OwnedBy(r: State, w: Id, app: Id) { w in r.winToApp && r.winToApp[w] == app }

  /** The host gets the command: cursors and the end of a grab go to all; a grab to the host of
      the window that has it; a popup's creation to its parent's host; a subsurface's frames
      and end to the host of the window it is on; and any other command to its window's. */
  predicate Gets(r: State, cmd: Cmd, app: Id) {
    match cmd
    case SetCursor(_) => true
    case SetCursorImage(_) => true
    case HideCursor => true
    case SetGrab(grab) => grab.None? || OwnedBy(r, grab.value, app)
    case CreatePopup(_, parent, _) => OwnedBy(r, parent, app)
    case SubFrame(window, _) => OwnedBy(r, window, app)
    case SubDestroy(window, _) => OwnedBy(r, window, app)
    case _ => OwnedBy(r, cmd.id, app)
  }

  /** A running host gets the command or nothing; it ends only with a command it gets. */
  predicate Delivers(r: State, r': State, cmd: Cmd, app: Id)
    requires app in r.helpers
  {
    if app in r'.helpers then r'.helpers[app] == r.helpers[app] + if Gets(r, cmd, app) then [Run(cmd)] else []
    else cmd.Destroy? && Gets(r, cmd, app) && r'.gone == r.gone + [r.helpers[app] + [Run(cmd), Shutdown]]
  }

  /** A popup joins its parent's application, a destroyed window leaves its own, and no other
      window moves. */
  function Reassigned(wins: map<Id, Id>, cmd: Cmd): map<Id, Id> {
    if cmd.CreatePopup? && cmd.parent in wins then wins[cmd.id := wins[cmd.parent]]
    else if cmd.Destroy? then wins - {cmd.id}
    else wins
  }

  /** In every state: whom a posted command reaches. */
  lemma PostReaches(r: State, cmd: Cmd, app: Id)
    requires app in r.helpers
    ensures Delivers(r, Route(r, cmd), cmd, app)
  {
    assert r.helpers[app] + [] == r.helpers[app];
    assert r.helpers[app] + [Run(cmd)] + [Shutdown] == r.helpers[app] + [Run(cmd), Shutdown];
  }

  lemma PostReassigns(r: State, cmd: Cmd)
    ensures Route(r, cmd).winToApp == Reassigned(r.winToApp, cmd)
    ensures Route(r, cmd).helpers.Keys <= r.helpers.Keys
  {
  }

  // ---- how hosts start ---------------------------------------------------

  /** Step `n` assigns a window to the application, which had no host, and the host it starts is
      greeted with the insets of the moment and the application's name. */
  predicate StartedAt(insets: Insets, steps: seq<Step>, n: nat, app: Id, greeting: Downlink) {
    n < |steps| && steps[n].AssignStep? && steps[n].app == app && steps[n].spawned &&
    var r := RunAll(insets, steps[..n]);
    app !in r.helpers && greeting == Hello(r.insets, steps[n].regular, steps[n].name)
  }

  ghost predicate Started(insets: Insets, steps: seq<Step>, app: Id, log: seq<Downlink>) {
    |log| > 0 && exists n: nat :: StartedAt(insets, steps, n, app, log[0])
  }

  lemma StartedEarlier(insets: Insets, steps: seq<Step>, app: Id, was: seq<Downlink>, now: seq<Downlink>)
    requires |steps| > 0 && Started(insets, steps[..|steps| - 1], app, was) && was <= now
    ensures Started(insets, steps, app, now)
  {
    var init := steps[..|steps| - 1];
    var n: nat :| StartedAt(insets, init, n, app, was[0]);
    assert init[..n] == steps[..n];
    assert StartedAt(insets, steps, n, app, now[0]);
  }

  /** A step lengthens the log of a host that was there, or starts it. */
  lemma StepLogs(r: State, s: Step, app: Id)
    requires app in Next(r, s).helpers
    ensures if app in r.helpers then r.helpers[app] <= Next(r, s).helpers[app]
            else s.AssignStep? && s.app == app && s.spawned && Next(r, s).helpers[app] == [Hello(r.insets, s.regular, s.name)]
  {
    if s.PostStep? { RouteGrows(r, s.cmd, app); }
  }

  /** On every run each host's log starts with the greeting of the assignment that started it. */
  lemma {:induction false} GreetingOfRun(insets: Insets, steps: seq<Step>, app: Id)
    requires app in RunAll(insets, steps).helpers
    ensures Started(insets, steps, app, RunAll(insets, steps).helpers[app])
  {
    if |steps| > 0 {
      var init, s := steps[..|steps| - 1], steps[|steps| - 1];
      var r := RunAll(insets, init);
      StepLogs(r, s, app);
      if app in r.helpers {
        GreetingOfRun(insets, init, app);
        StartedEarlier(insets, steps, app, r.helpers[app], RunAll(insets, steps).helpers[app]);
      } else {
        assert StartedAt(insets, steps, |init|, app, RunAll(insets, steps).helpers[app][0]);
      }
    }
  }
}
