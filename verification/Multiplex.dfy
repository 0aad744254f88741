/** The `--multiplex` router: one window-host process per application, and the proof that
    the hosts together run the window commands a single process would. */
module Multiplex {
  import opened Prelude

  /** Windows and applications; their numbers are only compared. */
  type Id = nat

  /** Window commands; `data` stands for the fields routing does not look at. */
  datatype Cmd =
    | Create(id: Id, data: seq<Byte>)
    | CreateLayer(id: Id, data: seq<Byte>)
    | CreatePopup(id: Id, parent: Id, data: seq<Byte>)
    | Destroy(id: Id)
    | Frame(id: Id, data: seq<Byte>)
    | Title(id: Id, data: seq<Byte>)
    | StartMove(id: Id)
    | Move(id: Id, data: seq<Byte>)
    | StartResize(id: Id, data: seq<Byte>)
    | Maximize(id: Id, on: bool)
    | Fullscreen(id: Id, on: bool)
    | Minimize(id: Id)
    | SetMinSize(id: Id, data: seq<Byte>)
    | SetMaxSize(id: Id, data: seq<Byte>)
    | Activate(id: Id)
    | SetModal(id: Id, on: bool)
    | SetIcon(id: Id, data: seq<Byte>)
    | SubFrame(window: Id, data: seq<Byte>)
    | SubDestroy(window: Id, data: seq<Byte>)
    | SetGrab(grab: Option<Id>)
    | SetCursor(data: seq<Byte>)
    | SetCursorImage(data: seq<Byte>)
    | HideCursor

  datatype Target = Window(id: Id) | Everyone

  function TargetOf(cmd: Cmd): Target {
    match cmd
    case SetCursor(_) => Everyone
    case SetCursorImage(_) => Everyone
    case HideCursor => Everyone
    case SetGrab(None) => Everyone
    case SetGrab(Some(w)) => Window(w)
    case CreatePopup(_, parent, _) => Window(parent)
    case SubFrame(w, _) => Window(w)
    case SubDestroy(w, _) => Window(w)
    case _ => Window(cmd.id)
  }

  datatype Downlink =
    | Hello(insets: Insets, regular: bool, name: string)
    | Run(cmd: Cmd)
    | SetInsets(insets: Insets)
    | Shutdown

  /** `helpers` maps each application to everything written to its host's socket; `gone`
      keeps what was written to the hosts already torn down. */
  datatype State = State(insets: Insets, helpers: map<Id, seq<Downlink>>, winToApp: map<Id, Id>, gone: seq<seq<Downlink>>)

  function Start(insets: Insets): State { State(insets, map[], map[], []) }

  // ---- router operations -------------------------------------------------

  /** `spawned` says whether a host process could be started, if one was needed. */
  function Assign(r: State, win: Id, app: Id, name: string, regular: bool, spawned: bool): State {
    if app in r.helpers then r.(winToApp := r.winToApp[win := app])
    else if spawned then
      r.(helpers := r.helpers[app := [Hello(r.insets, regular, name)]], winToApp := r.winToApp[win := app])
    else r
  }

  function SendAll(helpers: map<Id, seq<Downlink>>, msg: Downlink): map<Id, seq<Downlink>> {
    map app | app in helpers :: helpers[app] + [msg]
  }

  /** The window registrations a command adds: a popup joins its parent's host. */
  function Registered(winToApp: map<Id, Id>, cmd: Cmd): map<Id, Id> {
    if cmd.CreatePopup? && cmd.parent in winToApp then winToApp[cmd.id := winToApp[cmd.parent]] else winToApp
  }

  predicate HasWindow(winToApp: map<Id, Id>, app: Id) {
    exists w | w in winToApp :: winToApp[w] == app
  }

  function RouteToWindow(r: State, id: Id, cmd: Cmd): State {
    var wins := Registered(r.winToApp, cmd);
    if id !in wins then r.(winToApp := wins)
    else
      var app := wins[id];
      var helpers := if app in r.helpers then r.helpers[app := r.helpers[app] + [Run(cmd)]] else r.helpers;
      if !cmd.Destroy? then r.(helpers := helpers, winToApp := wins)
      else
        var left := wins - {id};
        if HasWindow(left, app) || app !in helpers then r.(helpers := helpers, winToApp := left)
        else State(r.insets, helpers - {app}, left, r.gone + [helpers[app] + [Shutdown]])
  }

  function Route(r: State, cmd: Cmd): State {
    match TargetOf(cmd)
    case Everyone => r.(helpers := SendAll(r.helpers, Run(cmd)))
    case Window(id) => RouteToWindow(r, id, cmd)
  }

  function Broadcast(r: State, insets: Insets): State {
    r.(insets := insets, helpers := SendAll(r.helpers, SetInsets(insets)))
  }

  class Router {
    var insets: Insets
    var helpers: map<Id, seq<Downlink>>
    var winToApp: map<Id, Id>
    ghost var gone: seq<seq<Downlink>>

    ghost function St(): State
      reads this
    {
      State(insets, helpers, winToApp, gone)
    }

    constructor (insets: Insets)
      ensures St() == Start(insets)
    {
      this.insets := insets;
      helpers, winToApp, gone := map[], map[], [];
    }

    method AssignWindow(win: Id, app: Id, name: string, regular: bool, spawned: bool)
      modifies this
      ensures St() == Assign(old(St()), win, app, name, regular, spawned)
    {
      if app !in helpers {
        if !spawned {
          return;
        }
        helpers := helpers[app := [Hello(insets, regular, name)]];
      }
      winToApp := winToApp[win := app];
    }

    /** Writes one message to every host, in whatever order the map yields them. */
    method WriteAll(msg: Downlink)
      modifies this`helpers
      ensures helpers == SendAll(old(helpers), msg)
    {
      var todo := helpers.Keys;
      ghost var before := helpers;
      while todo != {}
        invariant todo <= helpers.Keys == before.Keys
        invariant forall a :: a in before ==> helpers[a] == if a in todo then before[a] else before[a] + [msg]
        decreases |todo|
      {
        var app :| app in todo;
        var log := helpers[app];
        helpers := helpers[app := log + [msg]];
        todo := todo - {app};
      }
    }

    method Post(cmd: Cmd)
      modifies this
      ensures St() == Route(old(St()), cmd)
    {
      match TargetOf(cmd) {
        case Everyone =>
          WriteAll(Run(cmd));
        case Window(id) =>
          if cmd.CreatePopup? && cmd.parent in winToApp {
            winToApp := winToApp[cmd.id := winToApp[cmd.parent]];
          }
          if id in winToApp {
            var app := winToApp[id];
            if app in helpers {
              helpers := helpers[app := helpers[app] + [Run(cmd)]];
            }
            if cmd.Destroy? {
              winToApp := winToApp - {id};
              if !HasWindow(winToApp, app) && app in helpers {
                gone := gone + [helpers[app] + [Shutdown]];
                helpers := helpers - {app};
              }
            }
          }
      }
    }

    method BroadcastInsets(insets: Insets)
      modifies this
      ensures St() == Broadcast(old(St()), insets)
    {
      this.insets := insets;
      WriteAll(SetInsets(insets));
    }
  }

  // ---- what a process does with the commands -----------------------------

  /** A process's open windows, each with the commands it has received since its creation:
      everything any later window state can depend on. */
  type Table = map<Id, seq<Cmd>>

  /** The window a command acts on, for the commands that act on one existing window. */
  function ActsOn(cmd: Cmd): Option<Id> {
    match cmd
    case SubFrame(w, _) => Some(w)
    case SubDestroy(w, _) => Some(w)
    case SetGrab(_) => None
    case SetCursor(_) => None
    case SetCursorImage(_) => None
    case HideCursor => None
    case _ => Some(cmd.id)
  }

  function Handle(t: Table, cmd: Cmd): Table {
    if cmd.Create? || cmd.CreateLayer? || cmd.CreatePopup? then t[cmd.id := [cmd]]
    else if cmd.Destroy? then t - {cmd.id}
    else match ActsOn(cmd)
      case Some(w) => if w in t then t[w := t[w] + [cmd]] else t
      case None => t
  }

  /** A host's table once it has read everything written to its socket. */
  function HostTable(sent: seq<Downlink>): Table {
    if |sent| == 0 then map[]
    else
      var before := HostTable(sent[..|sent| - 1]);
      match sent[|sent| - 1]
      case Run(cmd) => Handle(before, cmd)
      case _ => before
  }

  function HostInsets(sent: seq<Downlink>): Option<Insets> {
    if |sent| == 0 then None
    else match sent[|sent| - 1]
      case Hello(insets, _, _) => Some(insets)
      case SetInsets(insets) => Some(insets)
      case _ => HostInsets(sent[..|sent| - 1])
  }

  lemma Sent(sent: seq<Downlink>, msg: Downlink)
    ensures HostTable(sent + [msg]) == if msg.Run? then Handle(HostTable(sent), msg.cmd) else HostTable(sent)
    ensures HostInsets(sent + [msg]) ==
            if msg.Hello? || msg.SetInsets? then Some(msg.insets) else HostInsets(sent)
  {
    assert (sent + [msg])[..|sent|] == sent;
  }

  // ---- simulation --------------------------------------------------------

  datatype Step =
    | AssignStep(win: Id, app: Id, name: string, regular: bool, spawned: bool)
    | PostStep(cmd: Cmd)
    | InsetStep(insets: Insets)

  function Next(r: State, s: Step): State {
    match s
    case AssignStep(win, app, name, regular, spawned) => Assign(r, win, app, name, regular, spawned)
    case PostStep(cmd) => Route(r, cmd)
    case InsetStep(insets) => Broadcast(r, insets)
  }

  function NextSingle(t: Table, s: Step): Table {
    if s.PostStep? then Handle(t, s.cmd) else t
  }

  function RunAll(insets: Insets, steps: seq<Step>): State {
    if |steps| == 0 then Start(insets) else Next(RunAll(insets, steps[..|steps| - 1]), steps[|steps| - 1])
  }

  function RunSingle(steps: seq<Step>): Table {
    if |steps| == 0 then map[] else NextSingle(RunSingle(steps[..|steps| - 1]), steps[|steps| - 1])
  }

  /** What the compositor owes the router: hosts start, a window stays with its
      application, a window is assigned before it is created, and a popup's parent is
      known. */
  predicate Orderly(r: State, s: Step) {
    match s
    case AssignStep(win, app, _, _, spawned) => spawned && (win in r.winToApp ==> r.winToApp[win] == app)
    case InsetStep(_) => true
    case PostStep(cmd) =>
      if cmd.Create? || cmd.CreateLayer? then cmd.id in r.winToApp
      else if cmd.CreatePopup? then
        cmd.parent in r.winToApp && (cmd.id in r.winToApp ==> r.winToApp[cmd.id] == r.winToApp[cmd.parent])
      else true
  }

  predicate OrderlyRun(insets: Insets, steps: seq<Step>) {
    forall k :: 0 <= k < |steps| ==> Orderly(RunAll(insets, steps[..k]), steps[k])
  }

  /** There is a host for exactly the applications that have a window. */
  ghost predicate HostsMatch(r: State) {
    forall app :: app in r.helpers <==> HasWindow(r.winToApp, app)
  }

  /** A host only holds windows registered to its application. */
  ghost predicate OwnWindows(r: State, app: Id)
    requires app in r.helpers
  {
    forall w :: w in HostTable(r.helpers[app]) ==> w in r.winToApp && r.winToApp[w] == app
  }

  /** Window `w` is in the single process's table exactly when it is in its host's, with
      the same commands. */
  ghost predicate SameWindow(r: State, t: Table, w: Id) {
    if w in r.winToApp && r.winToApp[w] in r.helpers then
      var host := HostTable(r.helpers[r.winToApp[w]]);
      (w in t <==> w in host) && (w in t ==> t[w] == host[w])
    else w !in t
  }

  ghost predicate Simulates(r: State, t: Table) {
    && HostsMatch(r)
    && (forall app :: app in r.helpers ==> OwnWindows(r, app))
    && (forall w :: SameWindow(r, t, w))
  }

  lemma SendAllKeeps(helpers: map<Id, seq<Downlink>>, msg: Downlink)
    requires msg.Run? ==> TargetOf(msg.cmd).Everyone?
    ensures SendAll(helpers, msg).Keys == helpers.Keys
    ensures forall app :: app in helpers ==> HostTable(SendAll(helpers, msg)[app]) == HostTable(helpers[app])
  {
    forall app | app in helpers ensures HostTable(SendAll(helpers, msg)[app]) == HostTable(helpers[app]) {
      Sent(helpers[app], msg);
    }
  }

  lemma BroadcastSimulates(r: State, t: Table, msg: Downlink, r': State)
    requires Simulates(r, t) && (msg.Run? ==> TargetOf(msg.cmd).Everyone?)
    requires r'.helpers == SendAll(r.helpers, msg) && r'.winToApp == r.winToApp
    ensures Simulates(r', t)
  {
    SendAllKeeps(r.helpers, msg);
    forall w ensures SameWindow(r', t, w) { assert SameWindow(r, t, w); }
    forall app | app in r'.helpers ensures OwnWindows(r', app) { assert OwnWindows(r, app); }
  }

  lemma AssignSimulates(r: State, t: Table, s: Step)
    requires Simulates(r, t) && s.AssignStep? && Orderly(r, s)
    ensures Simulates(Next(r, s), t)
  {
    var r' := Next(r, s);
    var hello := Hello(r.insets, s.regular, s.name);
    assert HostTable([hello]) == map[] by { Sent([], hello); assert [] + [hello] == [hello]; }
    forall app ensures app in r'.helpers <==> HasWindow(r'.winToApp, app) {
      if HasWindow(r.winToApp, app) {
        var w :| w in r.winToApp && r.winToApp[w] == app;
        assert w in r'.winToApp && r'.winToApp[w] == app;
      }
      assert s.win in r'.winToApp && r'.winToApp[s.win] == s.app;
    }
    forall app | app in r'.helpers ensures OwnWindows(r', app) {
      if app in r.helpers { assert OwnWindows(r, app); }
    }
    forall w ensures SameWindow(r', t, w) {
      assert SameWindow(r, t, w);
      if w == s.win && s.app in r.helpers { assert OwnWindows(r, s.app); }
    }
  }

  /** Delivering a command to the one host whose application owns the window it acts on. */
  lemma DeliverSimulates(r: State, t: Table, app: Id, cmd: Cmd, r': State)
    requires Simulates(r, t) && app in r.helpers
    requires ActsOn(cmd).Some? ==> ActsOn(cmd).value in r.winToApp && r.winToApp[ActsOn(cmd).value] == app
    requires r'.helpers == r.helpers[app := r.helpers[app] + [Run(cmd)]] && r'.winToApp == r.winToApp
    ensures Simulates(r', Handle(t, cmd))
  {
    Sent(r.helpers[app], Run(cmd));
    assert OwnWindows(r, app);
    forall w ensures SameWindow(r', Handle(t, cmd), w) { assert SameWindow(r, t, w); }
    forall a | a in r'.helpers ensures OwnWindows(r', a) {
      assert OwnWindows(r, a);
    }
  }

  /** Registering a popup under its parent's application before it exists. */
  lemma RegisterSimulates(r: State, t: Table, cmd: Cmd)
    requires Simulates(r, t) && cmd.CreatePopup? && Orderly(r, PostStep(cmd))
    ensures Simulates(r.(winToApp := Registered(r.winToApp, cmd)), t)
  {
    var r' := r.(winToApp := Registered(r.winToApp, cmd));
    var app := r.winToApp[cmd.parent];
    assert HasWindow(r.winToApp, app);
    forall a ensures a in r'.helpers <==> HasWindow(r'.winToApp, a) {
      if HasWindow(r.winToApp, a) {
        var w :| w in r.winToApp && r.winToApp[w] == a;
        assert w in r'.winToApp && r'.winToApp[w] == a;
      }
    }
    forall a | a in r'.helpers ensures OwnWindows(r', a) { assert OwnWindows(r, a); }
    forall w ensures SameWindow(r', t, w) {
      assert SameWindow(r, t, w);
      assert OwnWindows(r, app);
    }
  }

  /** Dropping the registration of a destroyed window, and its host with the last one. */
  lemma RetireSimulates(r: State, t: Table, id: Id, r': State)
    requires Simulates(r, t) && id in r.winToApp && id !in t
    requires r'.winToApp == r.winToApp - {id}
    requires var app := r.winToApp[id];
             r'.helpers == if HasWindow(r'.winToApp, app) then r.helpers else r.helpers - {app}
    ensures Simulates(r', t)
  {
    var app := r.winToApp[id];
    forall a ensures a in r'.helpers <==> HasWindow(r'.winToApp, a) {
      if HasWindow(r.winToApp, a) && a != app {
        var w :| w in r.winToApp && r.winToApp[w] == a;
        assert w in r'.winToApp && r'.winToApp[w] == a;
      }
    }
    forall w ensures SameWindow(r', t, w) {
      assert SameWindow(r, t, w);
      if w in r'.winToApp { assert HasWindow(r'.winToApp, r'.winToApp[w]); }
    }
    assert SameWindow(r, t, id);
    forall a | a in r'.helpers ensures OwnWindows(r', a) { assert OwnWindows(r, a); }
  }

  lemma UnroutedSimulates(r: State, t: Table, cmd: Cmd, id: Id)
    requires Simulates(r, t) && TargetOf(cmd) == Window(id) && id !in r.winToApp && Orderly(r, PostStep(cmd))
    ensures Handle(t, cmd) == t && Route(r, cmd) == r
  {
    assert SameWindow(r, t, id);
  }

  lemma PostSimulates(r: State, t: Table, cmd: Cmd)
    requires Simulates(r, t) && Orderly(r, PostStep(cmd))
    ensures Simulates(Route(r, cmd), Handle(t, cmd))
  {
    match TargetOf(cmd) {
      case Everyone =>
        BroadcastSimulates(r, t, Run(cmd), Route(r, cmd));
      case Window(id) =>
        if id !in r.winToApp {
          UnroutedSimulates(r, t, cmd, id);
        } else {
          var app := r.winToApp[id];
          assert HasWindow(r.winToApp, app);
          var r1 := r.(winToApp := Registered(r.winToApp, cmd));
          if cmd.CreatePopup? { RegisterSimulates(r, t, cmd); }
          var r2 := r1.(helpers := r1.helpers[app := r1.helpers[app] + [Run(cmd)]]);
          DeliverSimulates(r1, t, app, cmd, r2);
          if cmd.Destroy? {
            RetireSimulates(r2, Handle(t, cmd), id, Route(r, cmd));
          }
        }
    }
  }

  /** On every orderly run the hosts' window tables are disjoint and together are exactly
      the table one process would build from the same commands, and there is a host for
      exactly the applications that have a window. */
  lemma {:induction false} HostsSimulateOneProcess(insets: Insets, steps: seq<Step>)
    requires OrderlyRun(insets, steps)
    ensures Simulates(RunAll(insets, steps), RunSingle(steps))
  {
    if |steps| > 0 {
      var init, last := steps[..|steps| - 1], steps[|steps| - 1];
      forall k | 0 <= k < |init| ensures init[..k] == steps[..k] {}
      HostsSimulateOneProcess(insets, init);
      var r, t := RunAll(insets, init), RunSingle(init);
      match last {
        case AssignStep(_, _, _, _, _) => AssignSimulates(r, t, last);
        case PostStep(cmd) => PostSimulates(r, t, cmd);
        case InsetStep(i) => BroadcastSimulates(r, t, SetInsets(i), Next(r, last));
      }
    }
  }

  /** The union is a disjoint one: a window is in at most one host's table. */
  lemma HostsDisjoint(r: State, t: Table, a: Id, b: Id, w: Id)
    requires Simulates(r, t)
    requires a in r.helpers && b in r.helpers && w in HostTable(r.helpers[a]) && w in HostTable(r.helpers[b])
    ensures a == b && w in t && t[w] == HostTable(r.helpers[a])[w]
  {
    assert OwnWindows(r, a) && OwnWindows(r, b) && SameWindow(r, t, w);
  }

  // ---- shutdown ----------------------------------------------------------

  predicate NoShutdown(sent: seq<Downlink>) {
    forall m :: m in sent ==> !m.Shutdown?
  }

  /** Every message log starts with Hello; a running host has not been told to shut down,
      and a retired one was told once, last. */
  ghost predicate Tidy(r: State) {
    && (forall app :: app in r.helpers ==> TidyLog(r.helpers[app]))
    && (forall k :: 0 <= k < |r.gone| ==> TidyEnd(r.gone[k]))
  }

  /** What a step may do to the log of a host that stays: nothing, or one more message that
      is no shutdown. */
  predicate Grown(was: seq<Downlink>, now: seq<Downlink>) {
    now == was || (|now| == |was| + 1 && now[..|was|] == was && !now[|was|].Shutdown? && !now[|was|].Hello?)
  }

  lemma RouteGrows(r: State, cmd: Cmd, app: Id)
    requires app in Route(r, cmd).helpers
    ensures app in r.helpers && Route(r, cmd).insets == r.insets
    ensures Grown(r.helpers[app], Route(r, cmd).helpers[app])
    ensures HostInsets(Route(r, cmd).helpers[app]) == HostInsets(r.helpers[app])
  {
    Sent(r.helpers[app], Run(cmd));
  }

  /** A retired host's log ends with the last command and the shutdown. */
  lemma RouteRetires(r: State, cmd: Cmd)
    ensures var gone := Route(r, cmd).gone;
            gone == r.gone || exists app :: app in r.helpers && gone == r.gone + [r.helpers[app] + [Run(cmd)] + [Shutdown]]
  {
  }

  ghost predicate TidyLog(log: seq<Downlink>) { |log| > 0 && log[0].Hello? && NoShutdown(log) }

  ghost predicate TidyEnd(log: seq<Downlink>) {
    |log| > 1 && log[0].Hello? && log[|log| - 1] == Shutdown && NoShutdown(log[..|log| - 1])
  }

  lemma GrownTidy(was: seq<Downlink>, now: seq<Downlink>)
    requires TidyLog(was) && Grown(was, now)
    ensures TidyLog(now)
  {
    if now != was { assert now == was + [now[|was|]]; }
  }

  lemma RetiredTidy(log: seq<Downlink>, cmd: Cmd)
    requires TidyLog(log)
    ensures TidyEnd(log + [Run(cmd)] + [Shutdown])
  {
    var all := log + [Run(cmd)] + [Shutdown];
    assert all[..|all| - 1] == log + [Run(cmd)];
  }

  lemma PostTidy(r: State, cmd: Cmd)
    requires Tidy(r)
    ensures Tidy(Route(r, cmd))
  {
    var r' := Route(r, cmd);
    forall app | app in r'.helpers ensures TidyLog(r'.helpers[app]) {
      RouteGrows(r, cmd, app);
      GrownTidy(r.helpers[app], r'.helpers[app]);
    }
    RouteRetires(r, cmd);
    if r'.gone != r.gone {
      var app :| app in r.helpers && r'.gone == r.gone + [r.helpers[app] + [Run(cmd)] + [Shutdown]];
      RetiredTidy(r.helpers[app], cmd);
    }
  }

  lemma NextTidy(r: State, s: Step)
    requires Tidy(r)
    ensures Tidy(Next(r, s))
  {
    match s {
      case PostStep(cmd) => PostTidy(r, cmd);
      case InsetStep(insets) =>
        forall app | app in r.helpers ensures TidyLog(r.helpers[app] + [SetInsets(insets)]) {
          GrownTidy(r.helpers[app], r.helpers[app] + [SetInsets(insets)]);
        }
      case AssignStep(_, app, name, regular, _) =>
        assert TidyLog([Hello(r.insets, regular, name)]);
    }
  }

  lemma {:induction false} RunTidy(insets: Insets, steps: seq<Step>)
    ensures Tidy(RunAll(insets, steps))
  {
    if |steps| > 0 {
      RunTidy(insets, steps[..|steps| - 1]);
      NextTidy(RunAll(insets, steps[..|steps| - 1]), steps[|steps| - 1]);
    }
  }

  /** A host goes away exactly when the command destroys its last window. */
  lemma ShutdownExactly(r: State, s: Step, app: Id)
    requires HostsMatch(r) && app in r.helpers
    ensures app !in Next(r, s).helpers <==>
            && s.PostStep? && s.cmd.Destroy? && s.cmd.id in r.winToApp
            && forall w :: w in r.winToApp && r.winToApp[w] == app ==> w == s.cmd.id
    ensures app !in Next(r, s).helpers ==> Next(r, s).gone == r.gone + [r.helpers[app] + [Run(s.cmd), Shutdown]]
  {
    var w :| w in r.winToApp && r.winToApp[w] == app;
    if s.PostStep? && s.cmd.Destroy? && s.cmd.id in r.winToApp {
      LeftOver(r.winToApp, s.cmd.id, app);
      assert r.helpers[app] + [Run(s.cmd)] + [Shutdown] == r.helpers[app] + [Run(s.cmd), Shutdown];
    }
  }

  lemma LeftOver(wins: map<Id, Id>, id: Id, app: Id)
    ensures HasWindow(wins - {id}, app) <==> exists w :: w in wins && wins[w] == app && w != id
  {
    if w :| w in wins && wins[w] == app && w != id {
      assert w in wins - {id} && (wins - {id})[w] == app;
    }
  }

  // ---- insets ------------------------------------------------------------

  /** Every host that has read its queue holds the router's insets. */
  ghost predicate InsetsCoherent(r: State) {
    forall app :: app in r.helpers ==> HostInsets(r.helpers[app]) == Some(r.insets)
  }

  lemma NextInsets(r: State, s: Step)
    requires InsetsCoherent(r)
    ensures InsetsCoherent(Next(r, s))
  {
    match s {
      case PostStep(cmd) =>
        forall app | app in Route(r, cmd).helpers { RouteGrows(r, cmd, app); }
      case InsetStep(insets) =>
        forall app | app in r.helpers { Sent(r.helpers[app], SetInsets(insets)); }
      case AssignStep(_, app, name, regular, _) =>
        var hello := Hello(r.insets, regular, name);
        Sent([], hello);
        assert [] + [hello] == [hello];
    }
  }

  /** On every run, orderly or not, hosts already running and hosts spawned later agree on
      the reserved insets. */
  lemma {:induction false} RunInsets(insets: Insets, steps: seq<Step>)
    ensures InsetsCoherent(RunAll(insets, steps))
  {
    if |steps| > 0 {
      RunInsets(insets, steps[..|steps| - 1]);
      NextInsets(RunAll(insets, steps[..|steps| - 1]), steps[|steps| - 1]);
    }
  }

  // ---- when hosts and windows stop matching ------------------------------

  /** Moving an application's only window to another application strands its host. Hosts
      keep matching windows exactly when an assignment does not do that. */
  lemma AssignKeepsHostsMatch(r: State, win: Id, app: Id, name: string, regular: bool, spawned: bool)
    requires HostsMatch(r)
    ensures HostsMatch(Assign(r, win, app, name, regular, spawned)) <==>
            !(&& win in r.winToApp && r.winToApp[win] != app && (app in r.helpers || spawned)
              && forall w :: w in r.winToApp && r.winToApp[w] == r.winToApp[win] ==> w == win)
  {
    var r' := Assign(r, win, app, name, regular, spawned);
    if app in r.helpers || spawned {
      var moved := win in r.winToApp && r.winToApp[win] != app;
      assert r'.winToApp[win] == app && HasWindow(r'.winToApp, app);
      forall a | a != app && !(moved && a == r.winToApp[win])
        ensures a in r'.helpers <==> HasWindow(r'.winToApp, a)
      {
        if HasWindow(r.winToApp, a) {
          var w :| w in r.winToApp && r.winToApp[w] == a;
          assert w in r'.winToApp && r'.winToApp[w] == a;
        }
      }
      if moved {
        var prior := r.winToApp[win];
        assert HasWindow(r.winToApp, prior) && prior in r'.helpers;
        assert HasWindow(r'.winToApp, prior) <==>
          exists w :: w in r.winToApp && r.winToApp[w] == prior && w != win by { StillHeld(r.winToApp, win, app); }
      }
    }
  }

  lemma StillHeld(wins: map<Id, Id>, win: Id, app: Id)
    requires win in wins && wins[win] != app
    ensures HasWindow(wins[win := app], wins[win]) <==> exists w :: w in wins && wins[w] == wins[win] && w != win
  {
    var wins' := wins[win := app];
    if w :| w in wins && wins[w] == wins[win] && w != win {
      assert w in wins' && wins'[w] == wins[win];
    }
  }

  // ---- application keys --------------------------------------------------

  /** The key of a client's application, given on first sight and never changed. */
  function AppKeyFor(keys: map<nat, U32>, client: Option<nat>): (map<nat, U32>, U32)
    requires |keys| < 0x1_0000_0000
  {
    match client
    case None => (keys, 0)
    case Some(c) => if c in keys then (keys, keys[c]) else (keys[c := |keys|], |keys|)
  }

  /** Keys are distinct and lie below the number of clients seen. */
  ghost predicate KeysDense(keys: map<nat, U32>) {
    && (forall c :: c in keys ==> keys[c] < |keys|)
    && (forall c, d :: c in keys && d in keys && c != d ==> keys[c] != keys[d])
  }

  lemma AppKeysStayDistinct(keys: map<nat, U32>, client: Option<nat>)
    requires |keys| < 0x1_0000_0000 && KeysDense(keys)
    ensures var (keys', k) := AppKeyFor(keys, client);
            && KeysDense(keys')
            && (forall c :: c in keys ==> c in keys' && keys'[c] == keys[c])
            && (client.Some? ==> client.value in keys' && keys'[client.value] == k)
            && (client.Some? ==> forall c :: c in keys && c != client.value ==> keys[c] != k)
  {
    if client.Some? && client.value !in keys {
      var c := client.value;
      assert keys[c := |keys|].Keys == keys.Keys + {c};
      assert |keys[c := |keys|]| == |keys| + 1;
    }
  }

  /** The keys handed out after a series of requests for one. */
  function KeysAfter(clients: seq<Option<nat>>): (keys: map<nat, U32>)
    requires |clients| < 0x1_0000_0000
    ensures |keys| <= |clients|
  {
    if |clients| == 0 then map[]
    else
      var keys := KeysAfter(clients[..|clients| - 1]);
      KeysGrow(keys, clients[|clients| - 1]);
      AppKeyFor(keys, clients[|clients| - 1]).0
  }

  lemma KeysGrow(keys: map<nat, U32>, client: Option<nat>)
    requires |keys| < 0x1_0000_0000
    ensures |AppKeyFor(keys, client).0| <= |keys| + 1
  {
    if client.Some? && client.value !in keys {
      assert keys[client.value := |keys|].Keys == keys.Keys + {client.value};
    }
  }

  /** The key the `i`-th request got. */
  function KeyGiven(clients: seq<Option<nat>>, i: nat): U32
    requires i < |clients| < 0x1_0000_0000
  {
    AppKeyFor(KeysAfter(clients[..i]), clients[i]).1
  }

  lemma {:induction false} KeysAfterDense(clients: seq<Option<nat>>)
    requires |clients| < 0x1_0000_0000
    ensures KeysDense(KeysAfter(clients))
  {
    if |clients| > 0 {
      KeysAfterDense(clients[..|clients| - 1]);
      AppKeysStayDistinct(KeysAfter(clients[..|clients| - 1]), clients[|clients| - 1]);
    }
  }

  /** A key once given is kept. */
  lemma {:induction false} KeyKept(clients: seq<Option<nat>>, i: nat, n: nat)
    requires i < n <= |clients| < 0x1_0000_0000 && clients[i].Some?
    ensures clients[i].value in KeysAfter(clients[..n]) && KeysAfter(clients[..n])[clients[i].value] == KeyGiven(clients, i)
  {
    KeysAfterNext(clients, n);
    KeysAfterDense(clients[..n - 1]);
    AppKeysStayDistinct(KeysAfter(clients[..n - 1]), clients[n - 1]);
    if i < n - 1 { KeyKept(clients, i, n - 1); }
  }

  lemma KeysAfterNext(clients: seq<Option<nat>>, n: nat)
    requires 0 < n <= |clients| < 0x1_0000_0000
    ensures |KeysAfter(clients[..n - 1])| < 0x1_0000_0000
    ensures KeysAfter(clients[..n]) == AppKeyFor(KeysAfter(clients[..n - 1]), clients[n - 1]).0
  {
    assert clients[..n][..n - 1] == clients[..n - 1] && clients[..n][n - 1] == clients[n - 1];
  }

  /** Over any series of requests two clients have the same key iff they are the same client,
      and a request without a client gets 0. */
  lemma KeysOfRun(clients: seq<Option<nat>>, i: nat, j: nat)
    requires i < |clients| && j < |clients| < 0x1_0000_0000
    ensures clients[i].Some? && clients[j].Some? ==> (KeyGiven(clients, i) == KeyGiven(clients, j) <==> clients[i] == clients[j])
    ensures clients[i].None? ==> KeyGiven(clients, i) == 0
  {
    if clients[i].Some? && clients[j].Some? {
      KeyKept(clients, i, |clients|);
      KeyKept(clients, j, |clients|);
      KeysAfterDense(clients[..|clients|]);
    }
  }
}
