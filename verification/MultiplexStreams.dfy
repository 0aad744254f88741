/** The streams the router really gets: those of the compositor, inset broadcasts included,
    and of remote windows, with each window assigned just before it is created. */
module MultiplexStreams {
  import opened Prelude
  import M = Multiplex
  import C = Compositor
  import G = CompositorLog
  import R = CompositorRun
  import L = CompositorLifecycle
  import K = RailClient

  // ---- orderly prefixes --------------------------------------------------

  lemma OrderlySnoc(insets: Insets, steps: seq<M.Step>, s: M.Step)
    ensures M.RunAll(insets, steps + [s]) == M.Next(M.RunAll(insets, steps), s)
    ensures M.OrderlyRun(insets, steps + [s]) <==> M.OrderlyRun(insets, steps) && M.Orderly(M.RunAll(insets, steps), s)
  {
    assert (steps + [s])[..|steps|] == steps;
    if M.OrderlyRun(insets, steps + [s]) { PrefixOrderly(insets, steps, [s]); }
    if M.OrderlyRun(insets, steps) && M.Orderly(M.RunAll(insets, steps), s) { OneMoreOrderly(insets, steps, s); }
  }

  lemma OneMoreOrderly(insets: Insets, steps: seq<M.Step>, s: M.Step)
    requires M.OrderlyRun(insets, steps) && M.Orderly(M.RunAll(insets, steps), s)
    ensures M.OrderlyRun(insets, steps + [s])
  {
    var all := steps + [s];
    forall k | 0 <= k < |all| ensures M.Orderly(M.RunAll(insets, all[..k]), all[k]) {
      if k < |steps| { assert all[..k] == steps[..k] && all[k] == steps[k]; } else { assert all[..k] == steps; }
    }
  }

  // ---- the compositor ----------------------------------------------------

  /** What the router is told for a compositor command. */
  function Posted(cmd: C.Cmd): M.Cmd {
    match cmd
    case Create(w) => M.Create(w, [])
    case CreatePopup(w, p) => M.CreatePopup(w, p, [])
    case CreateLayer(w) => M.CreateLayer(w, [])
    case Frame(w) => M.Frame(w, [])
    case SubFrame(w, _, _, _) => M.SubFrame(w, [])
    case SubDestroy(w, _) => M.SubDestroy(w, [])
    case SetCursorImage => M.SetCursorImage([])
    case HideCursor => M.HideCursor
    case SetGrab(grab) => M.SetGrab(grab)
    case Destroy(w) => M.Destroy(w)
  }

  /** `app` and `name` are the window's application key and its display name. */
  function StepsOf(cmd: C.Cmd, app: C.Win -> M.Id, name: C.Win -> string): seq<M.Step> {
    if cmd.Create? || cmd.CreateLayer? then
      [M.AssignStep(cmd.win, app(cmd.win), name(cmd.win), cmd.Create?, true), M.PostStep(Posted(cmd))]
    else [M.PostStep(Posted(cmd))]
  }

  /** An inset broadcast goes to the router between commands. */
  function ItemSteps(item: G.Item, app: C.Win -> M.Id, name: C.Win -> string): seq<M.Step> {
    match item
    case Told(cmd) => StepsOf(cmd, app, name)
    case Published(insets) => [M.InsetStep(insets)]
  }

  function Steps(items: seq<G.Item>, app: C.Win -> M.Id, name: C.Win -> string): seq<M.Step> {
    if |items| == 0 then [] else Steps(items[..|items| - 1], app, name) + ItemSteps(items[|items| - 1], app, name)
  }

  /** A window is registered when it is created, to its assigned application. */
  lemma CreateStep(insets: Insets, steps: seq<M.Step>, cmd: C.Cmd, app: C.Win -> M.Id, name: C.Win -> string)
    requires cmd.Create? || cmd.CreateLayer?
    requires cmd.win !in M.RunAll(insets, steps).winToApp
    ensures var all := steps + StepsOf(cmd, app, name);
            && (M.OrderlyRun(insets, all) <==> M.OrderlyRun(insets, steps))
            && M.RunAll(insets, all).winToApp.Keys == M.RunAll(insets, steps).winToApp.Keys + {cmd.win}
  {
    var assign := M.AssignStep(cmd.win, app(cmd.win), name(cmd.win), cmd.Create?, true);
    var post := M.PostStep(Posted(cmd));
    OrderlySnoc(insets, steps, assign);
    OrderlySnoc(insets, steps + [assign], post);
    assert steps + StepsOf(cmd, app, name) == steps + [assign] + [post];
    AssignedStep(M.RunAll(insets, steps), cmd, app(cmd.win), name(cmd.win));
    RouteKeys(M.RunAll(insets, steps + [assign]), Posted(cmd));
  }

  lemma AssignedStep(r: M.State, cmd: C.Cmd, app: M.Id, name: string)
    requires (cmd.Create? || cmd.CreateLayer?) && cmd.win !in r.winToApp
    ensures var assign := M.AssignStep(cmd.win, app, name, cmd.Create?, true);
            var r' := M.Next(r, assign);
            && M.Orderly(r, assign) && M.Orderly(r', M.PostStep(Posted(cmd)))
            && r'.winToApp.Keys == r.winToApp.Keys + {cmd.win}
  {
  }

  /** What a posted command does to the registrations. */
  lemma RouteKeys(r: M.State, cmd: M.Cmd)
    ensures M.Route(r, cmd).winToApp.Keys ==
            if cmd.CreatePopup? && cmd.parent in r.winToApp then r.winToApp.Keys + {cmd.id}
            else if cmd.Destroy? then r.winToApp.Keys - {cmd.id}
            else r.winToApp.Keys
  {
  }

  /** Any other command is one step; only a popup's can be out of order. */
  lemma PostStep(insets: Insets, steps: seq<M.Step>, cmd: C.Cmd, app: C.Win -> M.Id, name: C.Win -> string)
    requires !cmd.Create? && !cmd.CreateLayer?
    requires cmd.CreatePopup? ==> cmd.win !in M.RunAll(insets, steps).winToApp
    ensures var r, all := M.RunAll(insets, steps), steps + StepsOf(cmd, app, name);
            && (M.OrderlyRun(insets, all) <==> M.OrderlyRun(insets, steps) && G.ParentOpen(r.winToApp.Keys, cmd))
            && M.RunAll(insets, all) == M.Route(r, Posted(cmd))
  {
    OrderlySnoc(insets, steps, M.PostStep(Posted(cmd)));
    PostOrderly(M.RunAll(insets, steps), cmd);
  }

  lemma PostOrderly(r: M.State, cmd: C.Cmd)
    requires !cmd.Create? && !cmd.CreateLayer? && (cmd.CreatePopup? ==> cmd.win !in r.winToApp)
    ensures M.Orderly(r, M.PostStep(Posted(cmd))) <==> G.ParentOpen(r.winToApp.Keys, cmd)
  {
  }

  /** One more command of a proper stream, the registered windows being the open ones. */
  lemma StreamStep(insets: Insets, steps: seq<M.Step>, open: set<C.Win>, cmd: C.Cmd, app: C.Win -> M.Id, name: C.Win -> string)
    requires M.RunAll(insets, steps).winToApp.Keys == open && L.Proper(open, cmd)
    ensures var all := steps + StepsOf(cmd, app, name);
            && (M.OrderlyRun(insets, all) <==> M.OrderlyRun(insets, steps) && G.ParentOpen(open, cmd))
            && (G.ParentOpen(open, cmd) ==> M.RunAll(insets, all).winToApp.Keys == L.OpenStep(open, cmd))
  {
    if cmd.Create? || cmd.CreateLayer? {
      CreateStep(insets, steps, cmd, app, name);
    } else {
      PostStep(insets, steps, cmd, app, name);
      RouteKeys(M.RunAll(insets, steps), Posted(cmd));
    }
  }

  /** A broadcast registers nothing. */
  lemma InsetStep(insets: Insets, steps: seq<M.Step>, published: Insets)
    ensures var all := steps + [M.InsetStep(published)];
            && (M.OrderlyRun(insets, all) <==> M.OrderlyRun(insets, steps))
            && M.RunAll(insets, all).winToApp == M.RunAll(insets, steps).winToApp
  {
    OrderlySnoc(insets, steps, M.InsetStep(published));
  }

  /** Following a proper stream keeps the registered windows the open ones, and the steps are
      orderly, as long as popups have open parents. */
  lemma {:induction false} StreamOrderly(insets: Insets, items: seq<G.Item>, app: C.Win -> M.Id, name: C.Win -> string)
    requires L.WellFormed(G.CmdsOf(items))
    ensures M.OrderlyRun(insets, Steps(items, app, name)) <==> G.Parented(G.CmdsOf(items))
    ensures G.Parented(G.CmdsOf(items)) ==> M.RunAll(insets, Steps(items, app, name)).winToApp.Keys == L.Open(G.CmdsOf(items))
  {
    if |items| > 0 {
      var init, item := items[..|items| - 1], items[|items| - 1];
      var steps := Steps(init, app, name);
      match item {
        case Published(published) =>
          assert G.CmdsOf(items) == G.CmdsOf(init);
          StreamOrderly(insets, init, app, name);
          InsetStep(insets, steps, published);
        case Told(cmd) =>
          L.Append(G.CmdsOf(init), cmd);
          G.ParentedAppend(G.CmdsOf(init), cmd);
          StreamOrderly(insets, init, app, name);
          if G.Parented(G.CmdsOf(init)) {
            StreamStep(insets, steps, L.Open(G.CmdsOf(init)), cmd, app, name);
          } else if M.OrderlyRun(insets, Steps(items, app, name)) {
            PrefixOrderly(insets, steps, StepsOf(cmd, app, name));
          }
      }
    }
  }

  lemma PrefixOrderly(insets: Insets, a: seq<M.Step>, b: seq<M.Step>)
    requires M.OrderlyRun(insets, a + b)
    ensures M.OrderlyRun(insets, a)
  {
    forall k | 0 <= k < |a| ensures (a + b)[..k] == a[..k] && (a + b)[k] == a[k] {}
  }

  /** After each command and broadcast the hosts hold exactly the windows one process would. */
  ghost predicate AlwaysSimulates(insets: Insets, items: seq<G.Item>, app: C.Win -> M.Id, name: C.Win -> string) {
    |items| == 0 ||
    (&& AlwaysSimulates(insets, items[..|items| - 1], app, name)
     && M.Simulates(M.RunAll(insets, Steps(items, app, name)), M.RunSingle(Steps(items, app, name))))
  }

  lemma SingleSnoc(steps: seq<M.Step>, s: M.Step)
    ensures M.RunSingle(steps + [s]) == M.NextSingle(M.RunSingle(steps), s)
  {
    assert (steps + [s])[..|steps|] == steps;
  }

  /** A popup without an open parent is registered with no host, while one process opens it. */
  lemma OrphanDiverges(insets: Insets, steps: seq<M.Step>, cmd: C.Cmd, app: C.Win -> M.Id, name: C.Win -> string)
    requires cmd.CreatePopup? && cmd.win !in M.RunAll(insets, steps).winToApp && cmd.parent !in M.RunAll(insets, steps).winToApp
    ensures var all := steps + StepsOf(cmd, app, name); !M.Simulates(M.RunAll(insets, all), M.RunSingle(all))
  {
    var all := steps + StepsOf(cmd, app, name);
    OrderlySnoc(insets, steps, M.PostStep(Posted(cmd)));
    SingleSnoc(steps, M.PostStep(Posted(cmd)));
    RouteKeys(M.RunAll(insets, steps), Posted(cmd));
    assert cmd.win in M.RunSingle(all) && cmd.win !in M.RunAll(insets, all).winToApp;
    assert !M.SameWindow(M.RunAll(insets, all), M.RunSingle(all), cmd.win);
  }

  /** For a proper stream that is so throughout iff every popup's parent is open. */
  lemma {:induction false} AlwaysSimulatesIff(insets: Insets, items: seq<G.Item>, app: C.Win -> M.Id, name: C.Win -> string)
    requires L.WellFormed(G.CmdsOf(items))
    ensures AlwaysSimulates(insets, items, app, name) <==> G.Parented(G.CmdsOf(items))
  {
    if |items| > 0 {
      var init, item := items[..|items| - 1], items[|items| - 1];
      if item.Told? {
        L.Append(G.CmdsOf(init), item.cmd);
        G.ParentedAppend(G.CmdsOf(init), item.cmd);
      } else {
        assert G.CmdsOf(items) == G.CmdsOf(init);
      }
      AlwaysSimulatesIff(insets, init, app, name);
      StreamOrderly(insets, init, app, name);
      StreamOrderly(insets, items, app, name);
      if G.Parented(G.CmdsOf(items)) {
        M.HostsSimulateOneProcess(insets, Steps(items, app, name));
      } else if G.Parented(G.CmdsOf(init)) {
        OrphanDiverges(insets, Steps(init, app, name), item.cmd, app, name);
      }
    }
  }

  /** The steps of every compositor run, inset broadcasts included, are orderly iff every
      commit that opens a popup finds the window recorded as its parent shown, and that is
      exactly when the hosts hold the windows one process would throughout. */
  lemma CompositorOrderlyIff(insets: Insets, pointers: seq<C.Pointer>, events: seq<R.Event>, app: C.Win -> M.Id, name: C.Win -> string)
    requires R.FreshIds(pointers, events)
    ensures var log := G.Log(pointers, events);
            && (M.OrderlyRun(insets, Steps(log, app, name)) <==> G.PopupsUnderShown(pointers, events))
            && (AlwaysSimulates(insets, log, app, name) <==> G.PopupsUnderShown(pointers, events))
  {
    L.WindowStream(pointers, events);
    G.LogOfRun(pointers, events);
    G.ParentedIff(pointers, events);
    StreamOrderly(insets, G.Log(pointers, events), app, name);
    AlwaysSimulatesIff(insets, G.Log(pointers, events), app, name);
  }

  lemma RouteInsets(r: M.State, cmd: M.Cmd)
    ensures M.Route(r, cmd).insets == r.insets
  {
  }

  /** One step of the router changes its insets only if it is a broadcast. */
  lemma InsetsNext(insets: Insets, steps: seq<M.Step>, s: M.Step)
    ensures M.RunAll(insets, steps + [s]).insets == if s.InsetStep? then s.insets else M.RunAll(insets, steps).insets
  {
    assert (steps + [s])[..|steps|] == steps;
    if s.PostStep? { RouteInsets(M.RunAll(insets, steps), s.cmd); }
  }

  lemma CommandInsets(insets: Insets, steps: seq<M.Step>, cmd: C.Cmd, app: C.Win -> M.Id, name: C.Win -> string)
    ensures M.RunAll(insets, steps + StepsOf(cmd, app, name)).insets == M.RunAll(insets, steps).insets
  {
    var post := M.PostStep(Posted(cmd));
    if cmd.Create? || cmd.CreateLayer? {
      var assign := M.AssignStep(cmd.win, app(cmd.win), name(cmd.win), cmd.Create?, true);
      InsetsNext(insets, steps, assign);
      InsetsNext(insets, steps + [assign], post);
      assert steps + StepsOf(cmd, app, name) == steps + [assign] + [post];
    } else {
      InsetsNext(insets, steps, post);
    }
  }

  lemma ItemInsets(insets: Insets, steps: seq<M.Step>, item: G.Item, app: C.Win -> M.Id, name: C.Win -> string)
    ensures M.RunAll(insets, steps + ItemSteps(item, app, name)).insets ==
            if item.Published? then item.insets else M.RunAll(insets, steps).insets
  {
    match item {
      case Published(published) => InsetsNext(insets, steps, M.InsetStep(published));
      case Told(cmd) => CommandInsets(insets, steps, cmd, app, name);
    }
  }

  lemma {:induction false} StepsInsets(insets: Insets, items: seq<G.Item>, app: C.Win -> M.Id, name: C.Win -> string)
    ensures M.RunAll(insets, Steps(items, app, name)).insets == G.Latest(insets, items)
  {
    if |items| > 0 {
      StepsInsets(insets, items[..|items| - 1], app, name);
      ItemInsets(insets, Steps(items[..|items| - 1], app, name), items[|items| - 1], app, name);
    }
  }

  /** After every compositor run, every host that has read its queue holds the insets the
      compositor has just now, whenever the host was started. */
  lemma HostsHaveInsets(pointers: seq<C.Pointer>, events: seq<R.Event>, app: C.Win -> M.Id, name: C.Win -> string)
    requires R.FreshIds(pointers, events)
    ensures var hosts := M.RunAll(G.NO_INSETS, Steps(G.Log(pointers, events), app, name)).helpers;
            forall a :: a in hosts ==> M.HostInsets(hosts[a]) == Some(R.Run(pointers, events).insets)
  {
    G.LogOfRun(pointers, events);
    StepsInsets(G.NO_INSETS, G.Log(pointers, events), app, name);
    M.RunInsets(G.NO_INSETS, Steps(G.Log(pointers, events), app, name));
  }

  // ---- remote windows ----------------------------------------------------

  function RemotePosted(cmd: K.Cmd): M.Cmd {
    match cmd
    case Create(id, _, _, _) => M.Create(id, [])
    case Move(id, _, _) => M.Move(id, [])
    case Title(id, _) => M.Title(id, [])
    case Destroy(id) => M.Destroy(id)
    case Present(id, _, _, _) => M.Frame(id, [])
  }

  /** A remote window is an application of its own. */
  function RemoteStepsOf(cmd: K.Cmd, name: U32 -> string): seq<M.Step> {
    if cmd.Create? then [M.AssignStep(cmd.id, cmd.id, name(cmd.id), true, true), M.PostStep(RemotePosted(cmd))]
    else [M.PostStep(RemotePosted(cmd))]
  }

  function RemoteSteps(cmds: seq<K.Cmd>, name: U32 -> string): seq<M.Step> {
    if |cmds| == 0 then [] else RemoteSteps(cmds[..|cmds| - 1], name) + RemoteStepsOf(cmds[|cmds| - 1], name)
  }

  predicate OwnApps(wins: map<M.Id, M.Id>) { forall w :: w in wins ==> wins[w] == w }

  /** Posting a command that is no popup's moves no window to another application. */
  lemma RouteOwn(r: M.State, cmd: M.Cmd)
    requires OwnApps(r.winToApp) && !cmd.CreatePopup?
    ensures OwnApps(M.Route(r, cmd).winToApp)
  {
  }

  lemma {:induction false} RemoteStream(insets: Insets, cmds: seq<K.Cmd>, name: U32 -> string)
    ensures M.OrderlyRun(insets, RemoteSteps(cmds, name)) && OwnApps(M.RunAll(insets, RemoteSteps(cmds, name)).winToApp)
  {
    if |cmds| > 0 {
      var cmd := cmds[|cmds| - 1];
      var steps := RemoteSteps(cmds[..|cmds| - 1], name);
      RemoteStream(insets, cmds[..|cmds| - 1], name);
      if cmd.Create? { RemoteCreate(insets, steps, cmd, name); } else { RemotePost(insets, steps, cmd); }
    }
  }

  lemma RemoteCreate(insets: Insets, steps: seq<M.Step>, cmd: K.Cmd, name: U32 -> string)
    requires cmd.Create? && M.OrderlyRun(insets, steps) && OwnApps(M.RunAll(insets, steps).winToApp)
    ensures var all := steps + RemoteStepsOf(cmd, name);
            M.OrderlyRun(insets, all) && OwnApps(M.RunAll(insets, all).winToApp)
  {
    var assign := M.AssignStep(cmd.id, cmd.id, name(cmd.id), true, true);
    OrderlySnoc(insets, steps, assign);
    AssignOwn(M.RunAll(insets, steps), cmd.id, name(cmd.id));
    RemotePost(insets, steps + [assign], cmd);
    assert steps + RemoteStepsOf(cmd, name) == steps + [assign] + [M.PostStep(RemotePosted(cmd))];
  }

  lemma AssignOwn(r: M.State, id: M.Id, name: string)
    requires OwnApps(r.winToApp)
    ensures var assign := M.AssignStep(id, id, name, true, true);
            M.Orderly(r, assign) && OwnApps(M.Next(r, assign).winToApp) && id in M.Next(r, assign).winToApp
  {
  }

  lemma RemotePost(insets: Insets, steps: seq<M.Step>, cmd: K.Cmd)
    requires M.OrderlyRun(insets, steps)
    requires var r := M.RunAll(insets, steps); OwnApps(r.winToApp) && (cmd.Create? ==> cmd.id in r.winToApp)
    ensures var all := steps + [M.PostStep(RemotePosted(cmd))];
            M.OrderlyRun(insets, all) && OwnApps(M.RunAll(insets, all).winToApp)
  {
    OrderlySnoc(insets, steps, M.PostStep(RemotePosted(cmd)));
    RouteOwn(M.RunAll(insets, steps), RemotePosted(cmd));
  }

  /** The steps of every stream of remote windows are orderly, so the hosts hold exactly the
      windows one process would. */
  lemma RemoteSimulates(insets: Insets, scale: K.Scale, inputs: seq<K.Input>, name: U32 -> string)
    ensures var steps := RemoteSteps(K.Through(scale, inputs).posted, name);
            M.Simulates(M.RunAll(insets, steps), M.RunSingle(steps))
  {
    var cmds := K.Through(scale, inputs).posted;
    RemoteStream(insets, cmds, name);
    M.HostsSimulateOneProcess(insets, RemoteSteps(cmds, name));
  }
}
