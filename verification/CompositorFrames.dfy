/** What each compositor operation leaves alone. */
module CompositorFrames {
  import opened Prelude
  import opened Compositor
  import opened CompositorRun

  /** Only role records, their commands and what is staged may differ. */
  predicate OnlyShows(s: State, s': State) {
    s' == s.(surfaces := s'.surfaces, toplevels := s'.toplevels, popups := s'.popups, layers := s'.layers, posted := s'.posted)
  }

  lemma OnlyShowsTrans(s: State, s': State, s'': State)
    requires OnlyShows(s, s') && OnlyShows(s', s'')
    ensures OnlyShows(s, s'')
  {
  }

  lemma PresentToplevelOnly(s: State, obj: Obj)
    ensures OnlyShows(s, PresentToplevel(s, obj)) && PresentToplevel(s, obj).surfaces == s.surfaces
  {
  }

  lemma PresentPopupOnly(s: State, obj: Obj)
    ensures OnlyShows(s, PresentPopup(s, obj)) && PresentPopup(s, obj).surfaces == s.surfaces
  {
  }

  lemma PresentLayerOnly(s: State, obj: Obj)
    ensures OnlyShows(s, PresentLayer(s, obj)) && PresentLayer(s, obj).surfaces == s.surfaces
  {
  }

  lemma HidePopupOnly(s: State, obj: Obj)
    ensures OnlyShows(s, HidePopup(s, obj)) && HidePopup(s, obj).surfaces == s.surfaces
  {
  }

  lemma ShowOnly(s: State, sid: Surface, buffer: Buffer)
    ensures OnlyShows(s, ShowBuffer(s, sid, buffer)) && ShowBuffer(s, sid, buffer).surfaces == s.surfaces
  {
    if s.cursor != Some(sid) && sid !in s.surfaceSub && buffer.readable {
      if sid in s.surfaceLayer {
        PresentLayerOnly(s, s.surfaceLayer[sid]);
      } else if sid in s.surfaceToplevel {
        PresentToplevelOnly(s, s.surfaceToplevel[sid]);
      } else if sid in s.surfacePopup {
        PresentPopupOnly(s, s.surfacePopup[sid]);
      }
    }
  }

  lemma ConfigureOnly(s: State, sid: Surface)
    ensures OnlyShows(s, Configure(s, sid)) && Configure(s, sid).surfaces == s.surfaces
  {
  }

  lemma CommitOnly(s: State, sid: Surface)
    ensures OnlyShows(s, Commit(s, sid)) && Commit(s, sid).surfaces == Unstaged(s.surfaces, sid)
  {
    var s0 := s.(surfaces := Unstaged(s.surfaces, sid));
    var taken, staged := Configure(s0, sid), Staged(s, sid);
    ConfigureOnly(s0, sid);
    OnlyShowsTrans(s, s0, taken);
    if staged.pending.Some? {
      ShowOnly(taken, sid, staged.pending.value);
      OnlyShowsTrans(s, taken, Commit(s, sid));
    } else if staged.attached && sid in taken.surfacePopup {
      HidePopupOnly(taken, taken.surfacePopup[sid]);
      OnlyShowsTrans(s, taken, Commit(s, sid));
    }
  }

  /** Only bars, their index, registrations, insets and commands may differ. */
  predicate OnlyBars(s: State, s': State) {
    s' == s.(layers := s'.layers, surfaceLayer := s'.surfaceLayer, windowSurface := s'.windowSurface,
             insets := s'.insets, posted := s'.posted)
  }

  lemma ReapLayerOnly(s: State, obj: Obj)
    ensures OnlyBars(s, ReapLayer(s, obj))
  {
    if obj !in s.layers { assert ReapLayer(s, obj) == s.(insets := Reserved(s.layers)); }
  }

  lemma ReapLayerPosts(s: State, obj: Obj)
    ensures ReapLayer(s, obj).posted ==
            s.posted + if obj in s.layers then Closing(s.layers[obj].created, s.layers[obj].win) else []
  {
    if obj in s.layers {
      assert ReapLayer(s, obj).posted == s.posted + Closing(s.layers[obj].created, s.layers[obj].win);
    } else {
      assert ReapLayer(s, obj) == s.(insets := Reserved(s.layers));
      assert s.posted + [] == s.posted;
    }
  }

  lemma ReapSubOnly(s: State, obj: Obj)
    ensures var s' := ReapSub(s, obj); s' == s.(subs := s'.subs, surfaceSub := s'.surfaceSub, posted := s'.posted)
  {
  }

  lemma LoseToplevelOnly(s: State, sid: Surface)
    ensures var s' := LoseToplevel(s, sid);
            s' == s.(toplevels := s'.toplevels, surfaceToplevel := s'.surfaceToplevel, posted := s'.posted)
  {
  }

  /** Popups, ids, what is staged, the cursor, pointers and focus are as before. */
  predicate OnlyLoses(s: State, s': State) {
    s' == s.(toplevels := s'.toplevels, surfaceToplevel := s'.surfaceToplevel, subs := s'.subs,
             surfaceSub := s'.surfaceSub, layers := s'.layers, surfaceLayer := s'.surfaceLayer,
             windowSurface := s'.windowSurface, insets := s'.insets, posted := s'.posted)
  }

  lemma OnlyLosesTrans(s: State, s': State, s'': State)
    requires OnlyLoses(s, s') && OnlyLoses(s', s'')
    ensures OnlyLoses(s, s'')
  {
  }

  lemma LoseRolesOnly(s: State, sid: Surface)
    ensures OnlyLoses(s, LoseLayer(LoseSub(LoseToplevel(s, sid), sid), sid))
  {
    var s1 := LoseToplevel(s, sid);
    var s2 := LoseSub(s1, sid);
    LoseToplevelOnly(s, sid);
    if sid in s1.surfaceSub { ReapSubOnly(s1, s1.surfaceSub[sid]); }
    OnlyLosesTrans(s, s1, s2);
    if sid in s2.surfaceLayer { ReapLayerOnly(s2, s2.surfaceLayer[sid]); }
    OnlyLosesTrans(s, s2, LoseLayer(s2, sid));
  }

  /** Destroying a surface leaves popups, ids, pointers and focus alone. */
  lemma DestroyOnly(s: State, sid: Surface)
    ensures var s' := DestroySurface(s, sid);
            && OnlyLoses(s.(surfaces := s'.surfaces, cursor := s'.cursor), s')
            && s'.surfaces == s.surfaces - {sid}
            && s'.cursor == if s.cursor == Some(sid) then None else s.cursor
  {
    LoseRolesOnly(s, sid);
    ForgetOnly(s, LoseLayer(LoseSub(LoseToplevel(s, sid), sid), sid), sid);
  }

  lemma ForgetOnly(s: State, lost: State, sid: Surface)
    requires OnlyLoses(s, lost)
    ensures var s' := Forget(lost, sid);
            && OnlyLoses(s.(surfaces := s'.surfaces, cursor := s'.cursor), s')
            && s'.surfaces == s.surfaces - {sid}
            && s'.cursor == if s.cursor == Some(sid) then None else s.cursor
  {
  }

  // ---- groups of requests ------------------------------------------------

  lemma ShellOnly(s: State, e: Event)
    requires IsShell(e)
    ensures var s' := ShellStep(s, e);
            s' == s.(nextWin := s'.nextWin, toplevels := s'.toplevels, surfaceToplevel := s'.surfaceToplevel,
                     popups := s'.popups, surfacePopup := s'.surfacePopup,
                     windowSurface := s'.windowSurface, posted := s'.posted)
  {
  }

  lemma BarOnly(s: State, e: Event)
    requires IsBar(e)
    ensures var s' := BarStep(s, e);
            s' == s.(nextWin := s'.nextWin, layers := s'.layers, surfaceLayer := s'.surfaceLayer,
                     windowSurface := s'.windowSurface, insets := s'.insets, posted := s'.posted)
  {
    match e {
      case LayerMade(obj, sid) =>
      case LayerAnchor(obj, anchor) => SetAnchorOnly(s, obj, anchor);
      case LayerExclusive(obj, zone) => SetExclusiveOnly(s, obj, zone);
      case LayerGone(obj) => ReapLayerOnly(s, obj);
    }
  }

  lemma SetAnchorOnly(s: State, obj: Obj, anchor: U32)
    ensures var s' := SetAnchor(s, obj, anchor); s' == s.(layers := s'.layers, insets := s'.insets)
  {
  }

  lemma SetExclusiveOnly(s: State, obj: Obj, zone: I32)
    ensures var s' := SetExclusive(s, obj, zone); s' == s.(layers := s'.layers, insets := s'.insets)
  {
  }

  lemma SideOnly(s: State, e: Event)
    requires IsSide(e)
    ensures var s' := SideStep(s, e);
            s' == s.(nextWin := s'.nextWin, surfaces := s'.surfaces, subs := s'.subs, surfaceSub := s'.surfaceSub,
                     cursor := s'.cursor, posted := s'.posted)
  {
    match e {
      case CreateSurface(sid) =>
      case AttachBuffer(sid, buffer) => AttachOnly(s, sid, buffer);
      case SubMade(obj, sid, above) => GetSubOnly(s, obj, sid, above);
      case SubMoved(obj, x, y) => SetPositionOnly(s, obj, x, y);
      case SubGone(obj) => ReapSubOnly(s, obj);
      case CursorSet(surface) => SetCursorOnly(s, surface);
    }
  }

  lemma AttachOnly(s: State, sid: Surface, buffer: Option<Buffer>)
    ensures var s' := Attach(s, sid, buffer); s' == s.(surfaces := s'.surfaces)
  {
  }

  lemma GetSubOnly(s: State, obj: Obj, sid: Surface, above: Surface)
    ensures var s' := GetSub(s, obj, sid, above); s' == s.(nextWin := s'.nextWin, subs := s'.subs, surfaceSub := s'.surfaceSub)
  {
    if sid == above { assert GetSub(s, obj, sid, above) == s; }
  }

  lemma SetPositionOnly(s: State, obj: Obj, x: I32, y: I32)
    ensures var s' := SetPosition(s, obj, x, y); s' == s.(subs := s'.subs)
  {
  }

  lemma SetCursorOnly(s: State, surface: Option<Surface>)
    ensures var s' := SetCursor(s, surface); s' == s.(surfaces := s'.surfaces, cursor := s'.cursor, posted := s'.posted)
  {
  }
}
