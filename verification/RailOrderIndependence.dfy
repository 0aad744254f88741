/** When every window is announced exactly once, the router's final table does not depend
    on the order in which the announcements arrive. */
module RailOrderIndependence {
  import opened Prelude
  import opened RailGeometry
  import opened RailRouter

  datatype Announce = Announce(id: U32, style: Option<Style>, rect: Rect) {
    function Owner(): Option<U32> {
      if style.Some? then NormalizeOwner(style.value.owner) else None
    }

    predicate Decoration() {
      style.Some? && IsDecoration(style.value.exstyle, Owner())
    }
  }

  /** The router after the announcements, in this order, starting from nothing. */
  function AnnounceAll(anns: seq<Announce>): State {
    if |anns| == 0 then EMPTY
    else
      var last := anns[|anns| - 1];
      WindowOrder(AnnounceAll(anns[..|anns| - 1]), last.id, last.style, last.rect).0
  }

  lemma AnnounceAppend(anns: seq<Announce>, a: Announce)
    ensures AnnounceAll(anns + [a]) == WindowOrder(AnnounceAll(anns), a.id, a.style, a.rect).0
  {
    assert (anns + [a])[..|anns|] == anns;
  }

  predicate EachOnce(anns: seq<Announce>) {
    forall i, j :: 0 <= i < j < |anns| ==> anns[i].id != anns[j].id
  }

  /** `b` is the content of the frame `a`. */
  predicate Content(b: Announce, a: Announce) {
    b.id != a.id && b.Owner() == Some(a.id) && b.rect.Covers(a.rect)
  }

  ghost predicate Framed(a: Announce, all: set<Announce>) {
    exists b | b in all :: Content(b, a)
  }

  ghost predicate Hidden(a: Announce, all: set<Announce>) {
    a.Decoration() || Framed(a, all)
  }

  /** `ws` knows exactly the announced windows, with the announced owner and geometry. */
  ghost predicate Records(ws: Windows, all: set<Announce>) {
    && (forall a :: a in all ==> a.id in ws && ws[a.id].owner == a.Owner() && ws[a.id].rect == a.rect)
    && (forall id :: id in ws ==> exists a :: a in all && a.id == id)
  }

  /** The table the announcements call for: a window is filtered iff it is a decoration
      or some other announced window is its content. */
  ghost predicate Final(ws: Windows, all: set<Announce>) {
    Records(ws, all) && forall a :: a in all ==> (ws[a.id].kind == Filtered <==> Hidden(a, all))
  }

  lemma FinalUnique(ws: Windows, ws': Windows, all: set<Announce>)
    requires Final(ws, all) && Final(ws', all)
    ensures ws == ws'
  {
    forall id ensures id in ws <==> id in ws' {}
    forall id | id in ws ensures ws[id] == ws'[id] {
      var a :| a in all && a.id == id;
    }
  }

  lemma CoveringIsFraming(ws: Windows, all: set<Announce>, a: Announce)
    requires Records(ws, all) && a in all
    ensures HasCoveringChild(ws, a.id) <==> Framed(a, all)
  {
    if HasCoveringChild(ws, a.id) {
      var c :| c in ws && CoveringChild(ws, c, a.id);
      var b :| b in all && b.id == c;
      assert Content(b, a);
    }
    if Framed(a, all) {
      var b :| b in all && Content(b, a);
      assert CoveringChild(ws, b.id, a.id);
    }
  }

  lemma FramedGrows(b: Announce, all: set<Announce>, a: Announce)
    ensures Framed(b, all + {a}) <==> Framed(b, all) || Content(a, b)
  {
    if Content(a, b) {
      assert a in all + {a};
    }
    if Framed(b, all) {
      var c :| c in all && Content(c, b);
      assert c in all + {a};
    }
  }

  lemma NotYetAnnounced(ws: Windows, all: set<Announce>, id: U32)
    requires Records(ws, all)
    requires forall a :: a in all ==> a.id != id
    ensures id !in ws
  {
  }

  /** Filing a first announcement: the new window gets its final kind, the others keep theirs. */
  lemma FiledFirst(ws: Windows, all: set<Announce>, a: Announce)
    requires Records(ws, all) && a.id !in ws
    ensures var filed := Filed(ws, a.id, a.style, a.rect);
            && Records(filed, all + {a})
            && filed == ws[a.id := filed[a.id]]
            && (filed[a.id].kind == Filtered <==> Hidden(a, all + {a}))
  {
    var filed := Filed(ws, a.id, a.style, a.rect);
    var placed := ws[a.id := Win(Mirror, a.Owner(), a.rect)];
    RecordsGrow(ws, placed, all, a);
    RecordsGrow(ws, filed, all, a);
    CoveringIsFraming(placed, all + {a}, a);
    assert filed == placed[a.id := Win(Classify(placed, a.id, a.style, a.Owner(), None), a.Owner(), a.rect)];
  }

  /** One more announcement turns the final table of the earlier ones into the final
      table of all of them. */
  lemma AnnounceExtends(s: State, all: set<Announce>, a: Announce)
    requires Final(s.windows, all)
    requires a.id !in s.windows
    ensures Final(WindowOrder(s, a.id, a.style, a.rect).0.windows, all + {a})
  {
    var ws' := WindowOrder(s, a.id, a.style, a.rect).0.windows;
    AnnouncedRecords(s, all, a);
    forall b | b in all + {a} ensures b.id in ws' && (ws'[b.id].kind == Filtered <==> Hidden(b, all + {a})) {
      RekindedRight(s, all, a, b);
    }
  }

  lemma AnnouncedRecords(s: State, all: set<Announce>, a: Announce)
    requires Records(s.windows, all) && a.id !in s.windows
    ensures Records(WindowOrder(s, a.id, a.style, a.rect).0.windows, all + {a})
  {
    var filed := Filed(s.windows, a.id, a.style, a.rect);
    FiledFirst(s.windows, all, a);
    OrderTable(s, a.id, a.style, a.rect);
    var p := Exposed(filed, filed[a.id].owner);
    if p.Some? { RecordsDemoted(filed, p.value, all + {a}); }
  }

  lemma RecordsDemoted(ws: Windows, p: U32, all: set<Announce>)
    requires Records(ws, all) && p in ws
    ensures Records(ws[p := ws[p].(kind := Filtered)], all)
  {
    RecordsRekind(ws, ws[p := ws[p].(kind := Filtered)], all);
  }

  lemma RekindedRight(s: State, all: set<Announce>, a: Announce, b: Announce)
    requires Final(s.windows, all)
    requires a.id !in s.windows
    requires b in all + {a}
    ensures b.id in WindowOrder(s, a.id, a.style, a.rect).0.windows
    ensures WindowOrder(s, a.id, a.style, a.rect).0.windows[b.id].kind == Filtered <==> Hidden(b, all + {a})
  {
    FiledFirst(s.windows, all, a);
    OrderTable(s, a.id, a.style, a.rect);
    if b == a {
      LatestRight(s.windows, all, a);
    } else {
      EarlierRight(s.windows, all, a, b);
    }
  }

  /** The window just filed is not exposed itself, being filtered if covered. */
  lemma LatestRight(ws: Windows, all: set<Announce>, a: Announce)
    requires Records(ws, all) && a.id !in ws
    requires var filed := Filed(ws, a.id, a.style, a.rect);
             Records(filed, all + {a}) && (filed[a.id].kind == Filtered <==> Hidden(a, all + {a}))
    ensures var filed := Filed(ws, a.id, a.style, a.rect); Exposed(filed, filed[a.id].owner) != Some(a.id)
  {
    CoveringIsFraming(Filed(ws, a.id, a.style, a.rect), all + {a}, a);
  }

  /** An earlier window after a later one was filed: it is or becomes filtered iff hidden. */
  lemma EarlierRight(ws: Windows, all: set<Announce>, a: Announce, b: Announce)
    requires Final(ws, all) && a.id !in ws && b in all
    requires var filed := Filed(ws, a.id, a.style, a.rect); b.id in filed && filed[b.id] == ws[b.id] && Records(filed, all + {a})
    ensures var filed := Filed(ws, a.id, a.style, a.rect);
            (filed[b.id].kind == Filtered || Exposed(filed, filed[a.id].owner) == Some(b.id)) <==> Hidden(b, all + {a})
  {
    var filed := Filed(ws, a.id, a.style, a.rect);
    CoveringIsFraming(filed, all + {a}, b);
    FramedGrows(b, all, a);
    assert filed[a.id].owner == a.Owner();
  }

  lemma RecordsGrow(ws: Windows, ws': Windows, all: set<Announce>, a: Announce)
    requires Records(ws, all) && a.id !in ws
    requires ws'.Keys == ws.Keys + {a.id}
    requires forall id :: id in ws ==> ws'[id] == ws[id]
    requires ws'[a.id].owner == a.Owner() && ws'[a.id].rect == a.rect
    ensures Records(ws', all + {a})
  {
    forall id | id in ws' ensures exists b :: b in all + {a} && b.id == id {
      if id == a.id {
        assert a in all + {a};
      } else {
        var b :| b in all && b.id == id;
        assert b in all + {a};
      }
    }
  }

  lemma RecordsRekind(ws: Windows, ws': Windows, all: set<Announce>)
    requires Records(ws, all) && ws'.Keys == ws.Keys
    requires forall id :: id in ws ==> ws'[id].owner == ws[id].owner && ws'[id].rect == ws[id].rect
    ensures Records(ws', all)
  {
    forall id | id in ws' ensures exists a :: a in all && a.id == id {
      assert id in ws;
    }
  }

  lemma LastIsNew(anns: seq<Announce>)
    requires |anns| > 0 && EachOnce(anns)
    ensures var init, last := anns[..|anns| - 1], anns[|anns| - 1];
            ToSet(anns) == ToSet(init) + {last} && forall a :: a in ToSet(init) ==> a.id != last.id
  {
    assert anns == anns[..|anns| - 1] + [anns[|anns| - 1]];
  }

  /** After announcing each window once, a window is filtered iff its style marks it as a
      decoration or some other announced window names it as owner and covers it. */
  lemma {:induction false} FinalTable(anns: seq<Announce>)
    requires EachOnce(anns)
    ensures Final(AnnounceAll(anns).windows, ToSet(anns))
  {
    if |anns| > 0 {
      var init, last := anns[..|anns| - 1], anns[|anns| - 1];
      FinalTable(init);
      LastIsNew(anns);
      NotYetAnnounced(AnnounceAll(init).windows, ToSet(init), last.id);
      AnnounceExtends(AnnounceAll(init), ToSet(init), last);
    }
  }

  /** Arrival order is irrelevant: two arrival orders of the same announcements leave the
      same window table. */
  lemma ArrivalOrderIrrelevant(anns: seq<Announce>, anns': seq<Announce>)
    requires EachOnce(anns) && EachOnce(anns')
    requires ToSet(anns) == ToSet(anns')
    ensures AnnounceAll(anns).windows == AnnounceAll(anns').windows
  {
    FinalTable(anns);
    FinalTable(anns');
    FinalUnique(AnnounceAll(anns).windows, AnnounceAll(anns').windows, ToSet(anns));
  }
}
