/** The callback stream from the C bridge to the Rust side, and what it means for such a
    stream to be well formed. */
module RailCalls {
  import opened Prelude
  import opened RailFrame

  datatype Call =
    | WindowCreate(id: U32, x: I32, y: I32, w: U32, h: U32, title: seq<Byte>)
    | WindowUpdate(id: U32, x: I32, y: I32, w: U32, h: U32)
    | WindowTitle(id: U32, title: seq<Byte>)
    | WindowDelete(id: U32)
    | WindowSurface(id: U32, frame: Frame)

  /** The windows created and not deleted since. */
  function Open(calls: seq<Call>): set<U32> {
    if |calls| == 0 then {} else OpenStep(Open(calls[..|calls| - 1]), calls[|calls| - 1])
  }

  function OpenStep(open: set<U32>, call: Call): set<U32> {
    match call
    case WindowCreate(id, _, _, _, _, _) => open + {id}
    case WindowDelete(id) => open - {id}
    case _ => open
  }

  /** A create names a window that is not open; every other callback names one that is. */
  predicate Proper(open: set<U32>, call: Call) {
    if call.WindowCreate? then call.id !in open else call.id in open
  }

  predicate WellFormed(calls: seq<Call>) {
    |calls| == 0 || (WellFormed(calls[..|calls| - 1]) && Proper(Open(calls[..|calls| - 1]), calls[|calls| - 1]))
  }

  lemma Append(calls: seq<Call>, call: Call)
    ensures Open(calls + [call]) == OpenStep(Open(calls), call)
    ensures WellFormed(calls + [call]) <==> WellFormed(calls) && Proper(Open(calls), call)
  {
    assert (calls + [call])[..|calls|] == calls;
  }

  /** The window was created or updated with a non-zero size since its last create. */
  predicate Sized(calls: seq<Call>, id: U32) {
    if |calls| == 0 then false
    else
      var init, last := calls[..|calls| - 1], calls[|calls| - 1];
      match last
      case WindowCreate(i, _, _, w, h, _) => if i == id then w > 0 && h > 0 else Sized(init, id)
      case WindowUpdate(i, _, _, w, h) => Sized(init, id) || (i == id && w > 0 && h > 0)
      case _ => Sized(init, id)
  }

  lemma SizedAppend(calls: seq<Call>, call: Call, id: U32)
    ensures Sized(calls + [call], id) ==
            match call
            case WindowCreate(i, _, _, w, h, _) => if i == id then w > 0 && h > 0 else Sized(calls, id)
            case WindowUpdate(i, _, _, w, h) => Sized(calls, id) || (i == id && w > 0 && h > 0)
            case _ => Sized(calls, id)
  {
    assert (calls + [call])[..|calls|] == calls;
  }
}
