/** What each device hears for each request on the primary selection: an offer introduced,
    described with every type of its source and then set, in this order, or an empty
    selection. */
module PrimarySelectionDelivery {
  import opened Prelude
  import opened PrimarySelection

  predicate IsFor(m: Msg, d: Device) {
    match m
    case DataOffer(e, _) => e == d
    case OfferMime(o, _) => o.device == d
    case Selection(e, _) => e == d
    case Cancelled(_) => false
  }

  /** The messages to one device and to its offers, in order. */
  function Heard(msgs: seq<Msg>, d: Device): seq<Msg> {
    if |msgs| == 0 then []
    else Heard(msgs[..|msgs| - 1], d) + if IsFor(msgs[|msgs| - 1], d) then [msgs[|msgs| - 1]] else []
  }

  /** The types the client has added to the source since it was made or last destroyed. */
  function TypesOf(events: seq<Event>, source: Source): seq<Mime> {
    if |events| == 0 then []
    else
      var before := TypesOf(events[..|events| - 1], source);
      match events[|events| - 1]
      case SourceMade(x) => if x == source then [] else before
      case SourceDestroyed(x) => if x == source then [] else before
      case MimeAdded(x, mime) => if x == source then before + [mime] else before
      case _ => before
  }

  lemma {:induction false} AdvertiseAllMimes(s: State, ds: seq<Device>)
    ensures AdvertiseAll(s, ds).mimes == s.mimes
    decreases |ds|
  {
    if |ds| > 0 { AdvertiseAllMimes(Advertise(s, ds[0]), ds[1..]); }
  }

  lemma StepTypes(s: State, e: Event, source: Source)
    ensures MimesOf(Step(s, e), source) ==
            match e
            case SourceMade(x) => if x == source then [] else MimesOf(s, source)
            case SourceDestroyed(x) => if x == source then [] else MimesOf(s, source)
            case MimeAdded(x, mime) => if x == source then MimesOf(s, source) + [mime] else MimesOf(s, source)
            case _ => MimesOf(s, source)
  {
    if e.Selected? {
      var devices := Alive(s.devices, s.liveDevices);
      AdvertiseAllMimes(s.(active := e.choice, devices := devices, sent := s.sent + Displaced(s, e.choice)), devices);
    }
  }

  lemma {:induction false} TypesOfRun(events: seq<Event>, source: Source)
    ensures MimesOf(Run(events), source) == TypesOf(events, source)
  {
    if |events| > 0 {
      TypesOfRun(events[..|events| - 1], source);
      StepTypes(Run(events[..|events| - 1]), events[|events| - 1], source);
    }
  }

  /** The source last selected, unless it was destroyed since. */
  function ChoiceOf(events: seq<Event>): Option<Source> {
    if |events| == 0 then None
    else
      var before := ChoiceOf(events[..|events| - 1]);
      match events[|events| - 1]
      case Selected(choice) => choice
      case SourceDestroyed(x) => if before == Some(x) then None else before
      case _ => before
  }

  lemma {:induction false} ActiveOfRun(events: seq<Event>)
    ensures Run(events).active == ChoiceOf(events)
  {
    if |events| > 0 {
      var s, e := Run(events[..|events| - 1]), events[|events| - 1];
      ActiveOfRun(events[..|events| - 1]);
      match e {
        case Selected(choice) => CancelsSelection(s, choice, 0);
        case DeviceMade(d) => CancelsDevice(s, d, 0); CancelsAdvertise(s.(liveDevices := s.liveDevices + {d}, madeDevices := s.madeDevices + {d}), d, 0);
        case _ =>
      }
    }
  }

  // ---- what a request lets a device hear ---------------------------------

  /** An offer introduced to its device, described type by type, and set. */
  predicate Introduces(heard: seq<Msg>, o: Offer, types: seq<Mime>) {
    && |heard| == |types| + 2
    && heard[0] == DataOffer(o.device, o)
    && (forall k :: 0 <= k < |types| ==> heard[k + 1] == OfferMime(o, types[k]))
    && heard[|types| + 1] == Selection(o.device, Some(o))
  }

  /** The device hears of the selection `owner`: by a new offer of its own, or as empty. */
  ghost predicate HearsOf(heard: seq<Msg>, d: Device, owner: Option<Source>, types: seq<Mime>, low: nat, high: nat) {
    match owner
    case None => heard == [Selection(d, None)]
    case Some(source) => exists id :: low <= id < high && Introduces(heard, Offer(id, d, source), types)
  }

  /** Every live device hears of a new selection, a new device of the selection there is, and
      every live device of the owner's end; nobody hears anything else. */
  ghost predicate Hears(s: State, e: Event, d: Device, types: seq<Mime>, heard: seq<Msg>, high: nat) {
    match e
    case Selected(choice) =>
      if d in s.devices && d in s.liveDevices then
        HearsOf(heard, d, if choice.Some? && choice.value in s.liveSources then choice else None, types, s.nextOffer, high)
      else heard == []
    case DeviceMade(x) =>
      if x == d && s.active.Some? then
        HearsOf(heard, d, if s.active.value in s.liveSources then s.active else None, types, s.nextOffer, high)
      else heard == []
    case SourceDestroyed(source) =>
      heard == if s.active == Some(source) && d in s.devices && d in s.liveDevices then [Selection(d, None)] else []
    case _ => heard == []
  }

  // ---- batches -----------------------------------------------------------

  lemma {:induction false} HeardConcat(a: seq<Msg>, b: seq<Msg>, d: Device)
    ensures Heard(a + b, d) == Heard(a, d) + Heard(b, d)
  {
    if |b| == 0 {
      assert a + b == a;
    } else {
      HeardConcat(a, b[..|b| - 1], d);
      assert (a + b)[..|a + b| - 1] == a + b[..|b| - 1];
    }
  }

  lemma {:induction false} DescribeAt(o: Offer, mimes: seq<Mime>)
    ensures |Describe(o, mimes)| == |mimes|
    ensures forall k :: 0 <= k < |mimes| ==> Describe(o, mimes)[k] == OfferMime(o, mimes[k])
  {
    if |mimes| > 0 { DescribeAt(o, mimes[..|mimes| - 1]); }
  }

  /** A batch for one device is heard whole by it and not at all by another. */
  lemma {:induction false} HeardAllOrNone(msgs: seq<Msg>, to: Device, d: Device)
    requires forall m :: m in msgs ==> IsFor(m, to) && (d != to ==> !IsFor(m, d))
    ensures Heard(msgs, d) == if d == to then msgs else []
  {
    if |msgs| > 0 {
      var n := |msgs| - 1;
      HeardAllOrNone(msgs[..n], to, d);
      assert msgs == msgs[..n] + [msgs[n]] && msgs[n] in msgs;
    }
  }

  function Introduction(o: Offer, mimes: seq<Mime>): seq<Msg> {
    [DataOffer(o.device, o)] + Describe(o, mimes) + [Selection(o.device, Some(o))]
  }

  lemma IntroductionRight(o: Offer, mimes: seq<Mime>, d: Device)
    ensures Introduces(Introduction(o, mimes), o, mimes)
    ensures Heard(Introduction(o, mimes), d) == if d == o.device then Introduction(o, mimes) else []
  {
    DescribeAt(o, mimes);
    HeardAllOrNone(Introduction(o, mimes), o.device, d);
  }

  /** What an advertisement says. */
  function Telling(s: State, d: Device): seq<Msg> {
    if d !in s.liveDevices then []
    else match Owner(s)
      case None => [Selection(d, None)]
      case Some(source) => Introduction(Offer(s.nextOffer, d, source), MimesOf(s, source))
  }

  lemma AdvertiseTelling(s: State, d: Device)
    ensures Advertise(s, d).sent == s.sent + Telling(s, d)
    ensures s.nextOffer <= Advertise(s, d).nextOffer
  {
    assert s.sent + [] == s.sent;
    if d in s.liveDevices && Owner(s).Some? {
      var o, mimes := Offer(s.nextOffer, d, Owner(s).value), MimesOf(s, Owner(s).value);
      ConcatAssoc(s.sent, [DataOffer(d, o)], Describe(o, mimes));
      ConcatAssoc(s.sent, [DataOffer(d, o)] + Describe(o, mimes), [Selection(d, Some(o))]);
    }
  }

  lemma TellingHeard(s: State, to: Device, d: Device, high: nat)
    requires high >= Advertise(s, to).nextOffer
    ensures if d == to && d in s.liveDevices then
              HearsOf(Heard(Telling(s, to), d), d, Owner(s), if Owner(s).Some? then MimesOf(s, Owner(s).value) else [], s.nextOffer, high)
            else Heard(Telling(s, to), d) == []
  {
    if to in s.liveDevices {
      if Owner(s).None? {
        HeardAllOrNone([Selection(to, None)], to, d);
      } else {
        var o := Offer(s.nextOffer, to, Owner(s).value);
        IntroductionRight(o, MimesOf(s, Owner(s).value), d);
      }
    }
  }

  lemma LaterOffers(heard: seq<Msg>, d: Device, owner: Option<Source>, types: seq<Mime>, low: nat, low': nat, high: nat)
    requires HearsOf(heard, d, owner, types, low', high) && low <= low'
    ensures HearsOf(heard, d, owner, types, low, high)
  {
  }

  /** All devices in turn: each of them hears its own telling. */
  lemma {:induction false} AllHeard(s: State, ds: seq<Device>, d: Device) returns (more: seq<Msg>)
    requires Distinct(ds) && d in s.liveDevices
    ensures AdvertiseAll(s, ds).sent == s.sent + more && s.nextOffer <= AdvertiseAll(s, ds).nextOffer
    ensures if d in ds then
              HearsOf(Heard(more, d), d, Owner(s), if Owner(s).Some? then MimesOf(s, Owner(s).value) else [],
                      s.nextOffer, AdvertiseAll(s, ds).nextOffer)
            else Heard(more, d) == []
    decreases |ds|
  {
    if |ds| == 0 {
      more := [];
    } else {
      var s' := Advertise(s, ds[0]);
      AdvertiseTelling(s, ds[0]);
      var rest := AllHeard(s', ds[1..], d);
      more := Telling(s, ds[0]) + rest;
      ConcatAssoc(s.sent, Telling(s, ds[0]), rest);
      HeardConcat(Telling(s, ds[0]), rest, d);
      TellingHeard(s, ds[0], d, AdvertiseAll(s, ds).nextOffer);
      if d == ds[0] {
        assert d !in ds[1..];
        assert Heard(Telling(s, ds[0]), d) + [] == Heard(Telling(s, ds[0]), d);
      } else if d in ds[1..] {
        LaterOffers(Heard(rest, d), d, Owner(s), if Owner(s).Some? then MimesOf(s, Owner(s).value) else [],
                    s.nextOffer, s'.nextOffer, AdvertiseAll(s, ds).nextOffer);
        assert [] + Heard(rest, d) == Heard(rest, d);
      }
    }
  }

  /** A device that is dead hears nothing. */
  lemma {:induction false} NoneHeard(s: State, ds: seq<Device>, d: Device) returns (more: seq<Msg>)
    requires d !in ds || d !in s.liveDevices
    ensures AdvertiseAll(s, ds).sent == s.sent + more && Heard(more, d) == []
    decreases |ds|
  {
    if |ds| == 0 {
      more := [];
    } else {
      AdvertiseTelling(s, ds[0]);
      TellingHeard(s, ds[0], d, Advertise(s, ds[0]).nextOffer);
      var rest := NoneHeard(Advertise(s, ds[0]), ds[1..], d);
      more := Telling(s, ds[0]) + rest;
      ConcatAssoc(s.sent, Telling(s, ds[0]), rest);
      HeardConcat(Telling(s, ds[0]), rest, d);
    }
  }

  lemma {:induction false} AliveDistinct(ds: seq<Device>, live: set<Device>)
    requires Distinct(ds)
    ensures Distinct(Alive(ds, live))
  {
    if |ds| > 0 {
      AliveDistinct(ds[1..], live);
      assert ds[0] !in ds[1..];
    }
  }

  lemma {:induction false} ClearedHeard(ds: seq<Device>, d: Device)
    requires Distinct(ds)
    ensures Heard(Cleared(ds), d) == if d in ds then [Selection(d, None)] else []
  {
    if |ds| > 0 {
      var n := |ds| - 1;
      ClearedHeard(ds[..n], d);
      assert ds[n] !in ds[..n];
      assert d in ds <==> d in ds[..n] || d == ds[n];
    }
  }

  // ---- requests ----------------------------------------------------------

  lemma SelectionHeard(s: State, choice: Option<Source>, d: Device) returns (more: seq<Msg>)
    requires Distinct(s.devices)
    ensures var s' := SetSelection(s, choice);
            && s'.sent == s.sent + more
            && Hears(s, Selected(choice), d, if choice.Some? then MimesOf(s, choice.value) else [], Heard(more, d), s'.nextOffer)
  {
    var devices, first := Alive(s.devices, s.liveDevices), Displaced(s, choice);
    var mid := s.(active := choice, devices := devices, sent := s.sent + first);
    AliveDistinct(s.devices, s.liveDevices);
    var rest;
    if d in s.liveDevices { rest := AllHeard(mid, devices, d); } else { rest := NoneHeard(mid, devices, d); }
    more := first + rest;
    ConcatAssoc(s.sent, first, rest);
    HeardConcat(first, rest, d);
    assert Heard(first, d) == [] by { if first != [] { assert first[..0] == []; } }
    assert [] + Heard(rest, d) == Heard(rest, d);
  }

  lemma DeviceHeard(s: State, x: Device, d: Device) returns (more: seq<Msg>)
    ensures var s' := AddDevice(s, x);
            && s'.sent == s.sent + more
            && Hears(s, DeviceMade(x), d, if s.active.Some? then MimesOf(s, s.active.value) else [], Heard(more, d), s'.nextOffer)
  {
    more := [];
    if s.active.Some? {
      var s1 := s.(liveDevices := s.liveDevices + {x}, madeDevices := s.madeDevices + {x});
      AdvertiseTelling(s1, x);
      TellingHeard(s1, x, d, Advertise(s1, x).nextOffer);
      more := Telling(s1, x);
    }
  }

  lemma ForgetHeard(s: State, source: Source, d: Device) returns (more: seq<Msg>)
    requires Distinct(s.devices)
    ensures var s' := ForgetSource(s, source);
            s'.sent == s.sent + more && Hears(s, SourceDestroyed(source), d, [], Heard(more, d), s'.nextOffer)
  {
    more := [];
    if s.active == Some(source) {
      AliveDistinct(s.devices, s.liveDevices);
      more := Cleared(Alive(s.devices, s.liveDevices));
      ClearedHeard(Alive(s.devices, s.liveDevices), d);
    }
  }

  /** The source an event's messages are about. */
  function About(s: State, e: Event): Option<Source> {
    if e.Selected? then e.choice else if e.DeviceMade? then s.active else None
  }

  lemma StepHeard(s: State, e: Event, d: Device) returns (more: seq<Msg>)
    requires Distinct(s.devices)
    ensures && Step(s, e).sent == s.sent + more
            && Hears(s, e, d, if About(s, e).Some? then MimesOf(s, About(s, e).value) else [], Heard(more, d), Step(s, e).nextOffer)
  {
    match e {
      case Selected(choice) => more := SelectionHeard(s, choice, d);
      case DeviceMade(x) => more := DeviceHeard(s, x, d);
      case SourceDestroyed(source) => more := ForgetHeard(s, source, d);
      case _ => more := [];
    }
  }

  lemma {:induction false} AdvertiseAllDevices(s: State, ds: seq<Device>)
    ensures AdvertiseAll(s, ds).devices == s.devices
    decreases |ds|
  {
    if |ds| > 0 { AdvertiseAllDevices(Advertise(s, ds[0]), ds[1..]); }
  }

  lemma StepDevices(s: State, e: Event)
    requires Distinct(s.devices) && Base(s) && Legal(s, e)
    ensures Distinct(Step(s, e).devices)
  {
    match e {
      case Selected(choice) =>
        var devices := Alive(s.devices, s.liveDevices);
        AliveDistinct(s.devices, s.liveDevices);
        AdvertiseAllDevices(s.(active := choice, devices := devices, sent := s.sent + Displaced(s, choice)), devices);
      case SourceDestroyed(source) => AliveDistinct(s.devices, s.liveDevices);
      case DeviceMade(d) => assert d !in s.devices && Step(s, e).devices == s.devices + [d];
      case _ =>
    }
  }

  lemma {:induction false} DevicesOfRun(events: seq<Event>)
    requires LegalRun(events)
    ensures Distinct(Run(events).devices)
  {
    if |events| > 0 {
      var init := events[..|events| - 1];
      DevicesOfRun(init);
      RunKeeps(init);
      StepDevices(Run(init), events[|events| - 1]);
    }
  }

  /** On every run: what a device hears of a request, the types being those the client added. */
  lemma HeardOfRun(events: seq<Event>, e: Event, d: Device) returns (more: seq<Msg>)
    requires LegalRun(events)
    ensures var s, s' := Run(events), Run(events + [e]);
            && s'.sent == s.sent + more
            && Hears(s, e, d, if About(s, e).Some? then TypesOf(events, About(s, e).value) else [], Heard(more, d), s'.nextOffer)
  {
    var s := Run(events);
    DevicesOfRun(events);
    more := StepHeard(s, e, d);
    if About(s, e).Some? { TypesOfRun(events, About(s, e).value); }
    assert (events + [e])[..|events|] == events;
  }
}
