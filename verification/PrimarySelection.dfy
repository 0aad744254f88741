/** The primary selection, offered among clients: what each device was last told agrees
    with the current owner, and every owner displaced by a request is cancelled once. */
module PrimarySelection {
  import opened Prelude

  type Source = nat
  type Device = nat
  type Mime = nat

  /** An offer object of one device, standing for a source. */
  datatype Offer = Offer(id: nat, device: Device, source: Source)

  datatype Msg =
    | DataOffer(device: Device, offer: Offer)
    | OfferMime(offer: Offer, mime: Mime)
    | Selection(device: Device, selected: Option<Offer>)
    | Cancelled(source: Source)

  /** `liveSources` and `liveDevices` are the objects their clients have not destroyed;
      `madeSources` and `madeDevices` all those ever made. */
  datatype State = State(
    devices: seq<Device>,
    mimes: map<Source, seq<Mime>>,
    active: Option<Source>,
    nextOffer: nat,
    liveSources: set<Source>,
    liveDevices: set<Device>,
    madeSources: set<Source>,
    madeDevices: set<Device>,
    sent: seq<Msg>)

  function Start(): State { State([], map[], None, 0, {}, {}, {}, {}, []) }

  function Alive(ds: seq<Device>, live: set<Device>): (r: seq<Device>)
    ensures forall d :: d in r <==> d in ds && d in live
  {
    if |ds| == 0 then [] else (if ds[0] in live then [ds[0]] else []) + Alive(ds[1..], live)
  }

  function MimesOf(s: State, source: Source): seq<Mime> {
    if source in s.mimes then s.mimes[source] else []
  }

  function Owner(s: State): Option<Source> {
    if s.active.Some? && s.active.value in s.liveSources then s.active else None
  }

  function Describe(o: Offer, mimes: seq<Mime>): seq<Msg> {
    if |mimes| == 0 then [] else Describe(o, mimes[..|mimes| - 1]) + [OfferMime(o, mimes[|mimes| - 1])]
  }

  /** Introduces an offer, describes it and sets it; or reports an empty selection. */
  function Advertise(s: State, d: Device): State {
    if d !in s.liveDevices then s
    else match Owner(s)
      case None => s.(sent := s.sent + [Selection(d, None)])
      case Some(source) =>
        var o := Offer(s.nextOffer, d, source);
        s.(nextOffer := s.nextOffer + 1,
           sent := s.sent + [DataOffer(d, o)] + Describe(o, MimesOf(s, source)) + [Selection(d, Some(o))])
  }

  function AdvertiseAll(s: State, ds: seq<Device>): State
    decreases |ds|
  {
    if |ds| == 0 then s else AdvertiseAll(Advertise(s, ds[0]), ds[1..])
  }

  function AddDevice(s: State, d: Device): State {
    var s' := s.(liveDevices := s.liveDevices + {d}, madeDevices := s.madeDevices + {d});
    var told := if s'.active.Some? then Advertise(s', d) else s';
    told.(devices := told.devices + [d])
  }

  /** The previous owner is told, if it is still there and being replaced. */
  function Displaced(s: State, source: Option<Source>): seq<Msg> {
    if s.active.Some? && s.active.value in s.liveSources && s.active != source then [Cancelled(s.active.value)] else []
  }

  function SetSelection(s: State, source: Option<Source>): State {
    var devices := Alive(s.devices, s.liveDevices);
    AdvertiseAll(s.(active := source, devices := devices, sent := s.sent + Displaced(s, source)), devices)
  }

  function Cleared(ds: seq<Device>): seq<Msg> {
    if |ds| == 0 then [] else Cleared(ds[..|ds| - 1]) + [Selection(ds[|ds| - 1], None)]
  }

  function ForgetSource(s: State, source: Source): State {
    if s.active != Some(source) then s.(mimes := s.mimes - {source})
    else
      var devices := Alive(s.devices, s.liveDevices);
      s.(mimes := s.mimes - {source}, active := None, devices := devices, sent := s.sent + Cleared(devices))
  }

  function CreateSource(s: State, source: Source): State {
    s.(mimes := s.mimes[source := []], liveSources := s.liveSources + {source}, madeSources := s.madeSources + {source})
  }

  function AddMime(s: State, source: Source, mime: Mime): State {
    s.(mimes := s.mimes[source := MimesOf(s, source) + [mime]])
  }

  // ---- runs --------------------------------------------------------------

  /** A source's destruction is reported by its request and again by the hook, in any
      distance from the object's actual death. */
  datatype Event =
    | SourceMade(source: Source)
    | MimeAdded(source: Source, mime: Mime)
    | DeviceMade(device: Device)
    | Selected(choice: Option<Source>)
    | SourceDestroyed(source: Source)
    | SourceDies(source: Source)
    | DeviceDies(device: Device)

  function Step(s: State, e: Event): State {
    match e
    case SourceMade(source) => CreateSource(s, source)
    case MimeAdded(source, mime) => AddMime(s, source, mime)
    case DeviceMade(d) => AddDevice(s, d)
    case Selected(choice) => SetSelection(s, choice)
    case SourceDestroyed(source) => ForgetSource(s, source)
    case SourceDies(source) => s.(liveSources := s.liveSources - {source})
    case DeviceDies(d) => s.(liveDevices := s.liveDevices - {d})
  }

  /** New objects have new ids, and a selection names an object that was made. */
  predicate Legal(s: State, e: Event) {
    match e
    case SourceMade(source) => source !in s.madeSources
    case DeviceMade(d) => d !in s.madeDevices
    case Selected(choice) => choice.Some? ==> choice.value in s.madeSources
    case _ => true
  }

  function Run(events: seq<Event>): State {
    if |events| == 0 then Start() else Step(Run(events[..|events| - 1]), events[|events| - 1])
  }

  predicate LegalRun(events: seq<Event>) {
    |events| == 0 || (LegalRun(events[..|events| - 1]) && Legal(Run(events[..|events| - 1]), events[|events| - 1]))
  }

  // ---- what devices have been told ---------------------------------------

  /** The offer a device was last told is selected, if the selection was not empty. */
  function Seen(sent: seq<Msg>, d: Device): Option<Offer> {
    if |sent| == 0 then None
    else
      var m := sent[|sent| - 1];
      if m.Selection? && m.device == d then m.selected else Seen(sent[..|sent| - 1], d)
  }

  /** The types an offer was described with. */
  function Described(sent: seq<Msg>, o: Offer): seq<Mime> {
    if |sent| == 0 then []
    else
      var m := sent[|sent| - 1];
      Described(sent[..|sent| - 1], o) + if m.OfferMime? && m.offer == o then [m.mime] else []
  }

  lemma SeenAppend(sent: seq<Msg>, m: Msg, d: Device)
    ensures Seen(sent + [m], d) == if m.Selection? && m.device == d then m.selected else Seen(sent, d)
  {
    assert (sent + [m])[..|sent|] == sent;
  }

  lemma DescribedAppend(sent: seq<Msg>, m: Msg, o: Offer)
    ensures Described(sent + [m], o) == Described(sent, o) + if m.OfferMime? && m.offer == o then [m.mime] else []
  {
    assert (sent + [m])[..|sent|] == sent;
  }

  lemma {:induction false} AfterDescribe(sent: seq<Msg>, o: Offer, mimes: seq<Mime>, d: Device, p: Offer)
    ensures Seen(sent + Describe(o, mimes), d) == Seen(sent, d)
    ensures Described(sent + Describe(o, mimes), p) == Described(sent, p) + if p == o then mimes else []
  {
    if |mimes| == 0 {
      assert sent + Describe(o, mimes) == sent;
    } else {
      var n := |mimes| - 1;
      var m := OfferMime(o, mimes[n]);
      AfterDescribe(sent, o, mimes[..n], d, p);
      assert sent + Describe(o, mimes) == (sent + Describe(o, mimes[..n])) + [m];
      SeenAppend(sent + Describe(o, mimes[..n]), m, d);
      DescribedAppend(sent + Describe(o, mimes[..n]), m, p);
      assert mimes == mimes[..n] + [mimes[n]];
    }
  }

  lemma {:induction false} AfterCleared(sent: seq<Msg>, ds: seq<Device>, d: Device)
    ensures Seen(sent + Cleared(ds), d) == if d in ds then None else Seen(sent, d)
  {
    if |ds| == 0 {
      assert sent + Cleared(ds) == sent;
    } else {
      var n := |ds| - 1;
      AfterCleared(sent, ds[..n], d);
      assert sent + Cleared(ds) == (sent + Cleared(ds[..n])) + [Selection(ds[n], None)];
      SeenAppend(sent + Cleared(ds[..n]), Selection(ds[n], None), d);
      assert ds == ds[..n] + [ds[n]];
    }
  }

  lemma {:induction false} DescribedCleared(sent: seq<Msg>, ds: seq<Device>, o: Offer)
    ensures Described(sent + Cleared(ds), o) == Described(sent, o)
  {
    if |ds| == 0 {
      assert sent + Cleared(ds) == sent;
    } else {
      var n := |ds| - 1;
      DescribedCleared(sent, ds[..n], o);
      assert sent + Cleared(ds) == (sent + Cleared(ds[..n])) + [Selection(ds[n], None)];
      DescribedAppend(sent + Cleared(ds[..n]), Selection(ds[n], None), o);
    }
  }

  /** What one advertisement tells. */
  lemma AfterAdvertise(s: State, e: Device, d: Device, p: Offer)
    ensures Seen(Advertise(s, e).sent, d) ==
            if d != e || e !in s.liveDevices then Seen(s.sent, d)
            else if Owner(s).Some? then Some(Offer(s.nextOffer, d, Owner(s).value)) else None
    ensures Described(Advertise(s, e).sent, p) ==
            Described(s.sent, p) +
            if e in s.liveDevices && Owner(s).Some? && p == Offer(s.nextOffer, e, Owner(s).value) then MimesOf(s, Owner(s).value) else []
  {
    if e in s.liveDevices {
      if Owner(s).None? {
        SeenAppend(s.sent, Selection(e, None), d);
        DescribedAppend(s.sent, Selection(e, None), p);
      } else {
        var o := Offer(s.nextOffer, e, Owner(s).value);
        var mimes := MimesOf(s, Owner(s).value);
        var first := s.sent + [DataOffer(e, o)];
        SeenAppend(s.sent, DataOffer(e, o), d);
        DescribedAppend(s.sent, DataOffer(e, o), p);
        AfterDescribe(first, o, mimes, d, p);
        SeenAppend(first + Describe(o, mimes), Selection(e, Some(o)), d);
        DescribedAppend(first + Describe(o, mimes), Selection(e, Some(o)), p);
      }
    }
  }

  // ---- the invariant -----------------------------------------------------

  /** The device has been told of the current owner: the offer it holds is backed by it and
      was described with types the source has. Between a source's death and the report of
      it the device may still hold the dead source's offer. */
  predicate Told(s: State, d: Device) {
    var seen := Seen(s.sent, d);
    match s.active
    case None => seen == None
    case Some(source) =>
      if source in s.liveSources then
        && seen.Some? && seen.value.source == source
        && seen.value.device == d && seen.value.id < s.nextOffer
        && Described(s.sent, seen.value) <= MimesOf(s, source)
      else
        seen.None? || seen.value.source == source
  }

  ghost predicate Base(s: State) {
    && (forall o: Offer :: o.id >= s.nextOffer ==>
          Described(s.sent, o) == [])
    && (forall d :: d !in s.madeDevices ==>
          Seen(s.sent, d) == None && d !in s.devices && d !in s.liveDevices)
    && s.liveSources <= s.madeSources
    && (s.active.Some? ==> s.active.value in s.madeSources)
  }

  ghost predicate Inv(s: State) {
    && Base(s)
    && forall d :: d in s.devices && d in s.liveDevices ==>
         Told(s, d)
  }

  predicate Same(s: State, s': State) {
    && s'.devices == s.devices && s'.mimes == s.mimes && s'.active == s.active
    && s'.liveSources == s.liveSources && s'.liveDevices == s.liveDevices
    && s'.madeSources == s.madeSources && s'.madeDevices == s.madeDevices
  }

  lemma AdvertiseBase(s: State, e: Device)
    requires Base(s)
    ensures Base(Advertise(s, e)) && Same(s, Advertise(s, e))
  {
    var s' := Advertise(s, e);
    forall o: Offer | o.id >= s'.nextOffer ensures Described(s'.sent, o) == [] { AfterAdvertise(s, e, 0, o); }
    forall d | d !in s'.madeDevices ensures Seen(s'.sent, d) == None {
      AfterAdvertise(s, e, d, Offer(0, 0, 0));
    }
  }

  lemma AdvertiseTells(s: State, e: Device, d: Device)
    requires Base(s) && d in s.liveDevices && (d == e || Told(s, d))
    ensures Told(Advertise(s, e), d)
  {
    AfterAdvertise(s, e, d, Offer(s.nextOffer, d, if Owner(s).Some? then Owner(s).value else 0));
    if d != e && Seen(s.sent, d).Some? { AfterAdvertise(s, e, d, Seen(s.sent, d).value); }
  }

  lemma {:induction false} AllTold(s: State, ds: seq<Device>)
    requires Base(s)
    ensures Base(AdvertiseAll(s, ds)) && Same(s, AdvertiseAll(s, ds))
    ensures forall d :: d in s.liveDevices && (d in ds || Told(s, d)) ==> Told(AdvertiseAll(s, ds), d)
    decreases |ds|
  {
    if |ds| > 0 {
      var s' := Advertise(s, ds[0]);
      AdvertiseBase(s, ds[0]);
      AllTold(s', ds[1..]);
      forall d | d in s.liveDevices && (d in ds || Told(s, d)) ensures Told(AdvertiseAll(s, ds), d) {
        if d == ds[0] || Told(s, d) { AdvertiseTells(s, ds[0], d); } else { assert d in ds[1..]; }
      }
    }
  }

  lemma SelectionKeeps(s: State, source: Option<Source>)
    requires Inv(s) && (source.Some? ==> source.value in s.madeSources)
    ensures Inv(SetSelection(s, source))
  {
    var devices := Alive(s.devices, s.liveDevices);
    var mid := s.(active := source, devices := devices, sent := s.sent + Displaced(s, source));
    DisplacedSilent(s, source);
    assert Base(mid);
    AllTold(mid, devices);
  }

  lemma DisplacedSilent(s: State, source: Option<Source>)
    ensures forall d :: Seen(s.sent + Displaced(s, source), d) == Seen(s.sent, d)
    ensures forall o :: Described(s.sent + Displaced(s, source), o) == Described(s.sent, o)
  {
    if Displaced(s, source) == [] {
      assert s.sent + [] == s.sent;
    } else {
      forall d ensures Seen(s.sent + Displaced(s, source), d) == Seen(s.sent, d) {
        SeenAppend(s.sent, Displaced(s, source)[0], d);
      }
      forall o ensures Described(s.sent + Displaced(s, source), o) == Described(s.sent, o) {
        DescribedAppend(s.sent, Displaced(s, source)[0], o);
      }
    }
  }

  lemma ForgetKeeps(s: State, source: Source)
    requires Inv(s)
    ensures Inv(ForgetSource(s, source))
  {
    var s' := ForgetSource(s, source);
    if s.active == Some(source) {
      var ds := Alive(s.devices, s.liveDevices);
      forall o: Offer | o.id >= s'.nextOffer ensures Described(s'.sent, o) == [] { DescribedCleared(s.sent, ds, o); }
      forall d ensures Seen(s'.sent, d) == if d in ds then None else Seen(s.sent, d) { AfterCleared(s.sent, ds, d); }
      assert Base(s');
    } else {
      forall d | d in s'.devices && d in s'.liveDevices ensures Told(s', d) { assert Told(s, d); }
    }
  }

  lemma DeviceKeeps(s: State, d: Device)
    requires Inv(s) && d !in s.madeDevices
    ensures Inv(AddDevice(s, d))
  {
    var s' := s.(liveDevices := s.liveDevices + {d}, madeDevices := s.madeDevices + {d});
    forall e | e in s.devices && e in s.liveDevices ensures Told(s', e) { assert Told(s, e); }
    if s.active.Some? {
      AdvertiseBase(s', d);
      forall e | (e in s.devices && e in s.liveDevices) || e == d ensures Told(Advertise(s', d), e) {
        AdvertiseTells(s', d, e);
      }
    } else {
      assert Told(s', d);
    }
    var told := if s'.active.Some? then Advertise(s', d) else s';
    forall e | e in AddDevice(s, d).devices && e in s'.liveDevices ensures Told(AddDevice(s, d), e) {
      assert Told(told, e);
    }
  }

  lemma PlainKeeps(s: State, e: Event)
    requires Inv(s) && Legal(s, e) && (e.SourceMade? || e.MimeAdded? || e.SourceDies? || e.DeviceDies?)
    ensures Inv(Step(s, e))
  {
    var s' := Step(s, e);
    forall d | d in s'.devices && d in s'.liveDevices ensures Told(s', d) { assert Told(s, d); }
  }

  lemma StepKeeps(s: State, e: Event)
    requires Inv(s) && Legal(s, e)
    ensures Inv(Step(s, e))
  {
    match e {
      case DeviceMade(d) => DeviceKeeps(s, d);
      case Selected(choice) => SelectionKeeps(s, choice);
      case SourceDestroyed(source) => ForgetKeeps(s, source);
      case _ => PlainKeeps(s, e);
    }
  }

  lemma {:induction false} RunKeeps(events: seq<Event>)
    requires LegalRun(events)
    ensures Inv(Run(events))
  {
    if |events| > 0 {
      RunKeeps(events[..|events| - 1]);
      StepKeeps(Run(events[..|events| - 1]), events[|events| - 1]);
    }
  }

  /** In every reachable state whose owner, if any, is alive, each live device was last told
      exactly of that owner, by an offer of its own described with types of the source, or
      of an empty selection when there is no owner. */
  lemma Coherent(events: seq<Event>, d: Device)
    requires LegalRun(events)
    requires var s := Run(events);
             d in s.devices && d in s.liveDevices && (s.active.Some? ==> s.active.value in s.liveSources)
    ensures var s, seen := Run(events), Seen(Run(events).sent, d);
            && (seen.Some? <==> s.active.Some?)
            && (seen.Some? ==> seen.value.source == s.active.value && seen.value.device == d
                               && Described(s.sent, seen.value) <= MimesOf(s, seen.value.source))
  {
    RunKeeps(events);
    assert Told(Run(events), d);
  }

  /** Reporting a destruction twice is reporting it once. */
  lemma ForgetTwice(s: State, source: Source)
    ensures ForgetSource(ForgetSource(s, source), source) == ForgetSource(s, source)
  {
    var s' := ForgetSource(s, source);
    assert s'.active != Some(source);
    assert s'.mimes - {source} == s'.mimes;
  }

  // ---- ownership ---------------------------------------------------------

  function Cancels(sent: seq<Msg>, source: Source): nat {
    if |sent| == 0 then 0
    else Cancels(sent[..|sent| - 1], source) + if sent[|sent| - 1] == Cancelled(source) then 1 else 0
  }

  /** How often, over a run, a source took the selection, lost it to a request while alive,
      lost it to a request when already dead, and gave it up by its destruction. */
  datatype Ledger = Ledger(taken: nat, displaced: nat, lostDead: nat, released: nat)

  function LedgerOf(events: seq<Event>, source: Source): Ledger {
    if |events| == 0 then Ledger(0, 0, 0, 0)
    else
      var s, e := Run(events[..|events| - 1]), events[|events| - 1];
      Entry(LedgerOf(events[..|events| - 1], source), s, e, source)
  }

  function Entry(l: Ledger, s: State, e: Event, source: Source): Ledger {
    var owner := s.active == Some(source);
    if e.Selected? && !owner && e.choice == Some(source) then l.(taken := l.taken + 1)
    else if e.Selected? && owner && e.choice != Some(source) then
      if source in s.liveSources then l.(displaced := l.displaced + 1) else l.(lostDead := l.lostDead + 1)
    else if e.SourceDestroyed? && owner && e.source == source then l.(released := l.released + 1)
    else l
  }

  lemma CancelsAppend(sent: seq<Msg>, m: Msg, source: Source)
    ensures Cancels(sent + [m], source) == Cancels(sent, source) + if m == Cancelled(source) then 1 else 0
  {
    assert (sent + [m])[..|sent|] == sent;
  }

  lemma {:induction false} CancelsDescribe(sent: seq<Msg>, o: Offer, mimes: seq<Mime>, source: Source)
    ensures Cancels(sent + Describe(o, mimes), source) == Cancels(sent, source)
  {
    if |mimes| == 0 {
      assert sent + Describe(o, mimes) == sent;
    } else {
      var n := |mimes| - 1;
      CancelsDescribe(sent, o, mimes[..n], source);
      assert sent + Describe(o, mimes) == (sent + Describe(o, mimes[..n])) + [OfferMime(o, mimes[n])];
      CancelsAppend(sent + Describe(o, mimes[..n]), OfferMime(o, mimes[n]), source);
    }
  }

  lemma {:induction false} CancelsCleared(sent: seq<Msg>, ds: seq<Device>, source: Source)
    ensures Cancels(sent + Cleared(ds), source) == Cancels(sent, source)
  {
    if |ds| == 0 {
      assert sent + Cleared(ds) == sent;
    } else {
      var n := |ds| - 1;
      CancelsCleared(sent, ds[..n], source);
      assert sent + Cleared(ds) == (sent + Cleared(ds[..n])) + [Selection(ds[n], None)];
      CancelsAppend(sent + Cleared(ds[..n]), Selection(ds[n], None), source);
    }
  }

  lemma CancelsAdvertise(s: State, d: Device, source: Source)
    ensures Cancels(Advertise(s, d).sent, source) == Cancels(s.sent, source) && Advertise(s, d).active == s.active
  {
    if d in s.liveDevices {
      if Owner(s).None? {
        CancelsAppend(s.sent, Selection(d, None), source);
      } else {
        var o := Offer(s.nextOffer, d, Owner(s).value);
        var first := s.sent + [DataOffer(d, o)];
        CancelsAppend(s.sent, DataOffer(d, o), source);
        CancelsDescribe(first, o, MimesOf(s, Owner(s).value), source);
        CancelsAppend(first + Describe(o, MimesOf(s, Owner(s).value)), Selection(d, Some(o)), source);
      }
    }
  }

  lemma {:induction false} CancelsAll(s: State, ds: seq<Device>, source: Source)
    ensures Cancels(AdvertiseAll(s, ds).sent, source) == Cancels(s.sent, source) && AdvertiseAll(s, ds).active == s.active
    decreases |ds|
  {
    if |ds| > 0 {
      CancelsAdvertise(s, ds[0], source);
      CancelsAll(Advertise(s, ds[0]), ds[1..], source);
    }
  }

  lemma CancelsSelection(s: State, choice: Option<Source>, source: Source)
    ensures SetSelection(s, choice).active == choice
    ensures Cancels(SetSelection(s, choice).sent, source)
            == Cancels(s.sent, source) + if s.active == Some(source) && choice != s.active && source in s.liveSources then 1 else 0
  {
    var devices := Alive(s.devices, s.liveDevices);
    CancelsAll(s.(active := choice, devices := devices, sent := s.sent + Displaced(s, choice)), devices, source);
    if Displaced(s, choice) == [] {
      assert s.sent + [] == s.sent;
    } else {
      CancelsAppend(s.sent, Displaced(s, choice)[0], source);
    }
  }

  function Holds(s: State, source: Source): nat { if s.active == Some(source) then 1 else 0 }

  lemma CancelsForget(s: State, gone: Source, source: Source)
    ensures Cancels(ForgetSource(s, gone).sent, source) == Cancels(s.sent, source)
    ensures Holds(ForgetSource(s, gone), source) == if gone == source then 0 else Holds(s, source)
  {
    if s.active == Some(gone) { CancelsCleared(s.sent, Alive(s.devices, s.liveDevices), source); }
  }

  lemma CancelsDevice(s: State, d: Device, source: Source)
    ensures Cancels(AddDevice(s, d).sent, source) == Cancels(s.sent, source)
    ensures Holds(AddDevice(s, d), source) == Holds(s, source)
  {
    CancelsAdvertise(s.(liveDevices := s.liveDevices + {d}, madeDevices := s.madeDevices + {d}), d, source);
  }

  /** One step's cancellations and change of hands are those its ledger entry records. */
  lemma EntryRight(l: Ledger, s: State, e: Event, source: Source)
    ensures var s', l' := Step(s, e), Entry(l, s, e, source);
            && Cancels(s'.sent, source) - Cancels(s.sent, source) == l'.displaced - l.displaced
            && (l'.taken - l.taken) - (l'.displaced - l.displaced) - (l'.lostDead - l.lostDead) - (l'.released - l.released)
               == Holds(s', source) - Holds(s, source)
  {
    match e {
      case DeviceMade(d) => CancelsDevice(s, d, source);
      case Selected(choice) => CancelsSelection(s, choice, source);
      case SourceDestroyed(gone) => CancelsForget(s, gone, source);
      case _ =>
    }
  }

  /** On every run, a source is cancelled exactly as often as a request displaced it while
      it was alive; and each time it took the selection it was displaced, lost it dead,
      released it, or still has it. */
  lemma {:induction false} Ownership(events: seq<Event>, source: Source)
    ensures var s, l := Run(events), LedgerOf(events, source);
            && Cancels(s.sent, source) == l.displaced
            && l.taken == l.displaced + l.lostDead + l.released + Holds(s, source)
  {
    if |events| > 0 {
      var init := events[..|events| - 1];
      Ownership(init, source);
      EntryRight(LedgerOf(init, source), Run(init), events[|events| - 1], source);
    }
  }
}
