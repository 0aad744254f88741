/** The primary selection as its fields are updated in place. */
module PrimarySelectionServer {
  import opened Prelude
  import opened PrimarySelection
  import P = PrimarySelection

  lemma {:induction false} AliveSnoc(ds: seq<Device>, d: Device, live: set<Device>)
    ensures Alive(ds + [d], live) == Alive(ds, live) + if d in live then [d] else []
  {
    if |ds| == 0 {
      assert ds + [d] == [d];
    } else {
      AliveSnoc(ds[1..], d, live);
      assert (ds + [d])[1..] == ds[1..] + [d];
      ConcatAssoc(if ds[0] in live then [ds[0]] else [], Alive(ds[1..], live), if d in live then [d] else []);
    }
  }

  class Selections {
    var devices: seq<Device>
    var mimes: map<Source, seq<Mime>>
    var active: Option<Source>
    var nextOffer: nat
    var liveSources: set<Source>
    var liveDevices: set<Device>
    ghost var madeSources: set<Source>
    ghost var madeDevices: set<Device>
    var sent: seq<Msg>

    ghost function St(): State
      reads this
    {
      State(devices, mimes, active, nextOffer, liveSources, liveDevices, madeSources, madeDevices, sent)
    }

    constructor ()
      ensures St() == Start()
    {
      devices, mimes, active, nextOffer := [], map[], None, 0;
      liveSources, liveDevices, madeSources, madeDevices, sent := {}, {}, {}, {}, [];
    }

    method CreateSource(source: Source)
      modifies this
      ensures St() == P.CreateSource(old(St()), source)
    {
      mimes := mimes[source := []];
      liveSources, madeSources := liveSources + {source}, madeSources + {source};
    }

    method AddMime(source: Source, mime: Mime)
      modifies this
      ensures St() == P.AddMime(old(St()), source, mime)
    {
      mimes := mimes[source := (if source in mimes then mimes[source] else []) + [mime]];
    }

    method AdvertiseTo(d: Device)
      modifies this`nextOffer, this`sent
      ensures St() == Advertise(old(St()), d)
    {
      if d !in liveDevices { return; }
      if active.None? || active.value !in liveSources {
        sent := sent + [Selection(d, None)];
        return;
      }
      var o := Offer(nextOffer, d, active.value);
      nextOffer := nextOffer + 1;
      sent := sent + [DataOffer(d, o)];
      ghost var first := sent;
      assert first + Describe(o, []) == first;
      if active.value in mimes {
        var types, i := mimes[active.value], 0;
        while i < |types|
          invariant i <= |types|
          invariant sent == first + Describe(o, types[..i])
          modifies this`sent
        {
          assert types[..i + 1][..i] == types[..i];
          sent := sent + [OfferMime(o, types[i])];
          i := i + 1;
        }
        assert types[..i] == types;
      }
      assert sent == first + Describe(o, MimesOf(old(St()), active.value));
      sent := sent + [Selection(d, Some(o))];
    }

    method AddDevice(d: Device)
      modifies this
      ensures St() == P.AddDevice(old(St()), d)
    {
      liveDevices, madeDevices := liveDevices + {d}, madeDevices + {d};
      if active.Some? { AdvertiseTo(d); }
      devices := devices + [d];
    }

    method RetainLive()
      modifies this`devices
      ensures devices == Alive(old(devices), liveDevices)
    {
      var all, kept, i := devices, [], 0;
      while i < |all|
        invariant i <= |all|
        invariant kept == Alive(all[..i], liveDevices)
        modifies {}
      {
        AliveSnoc(all[..i], all[i], liveDevices);
        assert all[..i + 1] == all[..i] + [all[i]];
        if all[i] in liveDevices { kept := kept + [all[i]]; } else { assert kept + [] == kept; }
        i := i + 1;
      }
      assert all[..i] == all;
      devices := kept;
    }

    method SetSelection(source: Option<Source>)
      modifies this
      ensures St() == P.SetSelection(old(St()), source)
    {
      if active.Some? && active.value in liveSources && active != source {
        sent := sent + [Cancelled(active.value)];
      }
      active := source;
      RetainLive();
      assert St() == old(St()).(active := source, devices := Alive(old(devices), liveDevices),
                                sent := old(sent) + Displaced(old(St()), source)) by { assert old(sent) + [] == old(sent); }
      ghost var goal := AdvertiseAll(St(), devices);
      var i := 0;
      assert devices[0..] == devices;
      while i < |devices|
        invariant i <= |devices|
        invariant AdvertiseAll(St(), devices[i..]) == goal
        modifies this`nextOffer, this`sent
      {
        assert devices[i..][1..] == devices[i + 1..];
        AdvertiseTo(devices[i]);
        i := i + 1;
      }
    }

    method ForgetSource(source: Source)
      modifies this
      ensures St() == P.ForgetSource(old(St()), source)
    {
      mimes := mimes - {source};
      if active != Some(source) { return; }
      active := None;
      RetainLive();
      ClearDevices();
    }

    method ClearDevices()
      modifies this`sent
      ensures sent == old(sent) + Cleared(devices)
    {
      var i := 0;
      while i < |devices|
        invariant i <= |devices|
        invariant sent == old(sent) + Cleared(devices[..i])
      {
        assert devices[..i + 1][..i] == devices[..i];
        sent := sent + [Selection(devices[i], None)];
        i := i + 1;
      }
      assert devices[..i] == devices;
    }
  }
}
