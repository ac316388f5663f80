/** How CreateVolume chooses a drive. */
module Selection {
  import opened Objects
  import opened Cluster

  type Segments = map<string, string>

  /** A drive as the lister returns it, with the labels and topology the match rules read. */
  datatype Offer = Offer(id: DriveID, drive: Drive, labels: map<string, string>, topology: Segments)

  /** A CreateVolume request. `params` are the remaining parameters of the driver's own key space. */
  datatype Wish = Wish(
    name: VolumeName, req: Request, tier: Option<nat>, params: map<string, string>,
    preferred: seq<Segments>, requisite: seq<Segments>)

  // ---------------------------------------------------------------- match rules

  /** A missing label reads as the empty string. */
  function LabelValue(labels: map<string, string>, key: string): string {
    if key in labels then labels[key] else ""
  }

  ghost predicate MatchTopologies(topology: Segments, wanted: seq<Segments>) {
    forall i, key :: 0 <= i < |wanted| && key in wanted[i] ==> key in topology && topology[key] == wanted[i][key]
  }

  /** Every segment asked for is a segment of the drive. */
  ghost predicate Within(topology: Segments, wanted: seq<Segments>) {
    forall i :: 0 <= i < |wanted| ==> forall key :: key in wanted[i] ==> key in topology && topology[key] == wanted[i][key]
  }

  /** matchDrive. */
  ghost predicate MatchDrive(offer: Offer, wish: Wish) {
    && !offer.drive.deleting
    && offer.drive.status == Ready
    && !offer.drive.cordoned
    && (wish.req.bytes.Some? ==> !(offer.drive.free < wish.req.bytes.value))
    && (wish.tier.Some? ==> offer.drive.tier == wish.tier.value)
    && (wish.req.claim.Claim? ==> wish.req.claim.id !in offer.drive.claims)
    && (forall key :: key in wish.params ==> LabelValue(offer.labels, key) == wish.params[key])
    && (|| (wish.preferred != [] && MatchTopologies(offer.topology, wish.preferred))
        || (wish.requisite != [] && MatchTopologies(offer.topology, wish.requisite))
        || (wish.preferred == [] && wish.requisite == []))
  }

  /** The rules imply the ones the cluster model relies on. */
  lemma MatchAdmits(offer: Offer, wish: Wish)
    requires MatchDrive(offer, wish)
    ensures Admits(offer.drive, wish.req)
  {
  }

  method CheckTopology(topology: Segments, wanted: Segments) returns (ok: bool)
    ensures ok <==> forall key :: key in wanted ==> key in topology && topology[key] == wanted[key]
  {
    var keys := wanted.Keys;
    while keys != {}
      invariant keys <= wanted.Keys
      invariant forall key :: key in wanted && key !in keys ==> key in topology && topology[key] == wanted[key]
      decreases |keys|
    {
      var key :| key in keys;
      if key !in topology || topology[key] != wanted[key] {
        return false;
      }
      keys := keys - {key};
    }
    return true;
  }

  method CheckTopologies(topology: Segments, wanted: seq<Segments>) returns (ok: bool)
    ensures ok <==> MatchTopologies(topology, wanted)
  {
    for i := 0 to |wanted|
      invariant MatchTopologies(topology, wanted[..i])
    {
      ok := CheckTopology(topology, wanted[i]);
      if !ok {
        return;
      }
    }
    assert wanted[..|wanted|] == wanted;
    ok := true;
  }

  method CheckParams(labels: map<string, string>, params: map<string, string>) returns (ok: bool)
    ensures ok <==> forall key :: key in params ==> LabelValue(labels, key) == params[key]
  {
    var keys := params.Keys;
    while keys != {}
      invariant keys <= params.Keys
      invariant forall key :: key in params && key !in keys ==> LabelValue(labels, key) == params[key]
      decreases |keys|
    {
      var key :| key in keys;
      if LabelValue(labels, key) != params[key] {
        return false;
      }
      keys := keys - {key};
    }
    return true;
  }

  /** One rule after the other, the first that fails decides. */
  method CheckDrive(offer: Offer, wish: Wish) returns (ok: bool)
    ensures ok <==> MatchDrive(offer, wish)
    ensures ok ==> offer.drive.status == Ready && !offer.drive.cordoned && !offer.drive.deleting
    ensures ok && wish.req.bytes.Some? ==> wish.req.bytes.value <= offer.drive.free
    ensures ok && wish.tier.Some? ==> offer.drive.tier == wish.tier.value
    ensures ok && wish.req.claim.Claim? ==> wish.req.claim.id !in offer.drive.claims
    ensures ok ==> forall key :: key in wish.params ==>
              wish.params[key] == if key in offer.labels then offer.labels[key] else ""
    ensures ok && (wish.preferred != [] || wish.requisite != []) ==>
              (wish.preferred != [] && Within(offer.topology, wish.preferred)) ||
              (wish.requisite != [] && Within(offer.topology, wish.requisite))
    ensures !ok ==>
              || offer.drive.status != Ready || offer.drive.cordoned || offer.drive.deleting
              || (wish.req.bytes.Some? && offer.drive.free < wish.req.bytes.value)
              || (wish.tier.Some? && offer.drive.tier != wish.tier.value)
              || (wish.req.claim.Claim? && wish.req.claim.id in offer.drive.claims)
              || (exists key :: key in wish.params && wish.params[key] != LabelValue(offer.labels, key))
              || ((wish.preferred != [] || wish.requisite != [])
                  && (wish.preferred == [] || !Within(offer.topology, wish.preferred))
                  && (wish.requisite == [] || !Within(offer.topology, wish.requisite)))
  {
    if offer.drive.deleting || offer.drive.status != Ready || offer.drive.cordoned {
      return false;
    }
    if wish.req.bytes.Some? && offer.drive.free < wish.req.bytes.value {
      return false;
    }
    if wish.tier.Some? && offer.drive.tier != wish.tier.value {
      return false;
    }
    if wish.req.claim.Claim? && wish.req.claim.id in offer.drive.claims {
      return false;
    }
    ok := CheckParams(offer.labels, wish.params);
    if !ok {
      return;
    }
    if wish.preferred != [] {
      ok := CheckTopologies(offer.topology, wish.preferred);
      if ok {
        return;
      }
    }
    if wish.requisite != [] {
      ok := CheckTopologies(offer.topology, wish.requisite);
      if ok {
        return;
      }
    }
    ok := wish.preferred == [] && wish.requisite == [];
  }

  function CandidateOf(o: Offer): Candidate {
    Candidate(o.id, o.drive)
  }

  /** CreateVolume's pick in the run model is the selection among the matches it has listed. */
  lemma PickIsSelection(s: State, offers: set<Offer>, wish: Wish, pick: Candidate)
    requires wish.name in s.calls && s.calls[wish.name].Listing? && s.calls[wish.name].pending == {}
    requires forall c :: c in s.calls[wish.name].matched <==> exists o :: o in offers && MatchDrive(o, wish) && CandidateOf(o) == c
    ensures Enabled(s, OnCreate(wish.name, PickDrive(pick))) <==>
            exists o :: o in offers && MatchDrive(o, wish) && CandidateOf(o) == pick && -1 <= o.drive.free
                        && forall o' :: o' in offers && MatchDrive(o', wish) ==> o'.drive.free <= o.drive.free
  {
    forall o | o in offers && MatchDrive(o, wish) ensures CandidateOf(o) in s.calls[wish.name].matched {}
  }

  // ---------------------------------------------------------------- candidates

  ghost predicate AnyHosts(offers: seq<Offer>, v: VolumeName) {
    exists i :: 0 <= i < |offers| && Hosts(offers[i].drive, v)
  }

  /** `o` is the first drive that holds the volume. */
  ghost predicate FirstHolder(offers: seq<Offer>, v: VolumeName, o: Offer) {
    exists i :: 0 <= i < |offers| && offers[i] == o && Hosts(o.drive, v) && !AnyHosts(offers[..i], v)
  }

  /** The first drive that already holds the volume, alone; otherwise every match. */
  method GetFilteredDrives(offers: seq<Offer>, wish: Wish) returns (drives: seq<Offer>)
    ensures AnyHosts(offers, wish.name) ==> |drives| == 1 && FirstHolder(offers, wish.name, drives[0])
    ensures !AnyHosts(offers, wish.name) ==> forall o :: o in drives <==> o in offers && MatchDrive(o, wish)
  {
    drives := [];
    for i := 0 to |offers|
      invariant !AnyHosts(offers[..i], wish.name)
      invariant forall o :: o in drives <==> o in offers[..i] && MatchDrive(o, wish)
    {
      if Hosts(offers[i].drive, wish.name) {
        return [offers[i]];
      }
      assert offers[..i + 1] == offers[..i] + [offers[i]];
      var ok := CheckDrive(offers[i], wish);
      if ok {
        drives := drives + [offers[i]];
      }
    }
    assert offers[..|offers|] == offers;
  }

  // ---------------------------------------------------------------- choice

  datatype Choice = Selected(offer: Offer) | NoDrive | Crash

  /** The drives of the greatest free capacity, with -1 as the least value considered. */
  ghost predicate IsTieSet(drives: seq<Offer>, ties: seq<Offer>, best: int) {
    && -1 <= best
    && (forall o :: o in drives ==> o.drive.free <= best)
    && (forall o :: o in ties <==> o in drives && o.drive.free == best)
    && (best == -1 || ties != [])
  }

  /** selectDrive; `dice` is the random number. Drawing from an empty tie set crashes. */
  method SelectDrive(offers: seq<Offer>, wish: Wish, dice: nat) returns (choice: Choice)
    ensures choice.NoDrive? <==>
              !AnyHosts(offers, wish.name) && forall o :: o in offers ==> !MatchDrive(o, wish)
    ensures choice.Selected? ==>
              && choice.offer in offers
              && if AnyHosts(offers, wish.name) then FirstHolder(offers, wish.name, choice.offer)
                 else && MatchDrive(choice.offer, wish)
                      && forall o :: o in offers && MatchDrive(o, wish) ==> o.drive.free <= choice.offer.drive.free
    ensures (forall o :: o in offers ==> 0 <= o.drive.free) ==> !choice.Crash?
    ensures AnyHosts(offers, wish.name) ==>
              (choice.Crash? <==> exists o :: FirstHolder(offers, wish.name, o) && o.drive.free < -1)
    ensures !AnyHosts(offers, wish.name) ==>
              (choice.Crash? <==>
                 && (exists o :: o in offers && MatchDrive(o, wish))
                 && (forall o :: o in offers && MatchDrive(o, wish) ==> o.drive.free < -1))
  {
    var drives := GetFilteredDrives(offers, wish);
    if |drives| == 0 {
      return NoDrive;
    }
    assert drives[0] in drives;
    var best := -1;
    var ties: seq<Offer> := [];
    for i := 0 to |drives|
      invariant IsTieSet(drives[..i], ties, best)
    {
      assert drives[..i + 1] == drives[..i] + [drives[i]];
      if drives[i].drive.free == best {
        ties := ties + [drives[i]];
      } else if drives[i].drive.free > best {
        best := drives[i].drive.free;
        ties := [drives[i]];
      }
    }
    assert drives[..|drives|] == drives;
    if |ties| == 0 {
      assert forall o :: o in drives ==> o.drive.free < -1;
      return Crash;
    }
    var n := if |ties| == 1 then 0 else dice % |ties|;
    assert ties[n] in ties;
    return Selected(ties[n]);
  }
}
