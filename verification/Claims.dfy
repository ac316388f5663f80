/** Claim IDs, in runs without Move: a drive is labelled with a claim exactly while it holds
    a volume of that claim, and never holds two. */
module Claims {
  import opened Objects
  import opened Cluster
  import opened Versions
  import opened Removal
  import opened Placement

  function ClaimOf(s: State, v: VolumeName): Claim {
    if v in s.past.asked then s.past.asked[v].claim else NoClaim
  }

  /** `drive` carries the label of claim `c` exactly when it holds a volume with that claim. */
  ghost predicate Labelled(s: State, drive: Drive, c: nat) {
    c in drive.claims <==> exists v :: Hosts(drive, v) && ClaimOf(s, v) == Claim(c)
  }

  ghost predicate Exclusive(s: State, drive: Drive) {
    forall v, w :: Hosts(drive, v) && Hosts(drive, w) && ClaimOf(s, v).Claim? && ClaimOf(s, v) == ClaimOf(s, w) ==> v == w
  }

  ghost predicate ClaimsOf(s: State, drive: Drive) {
    && (forall c :: Labelled(s, drive, c))
    && Exclusive(s, drive)
  }

  ghost predicate AllClaims(s: State) {
    && (forall d :: d in s.drives ==> ClaimsOf(s, s.drives[d]))
    && (forall v :: v in s.releases ==> s.releases[v].vol.claim == ClaimOf(s, v))
  }

  lemma ReserveClaims(s: State, drive: Drive, v: VolumeName, size: int, claim: Claim)
    requires ClaimsOf(s, drive) && !Hosts(drive, v) && ClaimOf(s, v) == claim
    requires claim.Claim? ==> claim.id !in drive.claims
    ensures ClaimsOf(s, Reserve(drive, v, size, claim))
  {
    var after := Reserve(drive, v, size, claim);
    assert forall w :: Hosts(after, w) <==> Hosts(drive, w) || w == v;
    forall c ensures Labelled(s, after, c) {
      assert Labelled(s, drive, c);
      if c in after.claims && c !in drive.claims { assert Hosts(after, v); }
    }
    if claim.Claim? {
      assert Labelled(s, drive, claim.id);
    }
  }

  lemma ReleaseClaims(s: State, drive: Drive, v: VolumeName, size: int, claim: Claim)
    requires ClaimsOf(s, drive) && Hosts(drive, v) && ClaimOf(s, v) == claim
    ensures ClaimsOf(s, Release(drive, v, size, claim))
  {
    var after := Release(drive, v, size, claim);
    forall w ensures Hosts(after, w) <==> Hosts(drive, w) && w != v {
      DropRefMember(drive.fins, v, VolumeRef(w));
    }
    forall c ensures Labelled(s, after, c) {
      assert Labelled(s, drive, c);
      if c in after.claims {
        var w :| Hosts(drive, w) && ClaimOf(s, w) == Claim(c);
        assert w != v;
        assert Hosts(after, w);
      }
    }
  }

  /** Edits that touch neither finalizers nor labels. */
  lemma SameClaims(s: State, drive: Drive, drive': Drive)
    requires ClaimsOf(s, drive) && drive'.claims == drive.claims
    requires forall v :: Hosts(drive', v) <==> Hosts(drive, v)
    ensures ClaimsOf(s, drive')
  {
    forall c ensures Labelled(s, drive', c) { assert Labelled(s, drive, c); }
  }

  /** A drive's claims read the same in two states that agree on its volumes. */
  lemma ClaimsTransfer(s: State, s': State, drive: Drive)
    requires ClaimsOf(s, drive)
    requires forall v :: Hosts(drive, v) ==> ClaimOf(s', v) == ClaimOf(s, v)
    ensures ClaimsOf(s', drive)
  {
    forall c ensures Labelled(s', drive, c) { assert Labelled(s, drive, c); }
  }

  /** What a name was asked for is never forgotten. */
  lemma ClaimKept(s: State, e: Event, v: VolumeName)
    requires Enabled(s, e) && Disciplined(s, e) && v in s.past.asked
    ensures ClaimOf(Apply(s, e), v) == ClaimOf(s, v)
  {
    AskedSame(s, e, v);
  }

  lemma DriveWriteClaims(s: State, d: DriveID, e: DriveStep)
    requires Sound(s) && AllClaims(s) && DriveEnabled(s, d, e)
    ensures ClaimsOf(s, EditedDrive(s, d, e))
  {
    if d in s.drives {
      forall v ensures Hosts(EditedDrive(s, d, e), v) <==> Hosts(s.drives[d], v) {
        DriveWriteHosts(s, d, e, v);
      }
      SameClaims(s, s.drives[d], EditedDrive(s, d, e));
    }
  }

  lemma CreateWriteClaims(s: State, v: VolumeName)
    requires Sound(s) && Placed(s) && AllClaims(s) && CreateEnabled(s, v, ReserveDrive)
    ensures ClaimsOf(s, CreateWrite(s, v, ReserveDrive).drive)
  {
    assert CallPlaced(s, v, s.calls[v]) && CallRead(s, v, s.calls[v]) && Admitted(v, s.calls[v]);
    var Recorded(req, pick) := s.calls[v];
    assert ClaimsOf(s, s.drives[pick.id]);
    ReserveClaims(s, pick.drive, v, SizeFor(req, pick.drive), req.claim);
  }

  lemma VolumeWriteClaims(s: State, v: VolumeName)
    requires Sound(s) && AllClaims(s) && VolumeEnabled(s, v, GrantExpand)
    ensures ClaimsOf(s, VolumeWrite(s, v, GrantExpand).drive)
  {
    assert CallRead(s, v, s.calls[v]);
    var ExpandPlaced(want, vol, drive) := s.calls[v];
    assert ClaimsOf(s, s.drives[vol.driveLabel]);
    SameClaims(s, drive, VolumeWrite(s, v, GrantExpand).drive);
  }

  lemma ReleaseWriteClaims(s: State, v: VolumeName)
    requires Sound(s) && AllClaims(s) && ReleaseEnabled(s, v, Credit)
    ensures ClaimsOf(s, ReleaseWrite(s, v, Credit).drive)
  {
    assert ReleaseReads(s, v, s.releases[v]);
    var ReleasePlaced(vol, drive) := s.releases[v];
    assert ClaimsOf(s, s.drives[vol.driveLabel]);
    ReleaseClaims(s, drive, v, vol.size, vol.claim);
  }

  lemma WriteClaims(s: State, e: Event)
    requires Sound(s) && Placed(s) && AllClaims(s) && Enabled(s, e) && !IsMove(e)
    ensures WriteOf(s, e).PutDrive? ==> ClaimsOf(s, WriteOf(s, e).drive)
  {
    match e
    case OnDrive(d, step) => DriveWriteClaims(s, d, step);
    case OnCreate(v, step) => if step.ReserveDrive? { CreateWriteClaims(s, v); }
    case OnVolume(v, step) => if step.GrantExpand? { VolumeWriteClaims(s, v); }
    case OnRelease(v, step) => if step.Credit? { ReleaseWriteClaims(s, v); }
  }

  lemma HostedAsked(s: State, v: VolumeName, d: DriveID)
    requires Placed(s) && HostedBy(s, v, d)
    ensures v in s.past.asked
  {
    assert Anchored(s, v, d);
    assert Recordful(s, v);
  }

  lemma StoredClaims(s: State, w: Write, d: DriveID)
    requires w.PutDrive? ==> ClaimsOf(s, w.drive)
    requires AllClaims(s) && d in DrivesAfter(s, w)
    ensures ClaimsOf(s, DrivesAfter(s, w)[d])
  {
    if w.PutDrive? && w.d == d {
      SameClaims(s, w.drive, DrivesAfter(s, w)[d]);
    }
  }

  /** Every volume on a drive after the event had been asked for before it. */
  lemma StayersAsked(s: State, e: Event, v: VolumeName, d: DriveID)
    requires Sound(s) && Placed(s) && Enabled(s, e) && Disciplined(s, e) && !IsMove(e)
    requires HostedBy(Apply(s, e), v, d)
    ensures v in s.past.asked
  {
    HostingChanges(s, e, v, d);
    if Gains(s, e, v, d) {
      assert CallPlaced(s, v, s.calls[v]);
    } else {
      HostedAsked(s, v, d);
    }
  }

  lemma ReleaseClaimStep(s: State, e: Event, v: VolumeName)
    requires Placed(s) && AllClaims(s) && Enabled(s, e) && Disciplined(s, e)
    requires v in Apply(s, e).releases
    ensures Apply(s, e).releases[v].vol.claim == ClaimOf(Apply(s, e), v)
  {
    if v in s.releases { assert ReleaseOf(s, v, s.releases[v]); }
    assert Recordful(s, v);
    ClaimKept(s, e, v);
  }

  lemma ClaimsStep(s: State, e: Event)
    requires Sound(s) && Placed(s) && AllClaims(s) && Enabled(s, e) && Disciplined(s, e) && !IsMove(e)
    ensures AllClaims(Apply(s, e))
  {
    var s' := Apply(s, e);
    WriteClaims(s, e);
    forall d | d in s'.drives ensures ClaimsOf(s', s'.drives[d]) {
      StoredClaims(s, WriteOf(s, e), d);
      forall v | Hosts(s'.drives[d], v) ensures ClaimOf(s', v) == ClaimOf(s, v) {
        StayersAsked(s, e, v, d);
        ClaimKept(s, e, v);
      }
      ClaimsTransfer(s, s', s'.drives[d]);
    }
    forall v | v in s'.releases ensures s'.releases[v].vol.claim == ClaimOf(s', v) {
      ReleaseClaimStep(s, e, v);
    }
  }
}
