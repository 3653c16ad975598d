/** The map component: its dustbin list state, the status toggle that awards
    Green Points for reporting a filled dustbin, the choice of dustbin icon,
    and which marker layers are drawn. Map tiles, icons' pictures, popups and
    geolocation are not part of this model. */
module MapComponent {
  import opened Types
  import opened Session

  /** Green Points for reporting that a dustbin is filled. */
  const FilledReportPoints := 10

  /** The status a toggle moves a dustbin to. */
  function NextStatus(s: DustbinStatus): (r: DustbinStatus)
    ensures r != s
  {
    if s == Empty then Filled else Empty
  }

  /** One step of the `map` inside `toggleDustbinStatus`. */
  function ToggleEntry(d: Dustbin, dustbinId: string, actor: string, now: Timestamp): Dustbin
  {
    if d.id == dustbinId then
      d.(status := NextStatus(d.status), lastUpdated := now, updatedBy := Some(actor))
    else
      d
  }

  /** The dustbin list after `actor` toggles `dustbinId` at time `now`. */
  function Toggled(ds: seq<Dustbin>, dustbinId: string, actor: string, now: Timestamp): (r: seq<Dustbin>)
    ensures |r| == |ds|
  {
    if ds == [] then [] else [ToggleEntry(ds[0], dustbinId, actor, now)] + Toggled(ds[1..], dustbinId, actor, now)
  }

  /** Some entry with that id is empty now, so the toggle makes it filled. */
  predicate BecomesFilled(ds: seq<Dustbin>, dustbinId: string)
  {
    exists k :: 0 <= k < |ds| && ds[k].id == dustbinId && ds[k].status == Empty
  }

  /** What a toggle adds to the balance. Every matching entry writes the same
      `user.greenPoints + 10` read before the toggle, so the award is given
      once even if several entries were to share the id. */
  function ToggleAward(ds: seq<Dustbin>, dustbinId: string): int
  {
    if BecomesFilled(ds, dustbinId) then FilledReportPoints else 0
  }

  predicate DistinctIds(ds: seq<Dustbin>)
  {
    forall i, j :: 0 <= i < j < |ds| ==> ds[i].id != ds[j].id
  }

  /** The toggle is a `map`: same length, and entry k comes from entry k. */
  lemma {:induction false} ToggledAt(ds: seq<Dustbin>, dustbinId: string, actor: string, now: Timestamp, k: int)
    requires 0 <= k < |ds|
    ensures |Toggled(ds, dustbinId, actor, now)| == |ds|
    ensures Toggled(ds, dustbinId, actor, now)[k] == ToggleEntry(ds[k], dustbinId, actor, now)
  {
    if k > 0 {
      ToggledAt(ds[1..], dustbinId, actor, now, k - 1);
    } else if |ds| > 1 {
      ToggledAt(ds[1..], dustbinId, actor, now, 0);
    }
  }

  /** The matching dustbin flips between empty and filled, is stamped with
      the time and the acting user, and keeps its id, place and address. */
  lemma ToggleFlipsMatching(ds: seq<Dustbin>, dustbinId: string, actor: string, now: Timestamp, k: int)
    requires 0 <= k < |ds| && ds[k].id == dustbinId
    ensures var d := Toggled(ds, dustbinId, actor, now)[k];
      && d.status != ds[k].status
      && d.lastUpdated == now && d.updatedBy == Some(actor)
      && d.id == ds[k].id && d.latitude == ds[k].latitude
      && d.longitude == ds[k].longitude && d.address == ds[k].address
  {
    ToggledAt(ds, dustbinId, actor, now, k);
  }

  /** Dustbins with another id are returned unchanged, at the same place. */
  lemma ToggleKeepsOthers(ds: seq<Dustbin>, dustbinId: string, actor: string, now: Timestamp, k: int)
    requires 0 <= k < |ds| && ds[k].id != dustbinId
    ensures |Toggled(ds, dustbinId, actor, now)| == |ds|
    ensures Toggled(ds, dustbinId, actor, now)[k] == ds[k]
  {
    ToggledAt(ds, dustbinId, actor, now, k);
  }

  /** Toggling the same dustbin twice restores every status, and keeps the
      list's ids in place. */
  lemma ToggleTwiceRestoresStatus(ds: seq<Dustbin>, dustbinId: string, a1: string, t1: Timestamp, a2: string, t2: Timestamp)
    ensures var twice := Toggled(Toggled(ds, dustbinId, a1, t1), dustbinId, a2, t2);
      && |twice| == |ds|
      && forall k :: 0 <= k < |ds| ==> twice[k].status == ds[k].status && twice[k].id == ds[k].id
  {
    var once := Toggled(ds, dustbinId, a1, t1);
    forall k | 0 <= k < |ds|
      ensures |Toggled(once, dustbinId, a2, t2)| == |ds|
      ensures Toggled(once, dustbinId, a2, t2)[k].status == ds[k].status
      ensures Toggled(once, dustbinId, a2, t2)[k].id == ds[k].id
    {
      ToggledAt(ds, dustbinId, a1, t1, k);
      ToggledAt(once, dustbinId, a2, t2, k);
    }
    if ds == [] {
      assert Toggled(once, dustbinId, a2, t2) == [];
    }
  }

  /** With distinct ids, the balance rises by exactly 10 when the toggled
      dustbin's new status is filled and stays put when it is empty. */
  lemma AwardFollowsNewStatus(ds: seq<Dustbin>, dustbinId: string, actor: string, now: Timestamp, k: int)
    requires DistinctIds(ds)
    requires 0 <= k < |ds| && ds[k].id == dustbinId
    ensures Toggled(ds, dustbinId, actor, now)[k].status == Filled ==> ToggleAward(ds, dustbinId) == 10
    ensures Toggled(ds, dustbinId, actor, now)[k].status == Empty ==> ToggleAward(ds, dustbinId) == 0
  {
    ToggledAt(ds, dustbinId, actor, now, k);
    if ds[k].status == Filled {
      forall j | 0 <= j < |ds| && ds[j].id == dustbinId
        ensures ds[j].status == Filled
      {
        assert j == k;
      }
    }
  }

  /** Toggling an id that no dustbin carries changes nothing. */
  lemma {:induction false} ToggleUnknownId(ds: seq<Dustbin>, dustbinId: string, actor: string, now: Timestamp)
    requires forall k :: 0 <= k < |ds| ==> ds[k].id != dustbinId
    ensures Toggled(ds, dustbinId, actor, now) == ds
    ensures ToggleAward(ds, dustbinId) == 0
  {
    if ds != [] {
      ToggleUnknownId(ds[1..], dustbinId, actor, now);
    }
  }

  /** The component's state: its own copy of the dustbin list, seeded by the
      caller, and the shared session. */
  class MapState {
    var dustbins: seq<Dustbin>
    const session: AuthSession

    constructor (session: AuthSession, dustbins: seq<Dustbin>)
      ensures this.session == session && this.dustbins == dustbins
    {
      this.session := session;
      this.dustbins := dustbins;
    }

    /** `toggleDustbinStatus(dustbinId)`: nothing happens without a user;
        otherwise the list is mapped through the toggle and the user is
        credited when an entry becomes filled. */
    method ToggleDustbinStatus(dustbinId: string, now: Timestamp)
      modifies this, session
      ensures old(session.user).None? ==>
        dustbins == old(dustbins) && session.user == old(session.user)
      ensures old(session.user).Some? ==>
        && dustbins == Toggled(old(dustbins), dustbinId, old(session.user).value.id, now)
        && session.user == Credited(old(session.user), ToggleAward(old(dustbins), dustbinId))
    {
      if session.user.None? {
        return;
      }
      var user := session.user.value;
      var prev := dustbins;
      var next: seq<Dustbin> := [];
      var i := 0;
      while i < |prev|
        invariant 0 <= i <= |prev|
        invariant dustbins == prev
        invariant |next| == i
        invariant forall k :: 0 <= k < i ==> next[k] == ToggleEntry(prev[k], dustbinId, user.id, now)
        invariant session.user == Credited(Some(user), ToggleAward(prev[..i], dustbinId))
      {
        var d := prev[i];
        assert prev[..i + 1] == prev[..i] + [d];
        if d.id == dustbinId {
          var newStatus := if d.status == Empty then Filled else Empty;
          if newStatus == Filled {
            session.UpdateUser(PointsPatch(user.greenPoints + FilledReportPoints));
          }
          next := next + [d.(status := newStatus, lastUpdated := now, updatedBy := Some(user.id))];
        } else {
          next := next + [d];
        }
        i := i + 1;
      }
      assert prev[..i] == prev;
      forall k | 0 <= k < |prev|
        ensures next[k] == Toggled(prev, dustbinId, user.id, now)[k]
      {
        ToggledAt(prev, dustbinId, user.id, now, k);
      }
      if prev == [] {
        assert Toggled(prev, dustbinId, user.id, now) == [];
      } else {
        ToggledAt(prev, dustbinId, user.id, now, 0);
      }
      dustbins := next;
    }
  }

  /** Visibility of the three marker layers (the `showLayers` prop). */
  datatype Layers = Layers(dustbins: bool, wasteReports: bool, cleanupDrives: bool)

  /** The prop's default: every layer shown. */
  const AllLayers := Layers(true, true, true)

  datatype DustbinIcon = EmptyDustbinIcon | FilledDustbinIcon

  /** The marker icon of a dustbin in the given status. */
  function IconFor(s: DustbinStatus): (icon: DustbinIcon)
    ensures icon == EmptyDustbinIcon <==> s == Empty
  {
    if s == Empty then EmptyDustbinIcon else FilledDustbinIcon
  }

  datatype Marker =
    | DustbinMarker(id: string, icon: DustbinIcon)
    | ReportMarker(id: string)
    | DriveMarker(id: string)

  function DustbinMarkers(ds: seq<Dustbin>): (ms: seq<Marker>)
    ensures |ms| == |ds|
    ensures forall i :: 0 <= i < |ds| ==> ms[i] == DustbinMarker(ds[i].id, IconFor(ds[i].status))
  {
    if ds == [] then [] else [DustbinMarker(ds[0].id, IconFor(ds[0].status))] + DustbinMarkers(ds[1..])
  }

  function ReportMarkers(rs: seq<WasteReport>): (ms: seq<Marker>)
    ensures |ms| == |rs|
    ensures forall i :: 0 <= i < |rs| ==> ms[i] == ReportMarker(rs[i].id)
  {
    if rs == [] then [] else [ReportMarker(rs[0].id)] + ReportMarkers(rs[1..])
  }

  function DriveMarkers(cs: seq<CleanupDrive>): (ms: seq<Marker>)
    ensures |ms| == |cs|
    ensures forall i :: 0 <= i < |cs| ==> ms[i] == DriveMarker(cs[i].id)
  {
    if cs == [] then [] else [DriveMarker(cs[0].id)] + DriveMarkers(cs[1..])
  }

  /** The markers drawn: each collection's, in order, when its layer is on. */
  function Markers(layers: Layers, ds: seq<Dustbin>, rs: seq<WasteReport>, cs: seq<CleanupDrive>): seq<Marker>
  {
    (if layers.dustbins then DustbinMarkers(ds) else [])
    + (if layers.wasteReports then ReportMarkers(rs) else [])
    + (if layers.cleanupDrives then DriveMarkers(cs) else [])
  }

  /** A collection's markers appear only when its flag is on, and when it is
      on every element of the collection is drawn, a dustbin with the icon of
      its status. */
  lemma MarkersFollowLayers(layers: Layers, ds: seq<Dustbin>, rs: seq<WasteReport>, cs: seq<CleanupDrive>)
    ensures var ms := Markers(layers, ds, rs, cs);
      && (forall m :: m in ms && m.DustbinMarker? ==> layers.dustbins)
      && (forall m :: m in ms && m.ReportMarker? ==> layers.wasteReports)
      && (forall m :: m in ms && m.DriveMarker? ==> layers.cleanupDrives)
      && (layers.dustbins ==> forall d :: d in ds ==> DustbinMarker(d.id, IconFor(d.status)) in ms)
      && (layers.wasteReports ==> forall r :: r in rs ==> ReportMarker(r.id) in ms)
      && (layers.cleanupDrives ==> forall c :: c in cs ==> DriveMarker(c.id) in ms)
  {
    var ms := Markers(layers, ds, rs, cs);
    var a := if layers.dustbins then DustbinMarkers(ds) else [];
    var b := if layers.wasteReports then ReportMarkers(rs) else [];
    var c := if layers.cleanupDrives then DriveMarkers(cs) else [];
    assert ms == a + b + c;
    forall m | m in ms
      ensures m.DustbinMarker? ==> layers.dustbins
      ensures m.ReportMarker? ==> layers.wasteReports
      ensures m.DriveMarker? ==> layers.cleanupDrives
    {
      if m in a {
        var i :| 0 <= i < |a| && a[i] == m;
      } else if m in b {
        var i :| 0 <= i < |b| && b[i] == m;
      } else {
        assert m in c;
        var i :| 0 <= i < |c| && c[i] == m;
      }
    }
    if layers.dustbins {
      forall d | d in ds ensures DustbinMarker(d.id, IconFor(d.status)) in ms {
        var i :| 0 <= i < |ds| && ds[i] == d;
        assert a[i] == DustbinMarker(d.id, IconFor(d.status));
      }
    }
    if layers.wasteReports {
      forall r | r in rs ensures ReportMarker(r.id) in ms {
        var i :| 0 <= i < |rs| && rs[i] == r;
        assert b[i] == ReportMarker(r.id);
        assert (a + b)[|a| + i] == b[i];
      }
    }
    if layers.cleanupDrives {
      forall x | x in cs ensures DriveMarker(x.id) in ms {
        var i :| 0 <= i < |cs| && cs[i] == x;
        assert c[i] == DriveMarker(x.id);
        assert ms[|a + b| + i] == c[i];
      }
    }
  }
}
