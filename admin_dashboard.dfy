/** The admin dashboard's read-only figures: the statistics cards, the chart
    buckets, the name lookups of the report and drive tables, the actions
    each row offers, and the user table. All are derived from the
    collections on every render. */
module AdminDashboard {
  import opened Types
  import opened Seqs
  import opened Ledger

  predicate IsRegularUser(u: User) { u.role == RegularUser }
  predicate IsFilled(d: Dustbin) { d.status == Filled }
  predicate IsEmpty(d: Dustbin) { d.status == Empty }

  predicate ReportDone(r: WasteReport)
  {
    r.status == SelfCleaned || r.status == Completed
  }

  predicate DriveDone(d: CleanupDrive)
  {
    d.status == DriveCompleted || d.status == Approved
  }

  /** Rows of the user table: the non-admin users, in order. */
  function UserRows(users: seq<User>): seq<User>
  {
    Filter(users, IsRegularUser)
  }

  function ReportsWithStatus(rs: seq<WasteReport>, status: ReportStatus): nat
  {
    |Filter(rs, (r: WasteReport) => r.status == status)|
  }

  datatype Statistics = Statistics(
    totalUsers: nat,
    totalDustbins: nat,
    filledDustbins: nat,
    totalReports: nat,
    completedReports: nat,
    totalCleanupDrives: nat,
    completedDrives: nat,
    totalPointsAwarded: int)

  function Stats(users: seq<User>, ds: seq<Dustbin>, rs: seq<WasteReport>,
                 cs: seq<CleanupDrive>, txs: seq<PointTransaction>): Statistics
  {
    Statistics(
      |Filter(users, IsRegularUser)|,
      |ds|,
      |Filter(ds, IsFilled)|,
      |rs|,
      |Filter(rs, ReportDone)|,
      |cs|,
      |Filter(cs, DriveDone)|,
      EarnedTotal(txs))
  }

  datatype Slice = Slice(name: string, value: nat)

  /** The dustbin pie chart: empty, then filled. */
  function DustbinChart(ds: seq<Dustbin>): seq<Slice>
  {
    [Slice("Empty", |Filter(ds, IsEmpty)|), Slice("Filled", |Filter(ds, IsFilled)|)]
  }

  /** The report status chart: one bucket per status. */
  function ReportChart(rs: seq<WasteReport>): seq<Slice>
  {
    [ Slice("Pending", ReportsWithStatus(rs, Pending)),
      Slice("Self Cleaned", ReportsWithStatus(rs, SelfCleaned)),
      Slice("Submitted to Authority", ReportsWithStatus(rs, SubmittedToAuthority)),
      Slice("Completed", ReportsWithStatus(rs, Completed)) ]
  }

  /** The empty and filled buckets share out all dustbins, and the filled
      bucket is the statistics card's figure. */
  lemma DustbinBucketsCoverAll(users: seq<User>, ds: seq<Dustbin>, rs: seq<WasteReport>,
                               cs: seq<CleanupDrive>, txs: seq<PointTransaction>)
    ensures DustbinChart(ds)[0].value + DustbinChart(ds)[1].value == Stats(users, ds, rs, cs, txs).totalDustbins
    ensures DustbinChart(ds)[1].value == Stats(users, ds, rs, cs, txs).filledDustbins
  {
    FilterSplit(ds, IsEmpty, IsFilled);
  }

  /** The four report buckets share out all reports, so the slices of the
      status chart add up to the number of reports. */
  lemma {:induction false} ReportBucketsCoverAll(rs: seq<WasteReport>)
    ensures ReportsWithStatus(rs, Pending) + ReportsWithStatus(rs, SelfCleaned)
          + ReportsWithStatus(rs, SubmittedToAuthority) + ReportsWithStatus(rs, Completed) == |rs|
    ensures var chart := ReportChart(rs);
      |chart| == 4 && chart[0].value + chart[1].value + chart[2].value + chart[3].value == |rs|
  {
    if rs != [] {
      ReportBucketsCoverAll(rs[1..]);
    }
  }

  /** The "completed" card counts the self-cleaned and completed buckets,
      so it never exceeds the number of reports. */
  lemma {:induction false} CompletedReportsAreTwoBuckets(rs: seq<WasteReport>)
    ensures |Filter(rs, ReportDone)| == ReportsWithStatus(rs, SelfCleaned) + ReportsWithStatus(rs, Completed)
    ensures |Filter(rs, ReportDone)| <= |rs|
  {
    if rs != [] {
      CompletedReportsAreTwoBuckets(rs[1..]);
    }
  }

  /** No card counts more completed items, or users, than there are rows. */
  lemma CompletedDrivesBounded(users: seq<User>, ds: seq<Dustbin>, rs: seq<WasteReport>,
                               cs: seq<CleanupDrive>, txs: seq<PointTransaction>)
    ensures Stats(users, ds, rs, cs, txs).completedDrives <= Stats(users, ds, rs, cs, txs).totalCleanupDrives
    ensures Stats(users, ds, rs, cs, txs).completedReports <= Stats(users, ds, rs, cs, txs).totalReports
    ensures Stats(users, ds, rs, cs, txs).totalUsers == |UserRows(users)|
  {
  }

  /** Position k holds the first user with that id. */
  predicate FirstWithId(users: seq<User>, id: string, k: int)
  {
    0 <= k < |users| && users[k].id == id && forall j :: 0 <= j < k ==> users[j].id != id
  }

  /** The lookup of a reporter or organizer: the first user with that id. */
  function FindUser(users: seq<User>, id: string): (r: Option<User>)
    ensures r.None? <==> forall u :: u in users ==> u.id != id
    ensures r.Some? ==> exists k :: FirstWithId(users, id, k) && users[k] == r.value
  {
    if users == [] then None
    else if users[0].id == id then
      assert FirstWithId(users, id, 0);
      Some(users[0])
    else
      var rest := FindUser(users[1..], id);
      if rest.Some? then
        var k :| FirstWithId(users[1..], id, k) && users[1..][k] == rest.value;
        assert FirstWithId(users, id, k + 1);
        rest
      else
        assert forall u :: u in users ==> u in users[1..] || u == users[0];
        rest
  }

  /** The name shown in a table row: an unknown id, or a user whose name is
      empty, shows as "Unknown". */
  function DisplayName(users: seq<User>, id: string): string
  {
    var found := FindUser(users, id);
    if found.Some? && found.value.name != "" then found.value.name else "Unknown"
  }

  lemma DisplayNameSpec(users: seq<User>, id: string)
    ensures (forall u :: u in users ==> u.id != id) ==> DisplayName(users, id) == "Unknown"
    ensures DisplayName(users, id) != "Unknown" ==>
      exists u :: u in users && u.id == id && u.name == DisplayName(users, id)
  {
  }

  /** When the first user with the id sits at position k, the row shows
      that user's name, or "Unknown" when the name is empty. */
  lemma DisplayNameOfFirst(users: seq<User>, id: string, k: int)
    requires FirstWithId(users, id, k)
    ensures DisplayName(users, id) == if users[k].name != "" then users[k].name else "Unknown"
  {
    assert users[k] in users;
    var found := FindUser(users, id);
    var j :| FirstWithId(users, id, j) && users[j] == found.value;
    assert !(j < k) && !(k < j);
  }

  datatype RowAction = View | MarkComplete | Approve

  function ReportActions(r: WasteReport): seq<RowAction>
  {
    [View] + (if r.status == Pending then [MarkComplete] else [])
  }

  function DriveActions(d: CleanupDrive): seq<RowAction>
  {
    [View] + (if d.status == DriveCompleted then [Approve] else [])
  }

  /** Every row can be viewed; "Mark Complete" is offered exactly for
      pending reports and "Approve" exactly for completed drives. */
  lemma RowActionsSpec(r: WasteReport, d: CleanupDrive)
    ensures View in ReportActions(r) && View in DriveActions(d)
    ensures MarkComplete in ReportActions(r) <==> r.status == Pending
    ensures Approve in DriveActions(d) <==> d.status == DriveCompleted
    ensures Approve !in ReportActions(r) && MarkComplete !in DriveActions(d)
  {
  }
}
