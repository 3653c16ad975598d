/** The seed collections every page starts from, and what the dashboard,
    the profile page and the award policies make of them. */
module MockData {
  import opened Types
  import opened Seqs
  import opened Ledger
  import AdminDashboard
  import MapComponent
  import ReportWaste
  import DrivePage = CleanupDrive

  const Users: seq<User> := [
    User("1", "John Doe", "john@example.com", 450, RegularUser,
         Some("https://images.pexels.com/photos/2379004/pexels-photo-2379004.jpeg?auto=compress&cs=tinysrgb&w=150"),
         "2024-01-15T10:00:00Z"),
    User("2", "Jane Smith", "jane@example.com", 650, RegularUser,
         Some("https://images.pexels.com/photos/774909/pexels-photo-774909.jpeg?auto=compress&cs=tinysrgb&w=150"),
         "2024-01-20T14:30:00Z"),
    User("admin", "Admin User", "admin@cleancity.com", 0, Admin, None, "2024-01-01T00:00:00Z")
  ]

  const Dustbins: seq<Dustbin> := [
    Dustbin("1", 8.5241, 76.9366, Empty, "2024-01-25T10:00:00Z", Some("1"), "Secretariat, Thiruvananthapuram, Kerala"),
    Dustbin("2", 8.5074, 76.9570, Filled, "2024-01-25T09:30:00Z", Some("2"), "Technopark, Thiruvananthapuram, Kerala"),
    Dustbin("3", 8.5167, 76.9558, Empty, "2024-01-25T11:15:00Z", Some("1"), "Palayam, Thiruvananthapuram, Kerala"),
    Dustbin("4", 8.4855, 76.9492, Filled, "2024-01-25T08:45:00Z", Some("2"), "Kovalam Beach, Thiruvananthapuram, Kerala"),
    Dustbin("5", 8.5380, 76.9210, Empty, "2024-01-25T12:30:00Z", Some("1"), "Vellayani Lake, Thiruvananthapuram, Kerala"),
    Dustbin("6", 8.5622, 76.8820, Filled, "2024-01-25T07:20:00Z", Some("2"), "Neyyattinkara, Thiruvananthapuram, Kerala")
  ]

  const WasteReports: seq<WasteReport> := [
    WasteReport("1", "1", 8.5241, 76.9366, "MG Road, Thiruvananthapuram, Kerala",
      "https://images.pexels.com/photos/4173624/pexels-photo-4173624.jpeg?auto=compress&cs=tinysrgb&w=400",
      Some("https://images.pexels.com/photos/761297/pexels-photo-761297.jpeg?auto=compress&cs=tinysrgb&w=400"),
      SelfCleaned, "2024-01-24T14:30:00Z", Some("2024-01-24T16:00:00Z"),
      "Plastic bottles and food containers scattered near bus stop", SelfClean, 50),
    WasteReport("2", "2", 8.5074, 76.9570, "Kazhakuttom, Thiruvananthapuram, Kerala",
      "https://images.pexels.com/photos/9324547/pexels-photo-9324547.jpeg?auto=compress&cs=tinysrgb&w=400",
      None, SubmittedToAuthority, "2024-01-25T09:00:00Z", None,
      "Large pile of construction debris near IT park", SubmitToAuthority, 30)
  ]

  const CleanupDrives: seq<CleanupDrive> := [
    CleanupDrive("1", "Green Warriors Trivandrum", "1", 8.4855, 76.9492, "Kovalam Beach, Thiruvananthapuram, Kerala",
      "https://images.pexels.com/photos/9324663/pexels-photo-9324663.jpeg?auto=compress&cs=tinysrgb&w=400",
      Some("https://images.pexels.com/photos/5591564/pexels-photo-5591564.jpeg?auto=compress&cs=tinysrgb&w=400"),
      DriveCompleted, "2024-01-20T10:00:00Z", Some("2024-01-22T16:00:00Z"), Some("2024-01-23T09:00:00Z"),
      100, "Beach cleanup drive with 25 volunteers from local community"),
    CleanupDrive("2", "EcoFriends Kerala", "2", 8.5380, 76.9210, "Vellayani Lake, Thiruvananthapuram, Kerala",
      "https://images.pexels.com/photos/7656732/pexels-photo-7656732.jpeg?auto=compress&cs=tinysrgb&w=400",
      None, Adopted, "2024-01-25T08:00:00Z", None, None,
      0, "Weekend cleanup drive planned for lake area")
  ]

  const PartnerStores: seq<PartnerStore> := [
    PartnerStore("1", "EcoMart", "\U{1F6D2}", "Grocery", [
      Offer("1", "10% Off Organic Products", "Get 10% discount on all organic products", 100, "2024-12-31",
            "https://images.pexels.com/photos/1128678/pexels-photo-1128678.jpeg?auto=compress&cs=tinysrgb&w=300"),
      Offer("2", "Free Reusable Bag", "Get a free eco-friendly reusable shopping bag", 50, "2024-12-31",
            "https://images.pexels.com/photos/3962285/pexels-photo-3962285.jpeg?auto=compress&cs=tinysrgb&w=300")
    ]),
    PartnerStore("2", "Green Cafe", "\U{2615}", "Food & Beverage", [
      Offer("3", "Free Coffee", "Complimentary coffee for eco warriors", 75, "2024-12-31",
            "https://images.pexels.com/photos/302899/pexels-photo-302899.jpeg?auto=compress&cs=tinysrgb&w=300")
    ])
  ]

  const PointTransactions: seq<PointTransaction> := [
    PointTransaction("1", "1", 50, Earned, "Self-cleaned waste area", "2024-01-24T16:00:00Z", Some("1")),
    PointTransaction("2", "1", 10, Earned, "Updated dustbin status", "2024-01-25T10:00:00Z", None),
    PointTransaction("3", "1", -50, Redeemed, "Redeemed: Free Reusable Bag at EcoMart", "2024-01-25T12:00:00Z", None)
  ]

  /** An optional image as the forms hold it: "" when absent. */
  function ImageOrEmpty(image: Option<string>): Image
  {
    if image.Some? then image.value else ""
  }

  /** Three users, one of them the admin, so the dashboard counts two users
      and lists two rows. */
  lemma SeedUsers()
    ensures |Users| == 3 && Users[2].role == Admin
    ensures forall i :: 0 <= i < 2 ==> Users[i].role == RegularUser
    ensures AdminDashboard.Stats(Users, Dustbins, WasteReports, CleanupDrives, PointTransactions).totalUsers == 2
    ensures AdminDashboard.UserRows(Users) == Users[..2]
  {
    var p := AdminDashboard.IsRegularUser;
    assert Filter(Users[3..], p) == [];
    assert Filter(Users[2..], p) == [];
    assert Filter(Users[1..], p) == [Users[1]];
    assert Users[..2] == [Users[0], Users[1]];
  }

  /** Six dustbins whose ids are "1" to "6", so no two share an id. */
  lemma SeedDustbinIds()
    ensures |Dustbins| == 6 && MapComponent.DistinctIds(Dustbins)
    ensures forall k :: 0 <= k < 6 ==> Dustbins[k].id == [('1' as int + k) as char]
  {
    var ds := Dustbins;
    assert ds[0].id == "1" && ds[1].id == "2" && ds[2].id == "3";
    assert ds[3].id == "4" && ds[4].id == "5" && ds[5].id == "6";
    forall i, j | 0 <= i < j < |ds| ensures ds[i].id != ds[j].id {
      assert ds[i].id[0] != ds[j].id[0];
    }
  }

  /** Three of the seed dustbins are filled and three are empty. */
  lemma SeedDustbinCounts()
    ensures |Filter(Dustbins, AdminDashboard.IsFilled)| == 3
    ensures |Filter(Dustbins, AdminDashboard.IsEmpty)| == 3
  {
    var ds := Dustbins;
    var f := AdminDashboard.IsFilled;
    assert Filter(ds[6..], f) == [];
    assert |Filter(ds[5..], f)| == 1;
    assert |Filter(ds[4..], f)| == 1;
    assert |Filter(ds[3..], f)| == 2;
    assert |Filter(ds[2..], f)| == 2;
    assert |Filter(ds[1..], f)| == 3;
    assert |Filter(ds, f)| == 3;
    AdminDashboard.DustbinBucketsCoverAll(Users, ds, WasteReports, CleanupDrives, PointTransactions);
  }

  /** The seed reports carry what the report award policy gives them, and
      the seed drives carry 100 for the completed one and 0 for the one
      only adopted; every record has a before image. */
  lemma SeedAwards()
    ensures forall r :: r in WasteReports ==>
      r.pointsAwarded == ReportWaste.ReportAward(r.cleanupType, ImageOrEmpty(r.afterImage)) && r.beforeImage != ""
    ensures CleanupDrives[0].afterImage.Some?
      && CleanupDrives[0].pointsAwarded == DrivePage.CleanupAward(ImageOrEmpty(CleanupDrives[0].afterImage))
    ensures CleanupDrives[1].status == Adopted && CleanupDrives[1].pointsAwarded == 0
    ensures forall c :: c in CleanupDrives ==> c.beforeImage != ""
  {
  }

  /** The earned rows sum to 60 and the one redeemed row is -50, so the
      redeemed total is 50. */
  lemma SeedLedger()
    ensures EarnedTotal(PointTransactions) == 60
    ensures Filter(PointTransactions, IsRedeemed) == [PointTransactions[2]] && PointTransactions[2].points == -50
    ensures RedeemedTotal(PointTransactions) == 50
  {
    var txs := PointTransactions;
    assert Filter(txs[3..], IsEarned) == [];
    assert Filter(txs[2..], IsEarned) == [];
    assert Filter(txs[1..], IsEarned) == [txs[1]];
    assert Filter(txs, IsEarned) == [txs[0], txs[1]];
    assert Sum([txs[1]], PointsOf) == 10;
    assert Filter(txs[3..], IsRedeemed) == [];
    assert Filter(txs[2..], IsRedeemed) == [txs[2]];
    assert Filter(txs[1..], IsRedeemed) == [txs[2]];
    assert Sum([txs[2]], AbsPoints) == 50;
  }

  /** All seed rows belong to user "1" and net to 10, while that user's
      stored balance is 450: the ledger and the balance are kept apart. */
  lemma SeedBalanceIsNotLedger()
    ensures OfUser(PointTransactions, Users[0].id) == PointTransactions
    ensures Sum(PointTransactions, PointsOf) == 10
    ensures Users[0].greenPoints == 450
  {
    var txs := PointTransactions;
    FilterAll(txs, (t: PointTransaction) => t.userId == Users[0].id);
    assert Sum(txs[2..], PointsOf) == -50;
  }

  /** Every seed offer costs a positive 100, 50 or 75 points. */
  lemma SeedOffers()
    ensures |PartnerStores| == 2
    ensures PartnerStores[0].offers[0].pointsRequired == 100
    ensures PartnerStores[0].offers[1].pointsRequired == 50
    ensures PartnerStores[1].offers[0].pointsRequired == 75
    ensures forall s, o :: s in PartnerStores && o in s.offers ==> o.pointsRequired > 0
  {
  }
}
