/** Entity shapes of the CleanCity domain (users, dustbins, waste reports,
    cleanup drives, partner offers and point transactions). Every closed
    string union of the source becomes a datatype, every optional field an
    Option. Coordinates are opaque reals; timestamps are opaque strings. */
module Types {

  datatype Option<+T> = None | Some(value: T)

  /** ISO time stamps are produced by the clock; the model only carries them. */
  type Timestamp = string

  /** An image as the forms hold it: a data URL, where "" means "no image". */
  type Image = string

  datatype Role = RegularUser | Admin

  datatype User = User(
    id: string,
    name: string,
    email: string,
    greenPoints: int,
    role: Role,
    avatar: Option<string>,
    joinedAt: Timestamp)

  datatype DustbinStatus = Empty | Filled

  datatype Dustbin = Dustbin(
    id: string,
    latitude: real,
    longitude: real,
    status: DustbinStatus,
    lastUpdated: Timestamp,
    updatedBy: Option<string>,
    address: string)

  datatype ReportStatus = Pending | SelfCleaned | SubmittedToAuthority | Completed

  datatype CleanupType = SelfClean | SubmitToAuthority

  datatype WasteReport = WasteReport(
    id: string,
    userId: string,
    latitude: real,
    longitude: real,
    address: string,
    beforeImage: string,
    afterImage: Option<string>,
    status: ReportStatus,
    reportedAt: Timestamp,
    completedAt: Option<Timestamp>,
    description: string,
    cleanupType: CleanupType,
    pointsAwarded: int)

  datatype DriveStatus = Adopted | DriveCompleted | Approved

  datatype CleanupDrive = CleanupDrive(
    id: string,
    communityName: string,
    userId: string,
    latitude: real,
    longitude: real,
    address: string,
    beforeImage: string,
    afterImage: Option<string>,
    status: DriveStatus,
    adoptedAt: Timestamp,
    completedAt: Option<Timestamp>,
    approvedAt: Option<Timestamp>,
    pointsAwarded: int,
    description: string)

  datatype Offer = Offer(
    id: string,
    title: string,
    description: string,
    pointsRequired: int,
    validUntil: string,
    image: string)

  datatype PartnerStore = PartnerStore(
    id: string,
    name: string,
    logo: string,
    category: string,
    offers: seq<Offer>)

  datatype TransactionType = Earned | Redeemed

  /** `points` is signed: redemptions are stored as negative amounts. */
  datatype PointTransaction = PointTransaction(
    id: string,
    userId: string,
    points: int,
    kind: TransactionType,
    description: string,
    timestamp: Timestamp,
    relatedId: Option<string>)
}
