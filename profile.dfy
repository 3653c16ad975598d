/** The profile page: the user's own transactions and totals, the
    achievements, recent activity, and the name/email editor. Without a
    user the page renders nothing. */
module Profile {
  import opened Types
  import opened Session
  import opened Seqs
  import opened Ledger

  datatype Achievement = Achievement(id: nat, title: string, description: string, earned: bool, icon: string)

  /** Points a user needs for "Green Warrior". */
  const GreenWarriorPoints := 500

  /** The four achievements: the first two are always shown as earned, the
      third follows the balance, the fourth is never earned. */
  function Achievements(user: User): seq<Achievement>
  {
    [ Achievement(1, "First Report", "Submitted your first waste report", true, "\U{1F3AF}"),
      Achievement(2, "Community Helper", "Joined a cleanup drive", true, "\U{1F91D}"),
      Achievement(3, "Green Warrior", "Earned 500+ Green Points", user.greenPoints >= GreenWarriorPoints, "\U{26A1}"),
      Achievement(4, "Eco Champion", "Cleaned 10+ waste areas", false, "\U{1F3C6}") ]
  }

  predicate IsAchieved(a: Achievement) { a.earned }

  /** "Green Warrior" is earned exactly at 500 points or more, and so the
      achievement count is 3 from 500 points on and 2 below. */
  lemma AchievementsSpec(user: User)
    ensures |Achievements(user)| == 4
    ensures Achievements(user)[2].title == "Green Warrior"
    ensures Achievements(user)[2].earned <==> user.greenPoints >= 500
    ensures |Filter(Achievements(user), IsAchieved)| == if user.greenPoints >= 500 then 3 else 2
  {
    var a := Achievements(user);
    assert Filter(a[4..], IsAchieved) == [];
    assert Filter(a[3..], IsAchieved) == [];
    assert |Filter(a[2..], IsAchieved)| == if a[2].earned then 1 else 0;
    assert |Filter(a[1..], IsAchieved)| == 1 + |Filter(a[2..], IsAchieved)|;
    assert |Filter(a, IsAchieved)| == 1 + |Filter(a[1..], IsAchieved)|;
  }

  datatype Summary = Summary(
    userTransactions: seq<PointTransaction>,
    totalEarned: int,
    totalRedeemed: int,
    achievementsEarned: nat,
    recentActivity: seq<PointTransaction>)

  /** What the page shows, or None when there is no user and nothing is
      rendered. */
  function ProfileSummary(user: Option<User>, txs: seq<PointTransaction>): Option<Summary>
  {
    if user.None? then None
    else
      var mine := OfUser(txs, user.value.id);
      Some(Summary(
        mine,
        EarnedTotal(mine),
        RedeemedTotal(mine),
        |Filter(Achievements(user.value), IsAchieved)|,
        Take(mine, 5)))
  }

  /** Nothing without a user; otherwise exactly the user's transactions in
      order, an earned total that counts only earned rows, a non-negative
      redeemed total, 2 or 3 achievements, and the first five of the user's
      transactions (all of them when there are fewer) as recent activity. */
  lemma ProfileSummarySpec(user: Option<User>, txs: seq<PointTransaction>)
    ensures ProfileSummary(user, txs).None? <==> user.None?
    ensures user.Some? ==>
      var s := ProfileSummary(user, txs).value;
      && (forall t :: t in s.userTransactions <==> t in txs && t.userId == user.value.id)
      && s.totalRedeemed >= 0
      && (s.achievementsEarned == 2 || s.achievementsEarned == 3)
      && s.totalEarned == Sum(s.userTransactions, EarnedPoints)
      && |s.recentActivity| == (if |s.userTransactions| <= 5 then |s.userTransactions| else 5)
      && s.recentActivity == s.userTransactions[..|s.recentActivity|]
  {
    if user.Some? {
      var mine := OfUser(txs, user.value.id);
      OfUserSpec(txs, user.value.id);
      EarnedTotalIsMaskedSum(mine);
      RedeemedTotalNonNegative(mine);
      AchievementsSpec(user.value);
    }
  }

  datatype ProfileForm = ProfileForm(name: string, email: string)

  /** The editor's fields as the page opens: the user's, or empty. */
  function InitialForm(user: Option<User>): ProfileForm
  {
    if user.Some? then ProfileForm(user.value.name, user.value.email) else ProfileForm("", "")
  }

  class ProfilePage {
    var isEditing: bool
    var form: ProfileForm
    const session: AuthSession

    constructor (session: AuthSession)
      ensures this.session == session
      ensures !isEditing && form == InitialForm(session.user)
    {
      this.session := session;
      isEditing := false;
      form := InitialForm(session.user);
    }

    method SetName(name: string)
      modifies this`form
      ensures form == old(form).(name := name)
    {
      form := form.(name := name);
    }

    method SetEmail(email: string)
      modifies this`form
      ensures form == old(form).(email := email)
    {
      form := form.(email := email);
    }

    /** `handleSave`: merges only name and email into the user (the balance
        and everything else stay), and leaves edit mode. */
    method HandleSave()
      modifies this`isEditing, session
      ensures !isEditing
      ensures old(session.user).None? ==> session.user.None?
      ensures old(session.user).Some? ==>
        session.user == Some(old(session.user).value.(name := form.name, email := form.email))
      ensures Balance(session.user) == Balance(old(session.user))
    {
      session.UpdateUser(ProfilePatch(form.name, form.email));
      isEditing := false;
    }

    /** The Edit / Save button. */
    method EditButton()
      modifies this`isEditing, session
      ensures old(isEditing) ==>
        && !isEditing
        && session.user == (if old(session.user).Some? then Some(old(session.user).value.(name := form.name, email := form.email)) else None)
      ensures !old(isEditing) ==> isEditing && session.user == old(session.user)
    {
      if isEditing {
        HandleSave();
      } else {
        isEditing := true;
      }
    }
  }
}
