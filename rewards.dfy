/** The rewards page: the category filter over partner stores, the redeem
    button's state, the two-step redemption (select, then confirm or cancel)
    and the list of recent transactions. */
module Rewards {
  import opened Types
  import opened Session
  import opened Seqs
  import opened Ledger

  const AllCategories := "all"

  function FilteredStores(stores: seq<PartnerStore>, category: string): seq<PartnerStore>
  {
    if category == AllCategories then stores else Filter(stores, (s: PartnerStore) => s.category == category)
  }

  /** "all" shows every store; any other category shows exactly the stores
      of that category, in their order. */
  lemma FilteredStoresSpec(stores: seq<PartnerStore>, category: string)
    ensures category == AllCategories ==> FilteredStores(stores, category) == stores
    ensures category != AllCategories ==>
      && (forall s :: s in FilteredStores(stores, category) <==> s in stores && s.category == category)
      && (forall a, b :: FilteredStores(a + b, category) == FilteredStores(a, category) + FilteredStores(b, category))
  {
    if category != AllCategories {
      var p := (s: PartnerStore) => s.category == category;
      forall s | s in stores && s.category == category
        ensures s in FilteredStores(stores, category)
      {
        FilterKeeps(stores, p, s);
      }
      forall a, b
        ensures FilteredStores(a + b, category) == FilteredStores(a, category) + FilteredStores(b, category)
      {
        FilterConcat(a, b, p);
      }
    }
  }

  /** The gate of `handleRedeem` and the enabled state of the button. */
  predicate CanRedeem(user: Option<User>, offer: Offer)
  {
    user.Some? && user.value.greenPoints >= offer.pointsRequired
  }

  datatype RedeemButton = LoginToRedeem | RedeemNow | NeedMore(shortfall: int)

  /** The label of an offer's redeem button. */
  function ButtonFor(user: Option<User>, offer: Offer): RedeemButton
  {
    if user.None? then LoginToRedeem
    else if user.value.greenPoints >= offer.pointsRequired then RedeemNow
    else NeedMore(offer.pointsRequired - user.value.greenPoints)
  }

  /** The button is enabled exactly when it reads "Redeem Now"; with a user
      who cannot afford the offer it names a positive shortfall that would
      close the gap exactly. */
  lemma ButtonMatchesGate(user: Option<User>, offer: Offer)
    ensures ButtonFor(user, offer) == RedeemNow <==> CanRedeem(user, offer)
    ensures ButtonFor(user, offer) == LoginToRedeem <==> user.None?
    ensures user.Some? && !CanRedeem(user, offer) ==>
      && ButtonFor(user, offer).NeedMore?
      && ButtonFor(user, offer).shortfall > 0
      && user.value.greenPoints + ButtonFor(user, offer).shortfall == offer.pointsRequired
  {
  }

  /** "After Redemption" in the confirmation dialog (0 stands in for a
      missing user). */
  function PreviewBalance(user: Option<User>, offer: Offer): int
  {
    Balance(user) - offer.pointsRequired
  }

  /** The previewed balance is the one confirming produces, and it is not
      negative when the gate held. */
  lemma PreviewMatchesConfirm(user: User, offer: Offer)
    ensures Credited(Some(user), -offer.pointsRequired) == Some(user.(greenPoints := PreviewBalance(Some(user), offer)))
    ensures CanRedeem(Some(user), offer) ==> PreviewBalance(Some(user), offer) >= 0
  {
  }

  /** The transactions of the user that the page lists, at most five, or
      None when the section is hidden (no user, or none of theirs). */
  function RecentTransactions(user: Option<User>, txs: seq<PointTransaction>): Option<seq<PointTransaction>>
  {
    if user.None? then None
    else
      var mine := OfUser(txs, user.value.id);
      if |mine| > 0 then Some(Take(mine, 5)) else None
  }

  /** The section is shown exactly when there is a user with at least one
      transaction; it then lists the first five of the user's transactions
      (all of them when there are fewer), in their original order. */
  lemma RecentTransactionsSpec(user: Option<User>, txs: seq<PointTransaction>)
    ensures RecentTransactions(user, txs).Some? <==> user.Some? && |OfUser(txs, user.value.id)| > 0
    ensures user.Some? && RecentTransactions(user, txs).Some? ==>
      var n := |OfUser(txs, user.value.id)|;
      |RecentTransactions(user, txs).value| == if n <= 5 then n else 5
    ensures var r := RecentTransactions(user, txs);
      r.Some? ==>
        && user.Some? && 0 < |r.value| <= 5
        && (forall t :: t in r.value ==> t in txs && t.userId == user.value.id)
        && r.value == OfUser(txs, user.value.id)[..|r.value|]
  {
    if user.Some? {
      var mine := OfUser(txs, user.value.id);
      var r := Take(mine, 5);
      forall t | t in r ensures t in txs && t.userId == user.value.id {
        var i :| 0 <= i < |r| && r[i] == t;
        assert mine[i] == t;
      }
    }
  }

  /** The alert shown after a redemption. */
  function RedeemedAlert(title: string): string
  {
    "Successfully redeemed " + title + "! Check your email for the voucher code."
  }

  class RewardsPage {
    var selectedCategory: string
    var showRedeemModal: bool
    var selectedOffer: Option<Offer>
    const session: AuthSession

    constructor (session: AuthSession)
      ensures this.session == session
      ensures selectedCategory == AllCategories && !showRedeemModal && selectedOffer.None?
    {
      this.session := session;
      selectedCategory := AllCategories;
      showRedeemModal := false;
      selectedOffer := None;
    }

    method SelectCategory(category: string)
      modifies this`selectedCategory
      ensures selectedCategory == category
    {
      selectedCategory := category;
    }

    /** The confirmation dialog is drawn only with an offer selected. */
    predicate ModalVisible()
      reads this
    {
      showRedeemModal && selectedOffer.Some?
    }

    /** `handleRedeem(offer)`: opens the dialog for the offer when a user
        can afford it, and otherwise changes nothing. */
    method HandleRedeem(offer: Offer)
      modifies this`showRedeemModal, this`selectedOffer
      ensures CanRedeem(session.user, offer) ==> selectedOffer == Some(offer) && showRedeemModal
      ensures !CanRedeem(session.user, offer) ==>
        selectedOffer == old(selectedOffer) && showRedeemModal == old(showRedeemModal)
    {
      if session.user.None? || session.user.value.greenPoints < offer.pointsRequired {
        return;
      }
      selectedOffer := Some(offer);
      showRedeemModal := true;
    }

    /** `confirmRedeem`: with a user and a selected offer, deducts its cost
        without checking the balance again, closes the dialog and clears
        the selection; otherwise changes nothing. Returns the alert text. */
    method ConfirmRedeem() returns (alert: Option<string>)
      modifies this`showRedeemModal, this`selectedOffer, session
      ensures old(session.user).None? || old(selectedOffer).None? ==>
        && alert.None? && session.user == old(session.user)
        && showRedeemModal == old(showRedeemModal) && selectedOffer == old(selectedOffer)
      ensures old(session.user).Some? && old(selectedOffer).Some? ==>
        && session.user == Credited(old(session.user), -old(selectedOffer).value.pointsRequired)
        && !showRedeemModal && selectedOffer.None?
        && alert == Some(RedeemedAlert(old(selectedOffer).value.title))
    {
      if session.user.None? || selectedOffer.None? {
        return None;
      }
      var user := session.user.value;
      var offer := selectedOffer.value;
      session.UpdateUser(PointsPatch(user.greenPoints - offer.pointsRequired));
      showRedeemModal := false;
      selectedOffer := None;
      alert := Some(RedeemedAlert(offer.title));
    }

    /** The dialog's Cancel: closes it; the selection stays, nothing is paid. */
    method CancelRedeem()
      modifies this`showRedeemModal
      ensures !showRedeemModal && !ModalVisible()
    {
      showRedeemModal := false;
    }
  }
}
