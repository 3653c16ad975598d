/** A session that runs across the map and the rewards page, starting
    from the seed dustbins and offers: a user with 40 Green Points cannot
    redeem the 50-point bag, reports two empty dustbins as filled, and can
    then redeem it, keeping 10 points. Reporting the same dustbin twice
    would have earned only 10, since the second toggle empties it again. */
module Scenario {
  import opened Types
  import opened Session
  import opened MapComponent
  import opened Rewards
  import opened MockData

  /** The "Free Reusable Bag" offer, 50 points. */
  function Bag(): Offer
  {
    PartnerStores[0].offers[1]
  }

  const Morning: Timestamp := "2024-01-26T09:00:00Z"
  const Later: Timestamp := "2024-01-26T09:05:00Z"

  /** Seed dustbins "1" and "3" are empty, and toggling "1" leaves "3" so. */
  lemma SeedTogglesFill(actor: string)
    ensures ToggleAward(Dustbins, "1") == 10
    ensures ToggleAward(Toggled(Dustbins, "1", actor, Morning), "3") == 10
  {
    assert Dustbins[0].id == "1" && Dustbins[0].status == Empty;
    assert BecomesFilled(Dustbins, "1");
    ToggledAt(Dustbins, "1", actor, Morning, 2);
    assert Dustbins[2].id == "3" && Dustbins[2].status == Empty;
    assert BecomesFilled(Toggled(Dustbins, "1", actor, Morning), "3");
  }

  method EarnThenRedeem() returns (buttonAt40: RedeemButton, buttonAt60: RedeemButton, alert: Option<string>, balance: int)
    ensures buttonAt40 == NeedMore(10)
    ensures buttonAt60 == RedeemNow
    ensures alert == Some(RedeemedAlert("Free Reusable Bag"))
    ensures balance == 10
  {
    var user := Users[0].(greenPoints := 40);
    var session := new AuthSession(Some(user));
    var mapState := new MapState(session, Dustbins);
    var page := new RewardsPage(session);
    var offer := Bag();
    assert offer.pointsRequired == 50 && offer.title == "Free Reusable Bag";
    buttonAt40 := ButtonFor(session.user, offer);
    page.HandleRedeem(offer);

    SeedTogglesFill(user.id);
    mapState.ToggleDustbinStatus("1", Morning);
    assert session.user == Some(user.(greenPoints := 50));
    mapState.ToggleDustbinStatus("3", Later);
    assert session.user == Some(user.(greenPoints := 60));

    buttonAt60 := ButtonFor(session.user, offer);
    page.HandleRedeem(offer);
    alert := page.ConfirmRedeem();
    balance := Balance(session.user);
  }

  /** Two toggles of one dustbin bring its status back and credit 10 once. */
  method ToggleSameTwice() returns (gained: int, restored: bool)
    ensures gained == 10 && restored
  {
    var session := new AuthSession(Some(Users[0]));
    var mapState := new MapState(session, Dustbins);
    var before := Balance(session.user);

    assert BecomesFilled(Dustbins, "1") by { assert Dustbins[0].id == "1"; }
    mapState.ToggleDustbinStatus("1", Morning);
    var once := mapState.dustbins;
    assert !BecomesFilled(once, "1") by {
      SeedDustbinIds();
      forall k | 0 <= k < |once| && once[k].id == "1" ensures once[k].status != Empty {
        ToggledAt(Dustbins, "1", Users[0].id, Morning, k);
      }
    }
    mapState.ToggleDustbinStatus("1", Later);

    gained := Balance(session.user) - before;
    ToggleTwiceRestoresStatus(Dustbins, "1", Users[0].id, Morning, Users[0].id, Later);
    restored := mapState.dustbins[0].status == Dustbins[0].status;
  }
}
