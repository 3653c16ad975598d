/** The cleanup drive form. One form both creates and completes a drive:
    an after image at submit time makes it a completion. Submitting credits
    the user, hides the form, resets it and leaves with a message. No new
    drive record is stored; the drive list is seed data. */
module CleanupDrive {
  import opened Types
  import opened Session
  import Decimal

  datatype CleanupForm = CleanupForm(
    communityName: string,
    description: string,
    beforeImage: Image,
    afterImage: Image,
    latitude: real,
    longitude: real,
    address: string)

  const InitialForm := CleanupForm("", "", "", "", 0.0, 0.0, "")

  /** What a submission means, decided by the after image alone. */
  datatype DriveAction = Create | Complete

  function ActionFor(afterImage: Image): (action: DriveAction)
    ensures action == Complete <==> afterImage != ""
  {
    if afterImage != "" then Complete else Create
  }

  /** Green Points for a drive: 100 with an after image, otherwise 50. */
  function CleanupAward(afterImage: Image): (points: nat)
    ensures points == 50 || points == 100
    ensures points == 100 <==> afterImage != ""
  {
    if afterImage != "" then 100 else 50
  }

  /** The points box advertises 100 for a completion, and 50 plus a 50
      bonus for a creation. */
  datatype RewardHint = RewardHint(basePoints: nat, completionBonus: nat)

  function AdvertisedReward(afterImage: Image): RewardHint
  {
    if afterImage != "" then RewardHint(100, 0) else RewardHint(50, 50)
  }

  /** The advertised base is what a submission credits, and a creation's
      base plus bonus is what a completion credits. */
  lemma AdvertMatchesAward(afterImage: Image, completed: Image)
    requires completed != ""
    ensures AdvertisedReward(afterImage).basePoints == CleanupAward(afterImage)
    ensures AdvertisedReward("").basePoints + AdvertisedReward("").completionBonus == CleanupAward(completed)
  {
  }

  function SubmitLabel(afterImage: Image): string
  {
    if ActionFor(afterImage) == Complete then "Submit Completed Drive" else "Create Cleanup Drive"
  }

  /** The button reads "Submit Completed Drive" exactly when the
      submission will be a completion, and "Create Cleanup Drive" otherwise. */
  lemma LabelNamesAction(afterImage: Image)
    ensures SubmitLabel(afterImage) == "Submit Completed Drive" <==> ActionFor(afterImage) == Complete
    ensures SubmitLabel(afterImage) == "Create Cleanup Drive" <==> ActionFor(afterImage) == Create
  {
  }

  function SuccessMessage(afterImage: Image): string
  {
    "Cleanup drive " + (if ActionFor(afterImage) == Complete then "completed" else "created")
    + " successfully! You earned " + Decimal.FromNat(CleanupAward(afterImage)) + " Green Points."
  }

  /** The message names the action and quotes the award that was credited:
      its number reads back as `CleanupAward`. */
  lemma MessageQuotesAward(afterImage: Image)
    ensures var word := if afterImage != "" then "completed" else "created";
      var digits := Decimal.FromNat(CleanupAward(afterImage));
      && SuccessMessage(afterImage) == "Cleanup drive " + word + " successfully! You earned " + digits + " Green Points."
      && Decimal.ToNat(digits) == CleanupAward(afterImage)
  {
    Decimal.RoundTrip(CleanupAward(afterImage));
  }

  /** The submit button's `disabled` attribute: there is no in-flight flag. */
  predicate SubmitDisabled(form: CleanupForm)
  {
    form.address == "" || form.beforeImage == ""
  }

  /** The button starts disabled; picking a location and a before image on
      the fresh form enables it, whatever else is filled in; removing the
      before image disables it again. */
  lemma SubmitEnablement(form: CleanupForm, address: string, beforeImage: Image)
    ensures SubmitDisabled(InitialForm)
    ensures !SubmitDisabled(InitialForm.(address := address, beforeImage := beforeImage))
      <==> address != "" && beforeImage != ""
    ensures SubmitDisabled(form.(beforeImage := ""))
  {
  }

  /** The text fields the form marks as required: the browser refuses to
      submit the form while either is empty. */
  predicate RequiredFieldsFilled(form: CleanupForm)
  {
    form.communityName != "" && form.description != ""
  }

  datatype ImageSlot = Before | After

  class CleanupDrivePage {
    var showCreateForm: bool
    var showMap: bool
    var form: CleanupForm
    const session: AuthSession

    constructor (session: AuthSession)
      ensures this.session == session
      ensures !showCreateForm && !showMap && form == InitialForm
    {
      this.session := session;
      showCreateForm := false;
      showMap := false;
      form := InitialForm;
    }

    method OpenCreateForm()
      modifies this`showCreateForm
      ensures showCreateForm
    {
      showCreateForm := true;
    }

    /** The close button hides the form and keeps what was typed. */
    method CloseCreateForm()
      modifies this`showCreateForm
      ensures !showCreateForm
    {
      showCreateForm := false;
    }

    method ShowMap()
      modifies this`showMap
      ensures showMap
    {
      showMap := true;
    }

    method HandleLocationSelect(lat: real, lng: real, address: string)
      modifies this`form, this`showMap
      ensures form == old(form).(latitude := lat, longitude := lng, address := address)
      ensures !showMap
    {
      form := form.(latitude := lat, longitude := lng, address := address);
      showMap := false;
    }

    method SetImage(slot: ImageSlot, url: Image)
      modifies this`form
      ensures form == if slot == Before then old(form).(beforeImage := url) else old(form).(afterImage := url)
    {
      match slot {
        case Before => form := form.(beforeImage := url);
        case After => form := form.(afterImage := url);
      }
    }

    method SetCommunityName(communityName: string)
      modifies this`form
      ensures form == old(form).(communityName := communityName)
    {
      form := form.(communityName := communityName);
    }

    method SetDescription(description: string)
      modifies this`form
      ensures form == old(form).(description := description)
    {
      form := form.(description := description);
    }

    /** `handleSubmit` as one atomic step: without a user nothing happens;
        otherwise the user is credited with the award for the submitted
        form, the form is hidden and emptied, and the message quotes that
        same award. */
    method HandleSubmit() returns (message: Option<string>)
      modifies this`showCreateForm, this`form, session
      ensures old(session.user).None? ==>
        && message.None? && session.user == old(session.user)
        && form == old(form) && showCreateForm == old(showCreateForm)
      ensures old(session.user).Some? ==>
        && session.user == Credited(old(session.user), CleanupAward(old(form).afterImage))
        && !showCreateForm && form == InitialForm
        && message == Some(SuccessMessage(old(form).afterImage))
    {
      if session.user.None? {
        return None;
      }
      var user := session.user.value;
      var submitted := form;
      var points := if submitted.afterImage != "" then 100 else 50;
      session.UpdateUser(PointsPatch(user.greenPoints + points));
      showCreateForm := false;
      form := CleanupForm("", "", "", "", 0.0, 0.0, "");
      message := Some(SuccessMessage(submitted.afterImage));
    }

    /** Submitting the form from the browser: nothing happens while the
        button is disabled or a required text field is empty; otherwise the
        submit handler runs. Every credited drive had a name, a description,
        a location and a before image. */
    method SubmitForm() returns (message: Option<string>)
      modifies this`showCreateForm, this`form, session
      ensures SubmitDisabled(old(form)) || !RequiredFieldsFilled(old(form)) || old(session.user).None? ==>
        && message.None? && session.user == old(session.user)
        && form == old(form) && showCreateForm == old(showCreateForm)
      ensures !SubmitDisabled(old(form)) && RequiredFieldsFilled(old(form)) && old(session.user).Some? ==>
        && session.user == Credited(old(session.user), CleanupAward(old(form).afterImage))
        && !showCreateForm && form == InitialForm
        && message == Some(SuccessMessage(old(form).afterImage))
      ensures message.Some? ==>
        && old(form).communityName != "" && old(form).description != ""
        && old(form).address != "" && old(form).beforeImage != ""
    {
      if SubmitDisabled(form) || !RequiredFieldsFilled(form) {
        return None;
      }
      message := HandleSubmit();
    }
  }
}
