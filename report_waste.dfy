/** The waste report form: its state, the location picker callback, the
    submit-enable rule, the award policy and the submission, which credits
    the signed-in user and leaves with a success message. */
module ReportWaste {
  import opened Types
  import opened Session
  import Decimal

  datatype ReportForm = ReportForm(
    description: string,
    beforeImage: Image,
    afterImage: Image,
    cleanupType: CleanupType,
    latitude: real,
    longitude: real,
    address: string)

  /** The form as the page opens it: empty, reporting to the authority. */
  const InitialForm := ReportForm("", "", "", SubmitToAuthority, 0.0, 0.0, "")

  /** Green Points for a report: 50 for a self-clean with an after image,
      30 in every other case. */
  function ReportAward(cleanupType: CleanupType, afterImage: Image): (points: nat)
    ensures points == 30 || points == 50
    ensures points == 50 <==> cleanupType == SelfClean && afterImage != ""
  {
    if cleanupType == SelfClean then (if afterImage != "" then 50 else 30) else 30
  }

  /** What the points box under the form advertises: a base amount and a
      bonus for an after image. */
  datatype RewardHint = RewardHint(basePoints: nat, afterImageBonus: nat)

  function AdvertisedReward(cleanupType: CleanupType): RewardHint
  {
    if cleanupType == SelfClean then RewardHint(30, 20) else RewardHint(30, 0)
  }

  /** The advertised amounts add up to what a submission credits. */
  lemma AdvertMatchesAward(cleanupType: CleanupType, afterImage: Image)
    ensures var hint := AdvertisedReward(cleanupType);
      ReportAward(cleanupType, afterImage) == hint.basePoints + (if afterImage != "" then hint.afterImageBonus else 0)
  {
  }

  /** The submit button's `disabled` attribute. */
  predicate SubmitDisabled(isSubmitting: bool, form: ReportForm)
  {
    isSubmitting || form.address == "" || form.beforeImage == ""
  }

  /** The submit button starts disabled; picking a location and a before
      image on the fresh form enables it; a submission in flight or a
      removed before image disables it again. */
  lemma SubmitEnablement(form: ReportForm, address: string, beforeImage: Image)
    ensures SubmitDisabled(false, InitialForm)
    ensures !SubmitDisabled(false, InitialForm.(address := address, beforeImage := beforeImage))
      <==> address != "" && beforeImage != ""
    ensures SubmitDisabled(true, form) && SubmitDisabled(false, form.(beforeImage := ""))
  {
  }

  function SuccessMessage(points: nat): string
  {
    "Waste report submitted successfully! You earned " + Decimal.FromNat(points) + " Green Points."
  }

  /** The message quotes the credited points: its number reads back as
      the award. */
  lemma MessageQuotesAward(cleanupType: CleanupType, afterImage: Image)
    ensures var points := ReportAward(cleanupType, afterImage);
      var digits := Decimal.FromNat(points);
      && SuccessMessage(points) == "Waste report submitted successfully! You earned " + digits + " Green Points."
      && Decimal.ToNat(digits) == points
  {
    Decimal.RoundTrip(ReportAward(cleanupType, afterImage));
  }

  /** The text field the form marks as required: the browser refuses to
      submit the form while it is empty. */
  predicate RequiredFieldsFilled(form: ReportForm)
  {
    form.description != ""
  }

  datatype ImageSlot = Before | After

  class ReportWastePage {
    var form: ReportForm
    var isSubmitting: bool
    var showMap: bool
    const session: AuthSession

    constructor (session: AuthSession)
      ensures this.session == session
      ensures form == InitialForm && !isSubmitting && !showMap
      ensures SubmitDisabled(isSubmitting, form)
    {
      this.session := session;
      form := InitialForm;
      isSubmitting := false;
      showMap := false;
    }

    method ShowMap()
      modifies this`showMap
      ensures showMap
    {
      showMap := true;
    }

    /** The map picker's callback: sets the place and closes the map. */
    method HandleLocationSelect(lat: real, lng: real, address: string)
      modifies this`form, this`showMap
      ensures form == old(form).(latitude := lat, longitude := lng, address := address)
      ensures !showMap
    {
      form := form.(latitude := lat, longitude := lng, address := address);
      showMap := false;
    }

    /** The image a finished upload stores (the file reading itself is not
        modelled), or "" when the after image is removed. */
    method SetImage(slot: ImageSlot, url: Image)
      modifies this`form
      ensures form == if slot == Before then old(form).(beforeImage := url) else old(form).(afterImage := url)
    {
      match slot {
        case Before => form := form.(beforeImage := url);
        case After => form := form.(afterImage := url);
      }
    }

    method SetCleanupType(cleanupType: CleanupType)
      modifies this`form
      ensures form == old(form).(cleanupType := cleanupType)
    {
      form := form.(cleanupType := cleanupType);
    }

    method SetDescription(description: string)
      modifies this`form
      ensures form == old(form).(description := description)
    {
      form := form.(description := description);
    }

    /** `handleSubmit`, with the simulated delay taken as one atomic step:
        without a user nothing happens; otherwise the user is credited with
        the award for the form as submitted and a success message is
        returned for the home page. */
    method HandleSubmit() returns (message: Option<string>)
      modifies this`isSubmitting, session
      ensures old(session.user).None? ==>
        message.None? && session.user == old(session.user) && isSubmitting == old(isSubmitting)
      ensures old(session.user).Some? ==>
        var points := ReportAward(form.cleanupType, form.afterImage);
        && session.user == Credited(old(session.user), points)
        && message == Some(SuccessMessage(points))
        && !isSubmitting
    {
      if session.user.None? {
        return None;
      }
      var user := session.user.value;
      isSubmitting := true;
      var points := if form.cleanupType == SelfClean then (if form.afterImage != "" then 50 else 30) else 30;
      session.UpdateUser(PointsPatch(user.greenPoints + points));
      isSubmitting := false;
      message := Some(SuccessMessage(points));
    }

    /** Submitting the form from the browser: nothing happens while the
        button is disabled or the description is empty; otherwise the
        submit handler runs. A message is only ever produced for a form
        with a description, a location and a before image. */
    method SubmitForm() returns (message: Option<string>)
      modifies this`isSubmitting, session
      ensures SubmitDisabled(old(isSubmitting), form) || !RequiredFieldsFilled(form) || old(session.user).None? ==>
        message.None? && session.user == old(session.user) && isSubmitting == old(isSubmitting)
      ensures !SubmitDisabled(old(isSubmitting), form) && RequiredFieldsFilled(form) && old(session.user).Some? ==>
        && session.user == Credited(old(session.user), ReportAward(form.cleanupType, form.afterImage))
        && message == Some(SuccessMessage(ReportAward(form.cleanupType, form.afterImage)))
        && !isSubmitting
      ensures message.Some? ==> form.description != "" && form.address != "" && form.beforeImage != ""
    {
      if SubmitDisabled(isSubmitting, form) || !RequiredFieldsFilled(form) {
        return None;
      }
      message := HandleSubmit();
    }
  }
}
