/** The login screen for a chosen role: the shop owner signs in with a
    password form straight away; every other role first asks for an OTP and
    then signs in once all six slots are filled. A submit shows a loading
    state until the simulated network answer arrives. */
module Login {
  import opened Types
  import opened Text
  import OtpInput

  const OTP_LENGTH: nat := 6

  /** The colour and subtitle the screen uses for a role. */
  datatype Theme = Theme(color: string, desc: string)

  /** `getRoleTheme`. */
  function RoleTheme(role: UserRole, lang: Language): (th: Theme)
    ensures role == Customer ==> th.color == "green"
    ensures role == ShopOwner ==> th.color == "orange"
    ensures role == DeliveryPartner ==> th.color == "blue"
    ensures role == Admin ==> th.color == "gray"
    ensures th.desc == "" <==> role == Admin
  {
    match role
    case Customer =>
      Theme("green", if lang == English then "Quick OTP Login" else "விரைவான OTP உள்நுழைவு")
    case ShopOwner =>
      Theme("orange", if lang == English then "Merchant Dashboard Access" else "வணிகர் டேஷ்போர்டு அணுகல்")
    case DeliveryPartner =>
      Theme("blue", if lang == English then "Partner Secure Login" else "பார்ட்னர் பாதுகாப்பான உள்நுழைவு")
    case _ =>
      Theme("gray", "")
  }

  /** Each role has its own colour. */
  lemma ThemeColorsDistinct(r1: UserRole, r2: UserRole, lang1: Language, lang2: Language)
    requires RoleTheme(r1, lang1).color == RoleTheme(r2, lang2).color
    ensures r1 == r2
  {
  }

  /** The name an OTP login carries: the customer's, and the partner's for
      every other role that takes the OTP path (the admin included). */
  function OtpLoginName(role: UserRole): (r: string)
    ensures r == "Ravi Kumar" <==> role == Customer
    ensures r == "Vijay (Partner)" <==> role != Customer
  {
    if role == Customer then "Ravi Kumar" else "Vijay (Partner)"
  }

  /** The alert shown for an incomplete code. */
  function AlertMessage(lang: Language): string {
    if lang == English then "Please enter a valid 6-digit OTP"
    else "தயவுசெய்து சரியான 6-இலக்க OTP-ஐ உள்ளிடவும்"
  }

  /** `otp.join('').length === 6`. */
  predicate OtpComplete(slots: seq<string>) {
    |Join(slots)| == OTP_LENGTH
  }

  /** With six single-character slots, the joined code has six characters
      exactly when no slot is empty. */
  lemma OtpCompleteIffFilled(slots: seq<string>)
    requires |slots| == OTP_LENGTH && AtMostOneChar(slots)
    ensures OtpComplete(slots) <==> forall i :: 0 <= i < |slots| ==> slots[i] != ""
  {
    JoinLengthCountsFilled(slots);
  }

  /** What a submit comes to once the simulated delay is over. */
  datatype SubmitOutcome =
    | LoggedIn(user: User)
    | OtpStepShown
    | OtpRejected(message: string)

  /** The decision `handleSubmit`'s delayed callback takes, from the role,
      whether the OTP step was showing, and the slots at the time of submit. */
  function SubmitDecision(role: UserRole, showOtp: bool, slots: seq<string>, lang: Language): (r: SubmitOutcome)
    ensures role == ShopOwner ==> r == LoggedIn(User("Shop Manager", ShopOwner))
    ensures role != ShopOwner && !showOtp ==> r == OtpStepShown
    ensures role != ShopOwner && showOtp ==> (r.LoggedIn? <==> OtpComplete(slots))
    ensures r.LoggedIn? ==> r.user.role == role
    ensures r.LoggedIn? && role != ShopOwner ==> r.user.name == OtpLoginName(role)
    ensures r.OtpRejected? ==> r.message == AlertMessage(lang)
  {
    if role == ShopOwner then LoggedIn(User("Shop Manager", role))
    else if !showOtp then OtpStepShown
    else if OtpComplete(slots) then LoggedIn(User(OtpLoginName(role), role))
    else OtpRejected(AlertMessage(lang))
  }

  /** A role on the OTP path never signs in on the first submit, and signs
      in on a later one exactly when every slot is filled. */
  lemma OtpPathNeedsFilledCode(role: UserRole, slots: seq<string>, lang: Language)
    requires role != ShopOwner
    requires |slots| == OTP_LENGTH && AtMostOneChar(slots)
    ensures !SubmitDecision(role, false, slots, lang).LoggedIn?
    ensures SubmitDecision(role, true, slots, lang).LoggedIn? <==> forall i :: 0 <= i < |slots| ==> slots[i] != ""
  {
    OtpCompleteIffFilled(slots);
  }

  class LoginView {
    const role: UserRole
    const lang: Language
    /** The six code slots the OTP input edits. */
    const otp: array<string>
    var showOtp: bool
    var loading: bool
    /** The slots as they were when the pending submit was made; the delayed
        callback reads these. */
    var submittedOtp: seq<string>

    ghost predicate Valid()
      reads this, otp
    {
      && otp.Length == OTP_LENGTH
      && AtMostOneChar(otp[..])
      && |submittedOtp| == OTP_LENGTH
      && AtMostOneChar(submittedOtp)
    }

    constructor (role: UserRole, lang: Language)
      ensures Valid()
      ensures this.role == role && this.lang == lang
      ensures otp[..] == seq(OTP_LENGTH, _ => "")
      ensures !showOtp && !loading
      ensures fresh(otp)
    {
      this.role := role;
      this.lang := lang;
      otp := new string[OTP_LENGTH](_ => "");
      showOtp := false;
      loading := false;
      submittedOtp := seq(OTP_LENGTH, _ => "");
    }

    /** The form's submit; the button is disabled while a submit is pending. */
    method HandleSubmit() returns (started: bool)
      requires Valid()
      modifies this
      ensures Valid()
      ensures started == !old(loading)
      ensures started ==> loading && submittedOtp == otp[..]
      ensures !started ==> loading == old(loading) && submittedOtp == old(submittedOtp)
      ensures showOtp == old(showOtp)
    {
      started := !loading;
      if started {
        loading := true;
        submittedOtp := otp[..];
      }
    }

    /** The delayed callback of a pending submit. */
    method Resolve() returns (outcome: SubmitOutcome)
      requires Valid() && loading
      modifies this
      ensures Valid()
      ensures !loading
      ensures outcome == SubmitDecision(role, old(showOtp), old(submittedOtp), lang)
      ensures showOtp == (old(showOtp) || outcome == OtpStepShown)
      ensures submittedOtp == old(submittedOtp)
    {
      loading := false;
      outcome := SubmitDecision(role, showOtp, submittedOtp, lang);
      if outcome == OtpStepShown {
        showOtp := true;
      }
    }

    /** Typing into slot `index` of the OTP input, which is on screen only in
        the OTP step. The result is the slot to focus, if any. */
    method TypeOtp(index: nat, val: string, isNumeric: string -> bool) returns (focus: Option<nat>)
      requires Valid() && index < OTP_LENGTH
      modifies otp
      ensures Valid()
      ensures otp[..] == if showOtp then OtpInput.Changed(old(otp[..]), index, val, isNumeric) else old(otp[..])
      ensures !showOtp ==> focus == None
    {
      if !showOtp {
        return None;
      }
      OtpInput.ChangeKeepsSingleChars(otp[..], index, val, isNumeric);
      focus := OtpInput.HandleChange(otp, index, val, isNumeric);
    }

    /** Pasting into the OTP input. The result is the slot to focus. */
    method PasteOtp(data: string, isNumeric: string -> bool) returns (focus: Option<int>)
      requires Valid()
      modifies otp
      ensures Valid()
      ensures otp[..] == if showOtp then OtpInput.Pasted(old(otp[..]), data, isNumeric) else old(otp[..])
      ensures focus.Some? <==> showOtp
      ensures focus.Some? ==> 0 <= focus.value < OTP_LENGTH
    {
      if !showOtp {
        return None;
      }
      OtpInput.PasteKeepsSingleChars(otp[..], data, isNumeric);
      var f := OtpInput.HandlePaste(otp, data, isNumeric);
      focus := Some(f);
    }
  }

  /** The OTP way in for a role other than the shop owner: the first submit
      brings up the OTP step, a pasted all-digit code fills the six slots,
      and the second submit signs in under the role's login name. */
  method OtpSignIn(role: UserRole, lang: Language, code: string, isNumeric: string -> bool)
    returns (outcome: SubmitOutcome)
    requires role != ShopOwner
    requires |code| >= OTP_LENGTH && forall j :: 0 <= j < OTP_LENGTH ==> isNumeric([code[j]])
    ensures outcome == LoggedIn(User(OtpLoginName(role), role))
  {
    var view := new LoginView(role, lang);
    var started := view.HandleSubmit();
    outcome := view.Resolve();
    assert outcome == OtpStepShown;
    var before := view.otp[..];
    var focus := view.PasteOtp(code, isNumeric);
    OtpInput.PasteFillsRow(before, code, isNumeric);
    started := view.HandleSubmit();
    outcome := view.Resolve();
  }
}
