/**
 * `ParticipationView`: the form state of the participation screen, its two
 * validity rules, the mutually exclusive health-data source toggles, the
 * agreement overlay selection, the provider buttons and `resetForm`.
 */
module ParticipationScreen {
  import opened Wrappers
  import opened Participation

  const ConsentRequiredMessage: string := "모든 약관에 동의해주세요"

  datatype AgreementType = Terms | Privacy | Location

  /** The four "[보기]" buttons, one beside each consent toggle. */
  datatype AgreementButton = HealthDataButton | TermsButton | PrivacyButton | LocationButton

  /** The four consent toggles. */
  datatype Consent = HealthDataConsent | TermsConsent | PersonalInfoConsent | LocationConsent

  /** The agreement each "[보기]" button selects. */
  function AgreementFor(b: AgreementButton): (t: AgreementType)
    ensures t == Terms <==> b == HealthDataButton || b == TermsButton
  {
    match b
    case HealthDataButton => Terms
    case TermsButton => Terms
    case PrivacyButton => Privacy
    case LocationButton => Location
  }

  /** The health-data and terms buttons both show the terms; the other two
      show their own agreement, so no button shows the privacy policy but one. */
  lemma AgreementForCases(b: AgreementButton)
    ensures AgreementFor(HealthDataButton) == AgreementFor(TermsButton) == Terms
    ensures AgreementFor(b) == Privacy <==> b == PrivacyButton
    ensures AgreementFor(b) == Location <==> b == LocationButton
  {
  }

  class ParticipationView {
    var email: string
    var password: string
    var showPassword: bool
    var showAgreementOverlay: bool
    var selectedLoginProvider: Option<string>
    var healthDataAgreement: bool
    var termsOfUse: bool
    var personalInfo: bool
    var locationInfo: bool
    var samsungHealthEnabled: bool
    var appleHealthEnabled: bool
    var selectedAgreement: Option<AgreementType>
    const viewModel: ParticipationViewModel

    /** The two health-data sources are never both selected. */
    ghost predicate Valid()
      reads this
    {
      !(samsungHealthEnabled && appleHealthEnabled)
    }

    /** Whether the toggle for `c` is on. */
    predicate ConsentOn(c: Consent)
      reads this
    {
      match c
      case HealthDataConsent => healthDataAgreement
      case TermsConsent => termsOfUse
      case PersonalInfoConsent => personalInfo
      case LocationConsent => locationInfo
    }

    /** `isAgreementValid`. */
    predicate IsAgreementValid()
      reads this
      ensures IsAgreementValid() ==> forall c :: ConsentOn(c)
    {
      healthDataAgreement && termsOfUse && personalInfo && locationInfo
    }

    /** `isFormValid`, spelled out as in the view. */
    predicate IsFormValid()
      reads this
      ensures IsFormValid() ==> IsAgreementValid() && |email| > 0 && |password| > 0
    {
      email != "" && password != "" &&
      (healthDataAgreement && termsOfUse && personalInfo && locationInfo)
    }

    /** The type the overlay shows: the selected agreement, the terms when none is. */
    function OverlayType(): (t: AgreementType)
      reads this
      ensures selectedAgreement.Some? ==> t == selectedAgreement.value
      ensures t == Terms <==> selectedAgreement == None || selectedAgreement == Some(Terms)
    {
      selectedAgreement.GetOr(Terms)
    }

    constructor (viewModel: ParticipationViewModel)
      ensures Valid() && this.viewModel == viewModel
      ensures email == "" && password == "" && !showPassword && !showAgreementOverlay
      ensures selectedLoginProvider == None && selectedAgreement == None
      ensures !healthDataAgreement && !termsOfUse && !personalInfo && !locationInfo
      ensures !samsungHealthEnabled && !appleHealthEnabled
    {
      email := "";
      password := "";
      showPassword := false;
      showAgreementOverlay := false;
      selectedLoginProvider := None;
      healthDataAgreement := false;
      termsOfUse := false;
      personalInfo := false;
      locationInfo := false;
      samsungHealthEnabled := false;
      appleHealthEnabled := false;
      selectedAgreement := None;
      this.viewModel := viewModel;
    }

    /** A consent toggle's binding writes its field and only that field.
        Turning any consent off invalidates the agreement; turning one on
        validates it exactly when the other three are already on. */
    method SetConsent(c: Consent, value: bool)
      requires Valid()
      modifies this`healthDataAgreement, this`termsOfUse, this`personalInfo, this`locationInfo
      ensures Valid()
      ensures ConsentOn(c) == value
      ensures forall d :: d != c ==> ConsentOn(d) == old(ConsentOn(d))
      ensures !value ==> !IsAgreementValid()
      ensures IsAgreementValid() <==> value && forall d :: d != c ==> old(ConsentOn(d))
    {
      match c {
        case HealthDataConsent => healthDataAgreement := value;
        case TermsConsent => termsOfUse := value;
        case PersonalInfoConsent => personalInfo := value;
        case LocationConsent => locationInfo := value;
      }
      AgreementValidIffEveryConsent(this);
    }

    /** The Samsung Health toggle's setter: turning it on turns Apple Health
        off; turning it off is ignored. */
    method SetSamsungHealth(newValue: bool)
      requires Valid()
      modifies this`samsungHealthEnabled, this`appleHealthEnabled
      ensures Valid()
      ensures newValue ==> samsungHealthEnabled && !appleHealthEnabled
      ensures !newValue ==> samsungHealthEnabled == old(samsungHealthEnabled) &&
                            appleHealthEnabled == old(appleHealthEnabled)
    {
      if newValue {
        samsungHealthEnabled := true;
        appleHealthEnabled := false;
      }
    }

    /** The Apple Health toggle's setter, symmetric to Samsung's. */
    method SetAppleHealth(newValue: bool)
      requires Valid()
      modifies this`samsungHealthEnabled, this`appleHealthEnabled
      ensures Valid()
      ensures newValue ==> appleHealthEnabled && !samsungHealthEnabled
      ensures !newValue ==> samsungHealthEnabled == old(samsungHealthEnabled) &&
                            appleHealthEnabled == old(appleHealthEnabled)
    {
      if newValue {
        appleHealthEnabled := true;
        samsungHealthEnabled := false;
      }
    }

    /** A "[보기]" button: select its agreement and show the overlay. */
    method ShowAgreement(b: AgreementButton)
      requires Valid()
      modifies this`selectedAgreement, this`showAgreementOverlay
      ensures Valid()
      ensures selectedAgreement == Some(AgreementFor(b)) && showAgreementOverlay
      ensures OverlayType() == AgreementFor(b)
    {
      selectedAgreement := Some(AgreementFor(b));
      showAgreementOverlay := true;
    }

    /** A provider button. With all consents given it runs the sign-in
        (`reply` is the service's answer); otherwise it shows the consent
        message and starts nothing. */
    method PressProviderButton(provider: AuthProvider, reply: Result<AuthenticationResult, Failure>,
                               defaults: UserDefaultsStore)
      returns (started: bool)
      requires Valid()
      modifies viewModel, defaults
      ensures Valid()
      ensures started <==> IsAgreementValid()
      ensures !started ==> viewModel.showError && viewModel.errorMessage == ConsentRequiredMessage
      ensures !started ==> viewModel.isLoading == old(viewModel.isLoading) &&
                           viewModel.showSuccess == old(viewModel.showSuccess) &&
                           defaults.userId == old(defaults.userId)
      ensures viewModel.projects == old(viewModel.projects)
      ensures started ==> viewModel.Settled() && (viewModel.showSuccess <==> reply.Ok?)
      ensures started && reply.Ok? ==> defaults.userId == Some(reply.value.userId)
      ensures started && reply.Ok? ==> viewModel.errorMessage == old(viewModel.errorMessage)
      ensures started && reply.Err? ==> defaults.userId == old(defaults.userId)
      ensures started && reply.Err? ==> viewModel.errorMessage == ErrorMessage(reply.error)
    {
      if IsAgreementValid() {
        viewModel.AuthenticateAndFetchHealth(provider, reply, defaults);
        started := true;
      } else {
        viewModel.errorMessage := ConsentRequiredMessage;
        viewModel.showError := true;
        started := false;
      }
    }

    /** `resetForm()`: clears the credentials, the consents, the provider and
        both sources; the password visibility and the overlay are left alone. */
    method ResetForm()
      requires Valid()
      modifies this
      ensures Valid()
      ensures email == "" && password == "" && selectedLoginProvider == None
      ensures !healthDataAgreement && !termsOfUse && !personalInfo && !locationInfo
      ensures !samsungHealthEnabled && !appleHealthEnabled
      ensures !IsFormValid() && !IsAgreementValid()
      ensures showPassword == old(showPassword) && showAgreementOverlay == old(showAgreementOverlay)
      ensures selectedAgreement == old(selectedAgreement)
    {
      email := "";
      password := "";
      healthDataAgreement := false;
      termsOfUse := false;
      personalInfo := false;
      locationInfo := false;
      selectedLoginProvider := None;
      samsungHealthEnabled := false;
      appleHealthEnabled := false;
    }
  }

  /** The agreement is valid exactly when every consent toggle is on; by
      duality, one consent left off is enough to block the provider buttons. */
  lemma AgreementValidIffEveryConsent(v: ParticipationView)
    ensures v.IsAgreementValid() <==> forall c :: v.ConsentOn(c)
  {
    if !v.IsAgreementValid() {
      if !v.healthDataAgreement { assert !v.ConsentOn(HealthDataConsent); }
      else if !v.termsOfUse { assert !v.ConsentOn(TermsConsent); }
      else if !v.personalInfo { assert !v.ConsentOn(PersonalInfoConsent); }
      else { assert !v.ConsentOn(LocationConsent); }
    }
  }

  /** Form validity is non-empty credentials plus agreement validity, so a
      valid form always has valid agreements. */
  lemma FormValidIffCredentialsAndAgreement(v: ParticipationView)
    ensures v.IsFormValid() <==> v.email != "" && v.password != "" && v.IsAgreementValid()
    ensures v.IsFormValid() ==> v.IsAgreementValid()
  {
  }
}
