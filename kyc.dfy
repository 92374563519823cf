/** The KYC wizard (app/kyc/index.tsx): four steps, a validation predicate
    per step over a nested form record, submission on the last step, and a
    skip that marks KYC complete. */
module Kyc {

  import opened Common
  import opened AuthState

  datatype PersonalInfo = PersonalInfo(
    firstName: string,
    lastName: string,
    dateOfBirth: string,
    nationality: string,
    phoneNumber: string,
    email: string,
    address: string,
    city: string,
    emirate: string,
    postalCode: string)

  /** Uploaded document references; None stands for `null`. */
  datatype Documents = Documents(emiratesId: Option<string>, passport: Option<string>, selfie: Option<string>)

  /** A truthy document reference: present and not the empty string. */
  predicate Uploaded(doc: Option<string>)
  {
    doc.Some? && doc.value != ""
  }

  datatype Verification = Verification(phoneVerified: bool, emailVerified: bool, documentsVerified: bool)

  datatype KycData = KycData(personalInfo: PersonalInfo, documents: Documents, verification: Verification)

  /** The form's initial contents. */
  const InitialData := KycData(
    PersonalInfo("", "", "", "United Arab Emirates", "", "", "", "", "Dubai", ""),
    Documents(None, None, None),
    Verification(false, false, false))

  /** `steps.length`: Personal Information, Document Upload, Verification,
      Review & Submit. */
  const StepCount: nat := 4

  /** The placeholder URL every simulated upload stores. */
  const MockImageUrl := "https://images.pexels.com/photos/6801648/pexels-photo-6801648.jpeg?auto=compress&cs=tinysrgb&w=300&h=200&dpr=1"

  datatype PersonalField =
    FirstName | LastName | DateOfBirth | Nationality | PhoneNumber | Email | Address | City | Emirate | PostalCode

  datatype DocumentKind = EmiratesId | Passport | Selfie

  datatype VerificationKind = Phone | EmailAddress

  /** The dialogs a failed validation shows. */
  datatype KycError = MissingPersonalFields | MissingDocuments | VerificationIncomplete
  {
    function Message(): string
    {
      match this
      case MissingPersonalFields => "Please fill in all required fields"
      case MissingDocuments => "Please upload all required documents"
      case VerificationIncomplete => "Please complete all verification steps"
    }
  }

  /** `validateCurrentStep`: the error of the given step, or None when it
      passes. Steps other than 0, 1 and 2 always pass. */
  function ValidateStep(step: int, d: KycData): (r: Option<KycError>)
    ensures step == 0 ==> (r.None? <==>
      d.personalInfo.firstName != "" && d.personalInfo.lastName != "" &&
      d.personalInfo.dateOfBirth != "" && d.personalInfo.phoneNumber != "" &&
      d.personalInfo.email != "" && d.personalInfo.address != "")
    ensures step == 1 ==> (r.None? <==> Uploaded(d.documents.emiratesId) && Uploaded(d.documents.selfie))
    ensures step == 2 ==> (r.None? <==> d.verification.phoneVerified && d.verification.emailVerified)
    ensures step !in {0, 1, 2} ==> r.None?
    ensures r.Some? ==> r.value == [MissingPersonalFields, MissingDocuments, VerificationIncomplete][step]
  {
    match step
    case 0 =>
      var p := d.personalInfo;
      if p.firstName == "" || p.lastName == "" || p.dateOfBirth == "" ||
         p.phoneNumber == "" || p.email == "" || p.address == ""
      then Some(MissingPersonalFields) else None
    case 1 =>
      if !Uploaded(d.documents.emiratesId) || !Uploaded(d.documents.selfie) then Some(MissingDocuments) else None
    case 2 =>
      if !d.verification.phoneVerified || !d.verification.emailVerified then Some(VerificationIncomplete) else None
    case _ => None
  }

  /** City, postal code, nationality, emirate, the passport and the
      documents-verified flag are never checked by any step. */
  lemma ValidateIgnoresOptionalFields(step: int, d: KycData, city: string, postalCode: string,
                                      nationality: string, emirate: string, passport: Option<string>,
                                      documentsVerified: bool)
    ensures ValidateStep(step, d) == ValidateStep(step, KycData(
      d.personalInfo.(city := city, postalCode := postalCode, nationality := nationality, emirate := emirate),
      d.documents.(passport := passport),
      d.verification.(documentsVerified := documentsVerified)))
  {
  }

  /** A freshly opened form passes only the review step. */
  lemma InitialDataFailsFirstThreeSteps()
    ensures ValidateStep(0, InitialData) == Some(MissingPersonalFields)
    ensures ValidateStep(1, InitialData) == Some(MissingDocuments)
    ensures ValidateStep(2, InitialData) == Some(VerificationIncomplete)
    ensures ValidateStep(3, InitialData).None?
  {
  }

  function GetPersonal(p: PersonalInfo, field: PersonalField): string
  {
    match field
    case FirstName => p.firstName
    case LastName => p.lastName
    case DateOfBirth => p.dateOfBirth
    case Nationality => p.nationality
    case PhoneNumber => p.phoneNumber
    case Email => p.email
    case Address => p.address
    case City => p.city
    case Emirate => p.emirate
    case PostalCode => p.postalCode
  }

  /** `{...prev.personalInfo, [field]: value}`: the targeted field takes
      the value and every other field keeps its own. */
  function SetPersonal(p: PersonalInfo, field: PersonalField, value: string): (q: PersonalInfo)
    ensures forall g :: GetPersonal(q, g) == if g == field then value else GetPersonal(p, g)
  {
    match field
    case FirstName => p.(firstName := value)
    case LastName => p.(lastName := value)
    case DateOfBirth => p.(dateOfBirth := value)
    case Nationality => p.(nationality := value)
    case PhoneNumber => p.(phoneNumber := value)
    case Email => p.(email := value)
    case Address => p.(address := value)
    case City => p.(city := value)
    case Emirate => p.(emirate := value)
    case PostalCode => p.(postalCode := value)
  }

  function GetDocument(d: Documents, kind: DocumentKind): Option<string>
  {
    match kind
    case EmiratesId => d.emiratesId
    case Passport => d.passport
    case Selfie => d.selfie
  }

  /** `{...prev.documents, [type]: url}`. */
  function SetDocument(d: Documents, kind: DocumentKind, url: string): (e: Documents)
    ensures forall k :: GetDocument(e, k) == if k == kind then Some(url) else GetDocument(d, k)
  {
    match kind
    case EmiratesId => d.(emiratesId := Some(url))
    case Passport => d.(passport := Some(url))
    case Selfie => d.(selfie := Some(url))
  }

  /** Uploading the Emirates ID and the selfie, in either order and
      whatever else was uploaded, is what the document step needs. */
  lemma UploadsSatisfyDocumentStep(d: KycData, first: DocumentKind, second: DocumentKind)
    requires {first, second} == {EmiratesId, Selfie}
    ensures ValidateStep(1, d.(documents := SetDocument(SetDocument(d.documents, first, MockImageUrl), second, MockImageUrl))).None?
  {
    var e := SetDocument(SetDocument(d.documents, first, MockImageUrl), second, MockImageUrl);
    assert first == EmiratesId || second == EmiratesId by {
      assert EmiratesId in {first, second};
    }
    assert first == Selfie || second == Selfie by {
      assert Selfie in {first, second};
    }
    assert GetDocument(e, EmiratesId) == Some(MockImageUrl) && GetDocument(e, Selfie) == Some(MockImageUrl);
  }

  class KycScreen {
    var currentStep: int
    var showSkipModal: bool
    var kycData: KycData
    var isLoading: bool
    /** Every form submitted by `handleSubmit`, in order. */
    ghost var submissions: seq<KycData>
    /** The screen's own `useAuth()` instance. */
    const auth: Session

    ghost predicate Valid()
      reads this
    {
      0 <= currentStep < StepCount
    }

    constructor(auth: Session)
      ensures Valid() && currentStep == 0 && kycData == InitialData
      ensures !showSkipModal && !isLoading && submissions == [] && this.auth == auth
    {
      currentStep, showSkipModal, kycData, isLoading := 0, false, InitialData, false;
      submissions := [];
      this.auth := auth;
    }

    /** Advance by one step when the current step validates; on the last
        step submit instead. A failed validation changes nothing. */
    method HandleNext() returns (r: Option<KycError>)
      requires Valid()
      modifies this
      ensures Valid()
      ensures r == ValidateStep(old(currentStep), old(kycData))
      ensures kycData == old(kycData) && showSkipModal == old(showSkipModal)
      ensures r.Some? ==> currentStep == old(currentStep) && isLoading == old(isLoading) && submissions == old(submissions)
      ensures r.None? && old(currentStep) < StepCount - 1 ==>
                currentStep == old(currentStep) + 1 && isLoading == old(isLoading) && submissions == old(submissions)
      ensures r.None? && old(currentStep) == StepCount - 1 ==>
                currentStep == old(currentStep) && isLoading && submissions == old(submissions) + [kycData]
    {
      r := ValidateStep(currentStep, kycData);
      if r.None? {
        if currentStep < StepCount - 1 {
          currentStep := currentStep + 1;
        } else {
          HandleSubmit();
        }
      }
    }

    /** `handleSubmit` up to its simulated delay: the form is sent and the
        next button shows the loading state. */
    method HandleSubmit()
      modifies this
      ensures isLoading && submissions == old(submissions) + [kycData]
      ensures currentStep == old(currentStep) && kycData == old(kycData) && showSkipModal == old(showSkipModal)
    {
      isLoading := true;
      submissions := submissions + [kycData];
    }

    /** The delay has elapsed: the success dialog is up and the `finally`
        clears the loading state. */
    method SubmitSettled()
      modifies this
      ensures !isLoading
      ensures currentStep == old(currentStep) && kycData == old(kycData)
      ensures showSkipModal == old(showSkipModal) && submissions == old(submissions)
    {
      isLoading := false;
    }

    /** The success dialog's Continue: KYC is marked complete and the app
        moves to the main tabs. */
    method ContinueAfterSubmit() returns (route: Route)
      modifies auth, auth.store
      ensures route == TabsRoute
      ensures auth.Current() == old(auth.Current()).(hasCompletedKYC := true)
      ensures auth.store.entries == Saved(old(auth.store.entries), old(auth.Current()), auth.Current())
    {
      auth.CompleteKYC();
      route := TabsRoute;
    }

    /** Back one step with no validation; nothing happens on the first. */
    method HandlePrevious()
      requires Valid()
      modifies this
      ensures Valid()
      ensures currentStep == if old(currentStep) > 0 then old(currentStep) - 1 else old(currentStep)
      ensures kycData == old(kycData) && showSkipModal == old(showSkipModal)
      ensures isLoading == old(isLoading) && submissions == old(submissions)
    {
      if currentStep > 0 {
        currentStep := currentStep - 1;
      }
    }

    method HandleSkip()
      modifies this
      ensures showSkipModal
      ensures currentStep == old(currentStep) && kycData == old(kycData)
      ensures isLoading == old(isLoading) && submissions == old(submissions)
    {
      showSkipModal := true;
    }

    method HandleSkipCancel()
      modifies this
      ensures !showSkipModal
      ensures currentStep == old(currentStep) && kycData == old(kycData)
      ensures isLoading == old(isLoading) && submissions == old(submissions)
    {
      showSkipModal := false;
    }

    /** Skipping marks KYC complete whatever the step or the form holds,
        and routes to the main tabs. */
    method HandleSkipConfirm() returns (route: Route)
      modifies this, auth, auth.store
      ensures !showSkipModal && route == TabsRoute
      ensures auth.Current() == old(auth.Current()).(hasCompletedKYC := true)
      ensures auth.store.entries == Saved(old(auth.store.entries), old(auth.Current()), auth.Current())
      ensures currentStep == old(currentStep) && kycData == old(kycData)
      ensures isLoading == old(isLoading) && submissions == old(submissions)
    {
      showSkipModal := false;
      auth.CompleteKYC();
      route := TabsRoute;
    }

    /** A text input of the personal-information step. */
    method UpdatePersonalInfo(field: PersonalField, value: string)
      modifies this
      ensures kycData == old(kycData).(personalInfo := SetPersonal(old(kycData).personalInfo, field, value))
      ensures currentStep == old(currentStep) && showSkipModal == old(showSkipModal)
      ensures isLoading == old(isLoading) && submissions == old(submissions)
    {
      kycData := kycData.(personalInfo := SetPersonal(kycData.personalInfo, field, value));
    }

    /** A simulated upload stores the placeholder URL for that document. */
    method HandleDocumentUpload(kind: DocumentKind)
      modifies this
      ensures kycData == old(kycData).(documents := SetDocument(old(kycData).documents, kind, MockImageUrl))
      ensures currentStep == old(currentStep) && showSkipModal == old(showSkipModal)
      ensures isLoading == old(isLoading) && submissions == old(submissions)
    {
      kycData := kycData.(documents := SetDocument(kycData.documents, kind, MockImageUrl));
    }

    /** The OK of the "Verification Code Sent" dialog marks that channel
        verified. */
    method HandleVerification(kind: VerificationKind)
      modifies this
      ensures kycData.personalInfo == old(kycData).personalInfo && kycData.documents == old(kycData).documents
      ensures kycData.verification == match kind
        case Phone => old(kycData).verification.(phoneVerified := true)
        case EmailAddress => old(kycData).verification.(emailVerified := true)
      ensures currentStep == old(currentStep) && showSkipModal == old(showSkipModal)
      ensures isLoading == old(isLoading) && submissions == old(submissions)
    {
      match kind {
        case Phone =>
          kycData := kycData.(verification := kycData.verification.(phoneVerified := true));
        case EmailAddress =>
          kycData := kycData.(verification := kycData.verification.(emailVerified := true));
      }
    }
  }
}
