/**
 * The sign-up consent checkboxes. The component has no state of its own:
 * each checkbox change builds a new consent record and hands it, in order,
 * to the callbacks it was given. A change is modelled as the sequence of
 * callback calls it makes.
 */
module TermsCheckBoxes {
  import opened InfluencerRegisterSchema

  /** The five checkboxes. */
  datatype Box = AcceptAll | Terms | Compliance | Privacy | Marketing

  /** The props: the current consents, the privacy flag, and which optional callbacks were passed. */
  datatype Props = Props(consent: Consent, privacyPolicy: bool, hasPrivacyPolicyChange: bool, hasErrorClear: bool)

  /** A call of one of the three callbacks. */
  datatype Call = SetConsent(consent: Consent) | PrivacyPolicyChange(checked: bool) | ErrorClear

  /** "Accept all" is shown checked when the three consents are; the privacy flag plays no part. */
  predicate AllChecked(c: Consent)
  {
    c.termsAccepted && c.dataComplianceConsent && c.marketingOptIn
  }

  function Checked(p: Props, b: Box): bool
  {
    match b
    case AcceptAll => AllChecked(p.consent)
    case Terms => p.consent.termsAccepted
    case Compliance => p.consent.dataComplianceConsent
    case Privacy => p.privacyPolicy
    case Marketing => p.consent.marketingOptIn
  }

  /** `onErrorClear?.()`. */
  function ClearCall(p: Props): seq<Call>
  {
    if p.hasErrorClear then [ErrorClear] else []
  }

  /** `privacyPolicyChange?.(checked)`. */
  function PrivacyCall(p: Props, checked: bool): seq<Call>
  {
    if p.hasPrivacyPolicyChange then [PrivacyPolicyChange(checked)] else []
  }

  /** The calls `onCheckedChange` of box `b` makes, in order. */
  function OnCheckedChange(p: Props, b: Box, checked: bool): seq<Call>
  {
    match b
    case AcceptAll => [SetConsent(Consent(checked, checked, checked))] + PrivacyCall(p, checked) + ClearCall(p)
    case Terms => [SetConsent(p.consent.(termsAccepted := checked))] + ClearCall(p)
    case Compliance => [SetConsent(p.consent.(dataComplianceConsent := checked))] + ClearCall(p)
    case Privacy => PrivacyCall(p, checked) + ClearCall(p)
    case Marketing => [SetConsent(p.consent.(marketingOptIn := checked))] + ClearCall(p)
  }

  /** The consent a box controls, for the three consent boxes. */
  function Field(c: Consent, b: Box): bool
    requires b == Terms || b == Compliance || b == Marketing
  {
    match b
    case Terms => c.termsAccepted
    case Compliance => c.dataComplianceConsent
    case Marketing => c.marketingOptIn
  }

  // ---- Properties ----

  /** "Accept all" is checked exactly when terms, data compliance and marketing are, whatever the privacy flag. */
  lemma AcceptAllCheckedIff(p: Props, privacy: bool)
    ensures Checked(p, AcceptAll) <==> p.consent.termsAccepted && p.consent.dataComplianceConsent && p.consent.marketingOptIn
    ensures Checked(p.(privacyPolicy := privacy), AcceptAll) == Checked(p, AcceptAll)
  {
  }

  /** Toggling "accept all" sets all three consents to the new value and forwards it to the privacy callback. */
  lemma AcceptAllSetsEverything(p: Props, checked: bool)
    ensures var calls := OnCheckedChange(p, AcceptAll, checked);
      && calls[0] == SetConsent(Consent(checked, checked, checked))
      && AllChecked(calls[0].consent) == checked
      && (PrivacyPolicyChange(checked) in calls <==> p.hasPrivacyPolicyChange)
      && (forall v :: PrivacyPolicyChange(v) in calls ==> v == checked)
  {
  }

  /** Each individual consent box sets its own consent and leaves the other two as they were. */
  lemma IndividualBoxChangesOnlyItself(p: Props, b: Box, other: Box, checked: bool)
    requires b == Terms || b == Compliance || b == Marketing
    requires other == Terms || other == Compliance || other == Marketing
    requires other != b
    ensures var calls := OnCheckedChange(p, b, checked);
      && calls[0].SetConsent?
      && Field(calls[0].consent, b) == checked
      && Field(calls[0].consent, other) == Field(p.consent, other)
      && (forall i :: 1 <= i < |calls| ==> !calls[i].SetConsent? && !calls[i].PrivacyPolicyChange?)
  {
  }

  /** The privacy box never builds a consent record. */
  lemma PrivacyBoxLeavesConsent(p: Props, checked: bool)
    ensures forall call :: call in OnCheckedChange(p, Privacy, checked) ==> !call.SetConsent?
    ensures p.hasPrivacyPolicyChange ==> OnCheckedChange(p, Privacy, checked)[0] == PrivacyPolicyChange(checked)
  {
  }

  /** Every change ends by calling `onErrorClear`, when one was given. */
  lemma EveryChangeClearsError(p: Props, b: Box, checked: bool)
    requires p.hasErrorClear
    ensures var calls := OnCheckedChange(p, b, checked); |calls| > 0 && calls[|calls| - 1] == ErrorClear
  {
  }
}
