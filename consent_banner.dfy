/** components/ConsentBanner.tsx: the consent gate in front of the upload
    area. The full banner has three checkboxes and offers the proceed
    button only once all three are ticked; the compact banner has no
    checkboxes and only a link that shows or hides the details. Calling
    `onConsentGiven` is modelled by what `OnProceed` returns. */
module Consent {

  /** What the banner shows below its text. */
  datatype View =
    | CompactNotice(detailsShown: bool)  // the compact banner, details open or closed
    | ProceedButton                      // full banner, every point accepted
    | AcceptAllNotice                    // full banner, "accept all points" hint

  /** The controls the rendered banner offers to the guest. */
  datatype Control = PrivacyBox | RightsBox | ConsentBox | DetailsLink | Proceed

  class ConsentBanner {
    const compact: bool
    var showDetails: bool
    var readPrivacy: bool
    var readRights: bool
    var readConsent: bool

    /** A freshly mounted banner: nothing ticked, details hidden. */
    constructor(compact: bool)
      ensures this.compact == compact
      ensures !showDetails && !readPrivacy && !readRights && !readConsent
    {
      this.compact := compact;
      showDetails := false;
      readPrivacy := false;
      readRights := false;
      readConsent := false;
    }

    /** `allConsentGiven`. */
    predicate AllConsentGiven()
      reads this
    {
      readPrivacy && readRights && readConsent
    }

    /** Which of the three layouts is rendered. */
    function Shown(): (v: View)
      reads this
      ensures v.CompactNotice? <==> compact
      ensures v.CompactNotice? ==> v.detailsShown == showDetails
      ensures v == ProceedButton <==> !compact && readPrivacy && readRights && readConsent
      ensures v == AcceptAllNotice <==> !compact && !(readPrivacy && readRights && readConsent)
    {
      if compact then CompactNotice(showDetails)
      else if AllConsentGiven() then ProceedButton
      else AcceptAllNotice
    }

    /** The controls present in what is rendered. */
    function Controls(): (cs: set<Control>)
      reads this
    {
      match Shown()
      case CompactNotice(_) => {DetailsLink}
      case ProceedButton => {PrivacyBox, RightsBox, ConsentBox, Proceed}
      case AcceptAllNotice => {PrivacyBox, RightsBox, ConsentBox}
    }

    /** The privacy checkbox's `onChange`: the flag follows the box. */
    method OnPrivacyChange(checked: bool)
      requires PrivacyBox in Controls()
      modifies this`readPrivacy
      ensures readPrivacy == checked
    {
      readPrivacy := checked;
    }

    /** The image-rights checkbox's `onChange`. */
    method OnRightsChange(checked: bool)
      requires RightsBox in Controls()
      modifies this`readRights
      ensures readRights == checked
    {
      readRights := checked;
    }

    /** The processing-consent checkbox's `onChange`. */
    method OnConsentChange(checked: bool)
      requires ConsentBox in Controls()
      modifies this`readConsent
      ensures readConsent == checked
    {
      readConsent := checked;
    }

    /** "Details anzeigen" flips the details. */
    method ToggleDetails()
      requires DetailsLink in Controls()
      modifies this`showDetails
      ensures showDetails == !old(showDetails)
    {
      showDetails := !showDetails;
    }

    /** The proceed button calls `onConsentGiven` and changes nothing. */
    method OnProceed() returns (consentGiven: bool)
      requires Proceed in Controls()
      ensures consentGiven && AllConsentGiven()
    {
      consentGiven := true;
    }
  }

  /** The proceed button is offered exactly when the full banner has all
      three points accepted; the compact banner never offers it. */
  lemma ProceedOfferedIff(b: ConsentBanner)
    ensures Proceed in b.Controls() <==> !b.compact && b.AllConsentGiven()
    ensures b.compact ==> b.Controls() == {DetailsLink}
  {
    if b.AllConsentGiven() && !b.compact {
      assert b.Controls() == {PrivacyBox, RightsBox, ConsentBox, Proceed};
    }
  }

  /** Unticking any one box withdraws the button, and the full banner
      always offers all three boxes, so each point can be revoked. */
  lemma UncheckRevokes(b: ConsentBanner)
    requires !b.compact
    ensures PrivacyBox in b.Controls() && RightsBox in b.Controls() && ConsentBox in b.Controls()
    ensures !b.readPrivacy || !b.readRights || !b.readConsent ==> b.Shown() == AcceptAllNotice
  {
  }

  /** On a full banner, whatever its flags, ticking the three boxes brings
      up the proceed button, which then reports consent. */
  method TickAllThenProceed(b: ConsentBanner) returns (consentGiven: bool)
    requires !b.compact
    modifies b
    ensures consentGiven
    ensures b.Shown() == ProceedButton
  {
    b.OnRightsChange(true);
    b.OnConsentChange(true);
    b.OnPrivacyChange(true);
    consentGiven := b.OnProceed();
  }

  /** Unticking a box after proceeding became possible withdraws it again
      and leaves the other two ticks in place. */
  method UntickAfterAll(b: ConsentBanner)
    requires !b.compact && b.AllConsentGiven()
    modifies b
    ensures !b.readRights && b.readPrivacy && b.readConsent
    ensures b.Shown() == AcceptAllNotice
  {
    b.OnRightsChange(false);
  }
}
