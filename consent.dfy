/** The consent banner (src/components/GDPRBanner.tsx): two independent
    check boxes and an accept button that hands control to the chat only
    when both are ticked. */
module Consent {

  class ConsentBanner {
    var acceptedTerms: bool
    var acceptedPrivacy: bool

    /** Both boxes start unticked. */
    constructor ()
      ensures !acceptedTerms && !acceptedPrivacy
    {
      acceptedTerms := false;
      acceptedPrivacy := false;
    }

    /** `canProceed`: a value derived from the two flags, never stored; it
        holds exactly when both boxes are ticked. */
    predicate CanProceed()
      reads this
    {
      acceptedTerms && acceptedPrivacy
    }

    /** The terms check box: sets its own flag only. */
    method SetTerms(checked: bool)
      modifies this
      ensures acceptedTerms == checked && acceptedPrivacy == old(acceptedPrivacy)
    {
      acceptedTerms := checked;
    }

    /** The privacy check box: sets its own flag only. */
    method SetPrivacy(checked: bool)
      modifies this
      ensures acceptedPrivacy == checked && acceptedTerms == old(acceptedTerms)
    {
      acceptedPrivacy := checked;
    }

    /** `handleAccept`: `fired` says whether the `onAccept` callback is
        invoked, which happens exactly when both boxes are ticked. The
        banner's own state is never changed. */
    method HandleAccept() returns (fired: bool)
      ensures fired <==> CanProceed()
      ensures fired <==> acceptedTerms && acceptedPrivacy
    {
      fired := false;
      if CanProceed() {
        fired := true;
      }
    }
  }
}
