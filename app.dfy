/**
 * The application shell (`App.tsx`): the empty document it starts from, and
 * the download gate formed by the `isVerified` and `isPaymentModalOpen` flags.
 * `window.print()` is a host side effect; it is recorded as a count of print
 * requests.
 */
module App {
  import opened ResumeTypes

  /** `initialData`: every text empty, every list empty. */
  function InitialData(): (d: ResumeData)
    ensures d.personalInfo == PersonalInfo("", "", "", "", "", "")
    ensures d.summary == ""
    ensures d.experience == [] && d.education == [] && d.skills == [] && d.projects == []
  {
    ResumeData(PersonalInfo("", "", "", "", "", ""), "", [], [], [], [])
  }

  /** The state `App` keeps with `useState`, plus the print requests made so far. */
  class AppState {
    var resumeData: ResumeData
    var activeSection: SectionType
    var isPaymentModalOpen: bool
    var isVerified: bool
    var printed: nat

    /** Nothing is ever printed before the payment is verified. */
    predicate Valid()
      reads this
    {
      printed > 0 ==> isVerified
    }

    constructor ()
      ensures Valid()
      ensures resumeData == InitialData() && activeSection == Personal
      ensures !isPaymentModalOpen && !isVerified && printed == 0
    {
      resumeData := InitialData();
      activeSection := Personal;
      isPaymentModalOpen := false;
      isVerified := false;
      printed := 0;
    }

    /**
     * `handleDownload`: an unverified user gets the payment modal and no
     * print; a verified one gets a print and the modal flag stays as it was.
     */
    method HandleDownload()
      requires Valid()
      modifies this
      ensures Valid()
      ensures !old(isVerified) ==> isPaymentModalOpen && printed == old(printed)
      ensures old(isVerified) ==> printed == old(printed) + 1 && isPaymentModalOpen == old(isPaymentModalOpen)
      ensures isVerified == old(isVerified)
      ensures resumeData == old(resumeData) && activeSection == old(activeSection)
    {
      if !isVerified {
        isPaymentModalOpen := true;
      } else {
        printed := printed + 1;
      }
    }

    /** `handleVerifyPayment`, the modal's `onVerify`. */
    method HandleVerifyPayment()
      requires Valid()
      modifies this
      ensures Valid()
      ensures isVerified
      ensures isPaymentModalOpen == old(isPaymentModalOpen) && printed == old(printed)
      ensures resumeData == old(resumeData) && activeSection == old(activeSection)
    {
      isVerified := true;
    }

    /** The modal's `onClose`: the modal flag drops, verification is kept. */
    method CloseModal()
      requires Valid()
      modifies this
      ensures Valid()
      ensures !isPaymentModalOpen
      ensures isVerified == old(isVerified) && printed == old(printed)
      ensures resumeData == old(resumeData) && activeSection == old(activeSection)
    {
      isPaymentModalOpen := false;
    }

    /** The editor's `onChange`: the whole document is replaced by the one passed. */
    method EditorChange(d: ResumeData)
      requires Valid()
      modifies this
      ensures Valid()
      ensures resumeData == d
      ensures isVerified == old(isVerified) && isPaymentModalOpen == old(isPaymentModalOpen)
      ensures printed == old(printed) && activeSection == old(activeSection)
    {
      resumeData := d;
    }

    /** The sidebar's `setActiveSection`. */
    method SelectSection(s: SectionType)
      requires Valid()
      modifies this
      ensures Valid()
      ensures activeSection == s
      ensures isVerified == old(isVerified) && isPaymentModalOpen == old(isPaymentModalOpen)
      ensures printed == old(printed) && resumeData == old(resumeData)
    {
      activeSection := s;
    }
  }
}
