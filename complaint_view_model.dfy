/**
 * The complaint form's state holder: the kind of report, a subject picked
 * from a fixed list (or typed in for "Others"), the details, the attached
 * media, the per-field and snackbar errors, and the submit button's rule.
 * Attached media are content URIs, here strings.
 */
module ComplaintViewModel {
  import opened Wrappers
  import opened Text
  import opened Lists

  datatype ComplaintType = COMPLAINT | SUGGESTION

  type Uri = string

  const SubjectHint := "Select Subject..."
  const OthersSubject := "Others"

  /** The subject picker's entries; the first is the hint, not a subject. */
  const AvailableSubjects: seq<string> := [
    SubjectHint, "Water Supply", "Electricity", "Cleanliness", "Security", "Parking",
    "Park/Common Area", "Noise Issue", "Maintenance Request", OthersSubject ]

  const SelectSubjectMessage := "Please select a subject"
  const SpecifyOthersMessage := "Please specify the subject for 'Others'"
  const ProvideDetailsMessage := "Please provide details"
  const SubmissionSucceededMessage := "Submission Successful!"

  /** The picker's list: ten entries, the hint first and "Others" last, none twice. */
  lemma AvailableSubjectsShape()
    ensures |AvailableSubjects| == 10
    ensures AvailableSubjects[0] == SubjectHint && AvailableSubjects[9] == OthersSubject
    ensures NoDuplicates(AvailableSubjects)
  {
  }

  /** `isSubmitEnabled`'s combination of the four flows. */
  predicate SubmitEnabled(subject: string, otherSubject: string, details: string, loading: bool)
  {
    var subjectValid := subject != AvailableSubjects[0] && (subject != OthersSubject || !IsBlank(otherSubject));
    var detailsValid := !IsBlank(details);
    subjectValid && detailsValid && !loading
  }

  /** The subject error `validateForm` sets. */
  function SubjectErrorFor(subject: string, otherSubject: string): (e: Option<string>)
    ensures e == None || e == Some(SelectSubjectMessage) || e == Some(SpecifyOthersMessage)
    ensures e == Some(SelectSubjectMessage) <==> subject == SubjectHint
  {
    if subject == AvailableSubjects[0] then Some(SelectSubjectMessage)
    else if subject == OthersSubject && IsBlank(otherSubject) then Some(SpecifyOthersMessage)
    else None
  }

  /** The details error `validateForm` sets. */
  function DetailsErrorFor(details: string): (e: Option<string>)
    ensures e == None || e == Some(ProvideDetailsMessage)
    ensures e == None <==> !IsBlank(details)
  {
    if IsBlank(details) then Some(ProvideDetailsMessage) else None
  }

  /**
   * The button and the validation agree: while nothing is being submitted,
   * the submit button is enabled exactly when validating the form would set
   * no error, and while a submission runs it is disabled.
   */
  lemma SubmitEnabledIffNoErrors(subject: string, otherSubject: string, details: string, loading: bool)
    ensures SubmitEnabled(subject, otherSubject, details, loading)
            <==> !loading && SubjectErrorFor(subject, otherSubject) == None && DetailsErrorFor(details) == None
  {
  }

  class ComplaintViewModel {
    var selectedType: ComplaintType
    var selectedSubject: string
    var otherSubjectText: string
    var detailsText: string
    var selectedMediaUris: seq<Uri>
    var isLoading: bool
    var subjectError: Option<string>
    var detailsError: Option<string>
    var snackbarError: Option<string>

    /**
     * What every handler keeps: no medium is attached twice, and each error
     * field holds nothing or one of the messages meant for it.
     */
    predicate Valid()
      reads this
    {
      && NoDuplicates(selectedMediaUris)
      && (subjectError == None || subjectError == Some(SelectSubjectMessage) || subjectError == Some(SpecifyOthersMessage))
      && (detailsError == None || detailsError == Some(ProvideDetailsMessage))
      && (snackbarError == None || snackbarError == Some(SubmissionSucceededMessage))
    }

    /** `isSubmitEnabled`, read from the current state. */
    predicate IsSubmitEnabled()
      reads this
    {
      SubmitEnabled(selectedSubject, otherSubjectText, detailsText, isLoading)
    }

    /** A complaint, with the hint as subject and everything else empty. */
    constructor ()
      ensures Valid() && !IsSubmitEnabled()
      ensures selectedType == COMPLAINT && selectedSubject == SubjectHint
      ensures otherSubjectText == "" && detailsText == "" && selectedMediaUris == []
      ensures !isLoading && subjectError == None && detailsError == None && snackbarError == None
    {
      selectedType, selectedSubject, otherSubjectText, detailsText := COMPLAINT, AvailableSubjects[0], "", "";
      selectedMediaUris, isLoading := [], false;
      subjectError, detailsError, snackbarError := None, None, None;
    }

    method OnTypeSelected(t: ComplaintType)
      modifies this`selectedType
      ensures selectedType == t
    {
      selectedType := t;
    }

    /**
     * Picking a real subject clears the subject error (picking the hint
     * keeps it), and picking anything but "Others" clears the typed subject.
     */
    method OnSubjectSelected(subject: string)
      requires Valid()
      modifies this`selectedSubject, this`subjectError, this`otherSubjectText
      ensures Valid() && selectedSubject == subject
      ensures subjectError == (if subject != SubjectHint then None else old(subjectError))
      ensures otherSubjectText == (if subject != OthersSubject then "" else old(otherSubjectText))
    {
      selectedSubject := subject;
      if subject != AvailableSubjects[0] {
        subjectError := None;
      }
      if subject != OthersSubject {
        otherSubjectText := "";
      }
    }

    /** Typing a subject that is not blank while "Others" is picked clears the subject error. */
    method OnOtherSubjectChanged(text: string)
      requires Valid()
      modifies this`otherSubjectText, this`subjectError
      ensures Valid() && otherSubjectText == text
      ensures subjectError == (if selectedSubject == OthersSubject && !IsBlank(text) then None else old(subjectError))
    {
      otherSubjectText := text;
      if selectedSubject == OthersSubject && !IsBlank(text) {
        subjectError := None;
      }
    }

    /** Typing details that are not blank clears the details error. */
    method OnDetailsChanged(text: string)
      requires Valid()
      modifies this`detailsText, this`detailsError
      ensures Valid() && detailsText == text
      ensures detailsError == (if !IsBlank(text) then None else old(detailsError))
    {
      detailsText := text;
      if !IsBlank(text) {
        detailsError := None;
      }
    }

    /**
     * The new media are appended and repeats dropped: what was attached stays
     * attached, in front and in its order, and every new medium is attached.
     */
    method OnMediaSelected(uris: seq<Uri>)
      requires Valid()
      modifies this`selectedMediaUris
      ensures Valid() && selectedMediaUris == Distinct(old(selectedMediaUris) + uris)
      ensures |old(selectedMediaUris)| <= |selectedMediaUris|
      ensures selectedMediaUris[..|old(selectedMediaUris)|] == old(selectedMediaUris)
      ensures forall i :: 0 <= i < |uris| ==> uris[i] in selectedMediaUris
    {
      var before := selectedMediaUris;
      AppendDistinctKeepsOld(before, uris);
      DistinctHoldsAppended(before, uris);
      selectedMediaUris := Distinct(before + uris);
    }

    /** Every copy of the medium is detached and the others keep their order. */
    method OnRemoveMedia(uri: Uri)
      requires Valid()
      modifies this`selectedMediaUris
      ensures Valid() && selectedMediaUris == FilterNot(old(selectedMediaUris), uri)
      ensures uri !in selectedMediaUris
      ensures IsSubsequence(selectedMediaUris, old(selectedMediaUris))
      ensures |selectedMediaUris| == |old(selectedMediaUris)| - (if uri in old(selectedMediaUris) then 1 else 0)
    {
      var before := selectedMediaUris;
      FilterNotKeepsNoDuplicates(before, uri);
      FilterNotLength(before, uri);
      selectedMediaUris := FilterNot(before, uri);
    }

    /**
     * `validateForm`: sets both field errors from the current subject and
     * details and answers whether neither is set.
     */
    method ValidateForm() returns (isValid: bool)
      requires Valid()
      modifies this`subjectError, this`detailsError
      ensures Valid()
      ensures subjectError == SubjectErrorFor(selectedSubject, otherSubjectText)
      ensures detailsError == DetailsErrorFor(detailsText)
      ensures isValid <==> subjectError == None && detailsError == None
    {
      isValid := true;
      var subject := selectedSubject;
      var otherSubject := otherSubjectText;
      if subject == AvailableSubjects[0] {
        subjectError := Some(SelectSubjectMessage);
        isValid := false;
      } else if subject == OthersSubject && IsBlank(otherSubject) {
        subjectError := Some(SpecifyOthersMessage);
        isValid := false;
      } else {
        subjectError := None;
      }
      if IsBlank(detailsText) {
        detailsError := Some(ProvideDetailsMessage);
        isValid := false;
      } else {
        detailsError := None;
      }
    }

    /**
     * `onSubmitClicked` up to the simulated delay: a submission starts, and
     * the loading flag goes up, exactly when the form validates.
     */
    method OnSubmitClicked() returns (launched: bool)
      requires Valid()
      modifies this`subjectError, this`detailsError, this`isLoading
      ensures Valid()
      ensures subjectError == SubjectErrorFor(selectedSubject, otherSubjectText)
      ensures detailsError == DetailsErrorFor(detailsText)
      ensures launched <==> SubmitEnabled(selectedSubject, otherSubjectText, detailsText, false)
      ensures isLoading == (if launched then true else old(isLoading))
    {
      launched := ValidateForm();
      SubmitEnabledIffNoErrors(selectedSubject, otherSubjectText, detailsText, false);
      if launched {
        isLoading := true;
      }
    }

    /** The rest of the submission coroutine: the flag goes down and the simulated success is shown. */
    method CompleteSubmission()
      requires Valid()
      modifies this`isLoading, this`snackbarError
      ensures Valid() && !isLoading && snackbarError == Some(SubmissionSucceededMessage)
    {
      isLoading := false;
      snackbarError := Some(SubmissionSucceededMessage);
    }

    method ConsumeSnackbarError()
      requires Valid()
      modifies this`snackbarError
      ensures Valid() && snackbarError == None
    {
      snackbarError := None;
    }

    /** `clearForm` (which nothing calls): the form goes back to its first state; the snackbar and the loading flag stay. */
    method ClearForm()
      modifies this
      ensures Valid() == (snackbarError == None || snackbarError == Some(SubmissionSucceededMessage))
      ensures selectedType == COMPLAINT && selectedSubject == SubjectHint
      ensures otherSubjectText == "" && detailsText == "" && selectedMediaUris == []
      ensures subjectError == None && detailsError == None
      ensures snackbarError == old(snackbarError) && isLoading == old(isLoading)
    {
      selectedType := COMPLAINT;
      selectedSubject := AvailableSubjects[0];
      otherSubjectText := "";
      detailsText := "";
      selectedMediaUris := [];
      subjectError := None;
      detailsError := None;
    }
  }
}
