/** The checks the Sell page applies, in order, when the car details form
    is submitted. */
module SellForm {
  import opened Schema

  /** The most car images a submission may carry. */
  const MaxImages: nat := 8

  /** The error message each failed check shows. */
  datatype Rejection = TooManyImages | NoImages | MissingRcBook | MissingInsurance

  datatype Verdict = Accepted | Refused(reason: Rejection)

  /** The uploads of one submission. A file box left empty yields `None`;
      an uploaded file object is truthy whatever its contents. */
  datatype Submission = Submission(images: seq<Blob>, rcBook: Option<Blob>, insurance: Option<Blob>)

  /** The `if`/`elif` chain: more than eight images, then none, then no RC
      book, then no insurance document. */
  function Validate(s: Submission): (v: Verdict)
    ensures v == Accepted <==>
      1 <= |s.images| <= MaxImages && s.rcBook.Some? && s.insurance.Some?
    ensures v == Refused(TooManyImages) <==> |s.images| > MaxImages
    ensures v == Refused(NoImages) <==> s.images == []
    ensures v == Refused(MissingRcBook) <==>
      1 <= |s.images| <= MaxImages && s.rcBook.None?
    ensures v == Refused(MissingInsurance) <==>
      1 <= |s.images| <= MaxImages && s.rcBook.Some? && s.insurance.None?
  {
    if |s.images| > MaxImages then Refused(TooManyImages)
    else if s.images == [] then Refused(NoImages)
    else if s.rcBook.None? then Refused(MissingRcBook)
    else if s.insurance.None? then Refused(MissingInsurance)
    else Accepted
  }

  /** The image count is checked before the documents: a submission with
      an unacceptable number of images is refused for that, whatever
      documents it carries. */
  lemma ImageCountFirst(s: Submission, rcBook: Option<Blob>, insurance: Option<Blob>)
    requires Validate(s).Refused? && Validate(s).reason in {TooManyImages, NoImages}
    ensures Validate(s.(rcBook := rcBook, insurance := insurance)) == Validate(s)
  {
  }

  /** Supplying what a refusal names either yields acceptance or moves the
      refusal to a later check: the chain never sends a fixed submission
      back to an earlier one. */
  lemma FixingMovesForward(s: Submission, doc: Blob)
    requires Validate(s) == Refused(MissingRcBook)
    ensures Validate(s.(rcBook := Some(doc))) in {Accepted, Refused(MissingInsurance)}
  {
  }
}
