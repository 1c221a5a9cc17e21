/**
 * The post composer (`CreatePost`): six pieces of component state and the submit handler that
 * validates them, issues one write and then resets or keeps the form.
 */
module Composer {
  import opened Wrappers
  import opened JsString
  import opened Records
  import Meals

  const FillAllFields := "Please fill in all fields."
  const MustSignIn := "You must be signed in to post."
  const SubmitFailed := "Failed to submit post. Please try again."
  const Published := "Your post has been successfully published!"
  const DefaultMeal := "fish"

  /** The component state: the three form fields, the in-flight flag and the two messages. */
  datatype Form = Form(
    accommodationName: string,
    description: string,
    meal: string,
    isSubmitting: bool,
    error: string,
    success: string)

  /** The state of a freshly mounted composer. */
  const InitialForm := Form("", "", DefaultMeal, false, "", "")

  /** How the awaited `addDoc` call settles: the store acknowledges the write, or the promise rejects. */
  datatype WriteOutcome = Ok | Fail

  /** The state after the handler, and the record handed to `addDoc` if the handler got that far. */
  datatype Submission = Submission(form: Form, write: Option<Post>)

  /**
   * `handleSubmit` on state `f`. `user` is the `user` prop, `currentUid` is `auth.currentUser?.uid`
   * (None when there is no current Firebase user), `now` is `Timestamp.now()` in milliseconds.
   */
  function HandleSubmit(f: Form, user: Option<Profile>, currentUid: Option<string>, now: int, outcome: WriteOutcome): Submission {
    if IsBlank(f.accommodationName) || IsBlank(f.description) then
      Submission(f.(error := FillAllFields), None)
    else if user.None? then
      Submission(f.(error := MustSignIn), None)
    else if currentUid.None? then
      // `auth.currentUser.uid` throws while the record is being built, before `addDoc` runs;
      // the catch and finally clauses run as for a rejected write
      Submission(f.(isSubmitting := false, error := SubmitFailed, success := ""), None)
    else
      var record := Post(f.accommodationName, f.description, f.meal, user.value, currentUid.value, now, None);
      match outcome
      case Ok => Submission(f.(accommodationName := "", description := "", meal := DefaultMeal,
                               isSubmitting := false, error := "", success := Published), Some(record))
      case Fail => Submission(f.(isSubmitting := false, error := SubmitFailed, success := ""), Some(record))
  }

  /** Both fields contain a character that is not whitespace. */
  predicate FieldsFilled(f: Form) {
    !AllWhitespace(f.accommodationName) && !AllWhitespace(f.description)
  }

  /**
   * A blank field (nothing but whitespace) is reported with "Please fill in all fields." and nothing
   * else changes and nothing is written; this happens for blank fields and only for them, whatever
   * the user, the Firebase user and the store would have done.
   */
  lemma BlankFieldRejected(f: Form, user: Option<Profile>, currentUid: Option<string>, now: int, outcome: WriteOutcome)
    ensures HandleSubmit(f, user, currentUid, now, outcome) == Submission(f.(error := FillAllFields), None)
        <==> !FieldsFilled(f)
  {
    BlankIffAllWhitespace(f.accommodationName);
    BlankIffAllWhitespace(f.description);
  }

  /** The field check comes first; with filled fields and no selected profile, only the error changes and nothing is written. */
  lemma MissingUserRejected(f: Form, currentUid: Option<string>, now: int, outcome: WriteOutcome)
    requires FieldsFilled(f)
    ensures HandleSubmit(f, None, currentUid, now, outcome) == Submission(f.(error := MustSignIn), None)
  {
    BlankIffAllWhitespace(f.accommodationName);
    BlankIffAllWhitespace(f.description);
  }

  /**
   * A submission that passes both checks while there is a Firebase user hands exactly one record
   * to the store: the untrimmed fields, the selected meal, the whole profile, the uid and the time.
   */
  lemma ValidSubmissionWrites(f: Form, author: Profile, uid: string, now: int, outcome: WriteOutcome)
    requires FieldsFilled(f)
    ensures HandleSubmit(f, Some(author), Some(uid), now, outcome).write
         == Some(Post(f.accommodationName, f.description, f.meal, author, uid, now, None))
  {
    BlankIffAllWhitespace(f.accommodationName);
    BlankIffAllWhitespace(f.description);
  }

  /**
   * After a submission that passes both checks: on success the fields are reset and the success
   * message is shown; on any failure the fields are kept and the failure message is shown. Both
   * messages were cleared before the attempt, and the in-flight flag is down afterwards either way.
   */
  lemma SubmissionSettles(f: Form, author: Profile, currentUid: Option<string>, now: int, outcome: WriteOutcome)
    requires FieldsFilled(f)
    ensures var after := HandleSubmit(f, Some(author), currentUid, now, outcome).form;
      && !after.isSubmitting
      && (if outcome == Ok && currentUid.Some? then
            after == Form("", "", DefaultMeal, false, "", Published)
          else
            after == Form(f.accommodationName, f.description, f.meal, false, SubmitFailed, ""))
  {
    BlankIffAllWhitespace(f.accommodationName);
    BlankIffAllWhitespace(f.description);
  }

  /** A successful submission followed by the three-second timer leaves the composer as freshly mounted. */
  lemma SuccessThenTimer(f: Form, author: Profile, uid: string, now: int)
    requires FieldsFilled(f)
    ensures HandleSubmit(f, Some(author), Some(uid), now, Ok).form.(success := "") == InitialForm
  {
    SubmissionSettles(f, author, Some(uid), now, Ok);
  }

  /** Whatever the handler writes carries the form's meal and no `id` key, and the form keeps a selectable meal. */
  lemma SubmitKeepsMealKnown(f: Form, user: Option<Profile>, currentUid: Option<string>, now: int, outcome: WriteOutcome)
    requires f.meal in Meals.MealValues()
    ensures var r := HandleSubmit(f, user, currentUid, now, outcome);
      && r.form.meal in Meals.MealValues()
      && (r.write.Some? ==> r.write.value.meal == f.meal && r.write.value.id == None)
  {
    Meals.FishIsAMeal();
  }

  /** The records one handler call hands to `addDoc`: none or one. */
  function Issued(write: Option<Post>): seq<Post> {
    match write
    case None => []
    case Some(p) => [p]
  }

  /** A mounted composer; `writes` is the log of records this instance has passed to `addDoc`. */
  class CreatePost {
    var accommodationName: string
    var description: string
    var meal: string
    var isSubmitting: bool
    var error: string
    var success: string
    ghost var writes: seq<Post>

    function Current(): Form
      reads this
    {
      Form(accommodationName, description, meal, isSubmitting, error, success)
    }

    /** The meal is always one of the options, and so is every written record's; no written record has an `id` key. */
    ghost predicate Valid()
      reads this
    {
      && meal in Meals.MealValues()
      && forall w :: w in writes ==> w.meal in Meals.MealValues() && w.id == None
    }

    constructor ()
      ensures Valid() && Current() == InitialForm && writes == []
    {
      accommodationName, description, meal := "", "", DefaultMeal;
      isSubmitting, error, success := false, "", "";
      writes := [];
      Meals.FishIsAMeal();
    }

    /** The `onChange` handler of the accommodation input. */
    method SetAccommodationName(value: string)
      requires Valid()
      modifies this`accommodationName
      ensures Valid() && Current() == old(Current()).(accommodationName := value)
    {
      accommodationName := value;
    }

    /** The `onChange` handler of the description textarea. */
    method SetDescription(value: string)
      requires Valid()
      modifies this`description
      ensures Valid() && Current() == old(Current()).(description := value)
    {
      description := value;
    }

    /** A meal button's `onClick`: the buttons are rendered from the meal options, so `value` is one of them. */
    method SetMeal(value: string)
      requires Valid()
      requires value in Meals.MealValues()
      modifies this`meal
      ensures Valid() && Current() == old(Current()).(meal := value)
    {
      meal := value;
    }

    /** `handleSubmit`, run to completion with the store's answer given as `outcome`. */
    method Submit(user: Option<Profile>, currentUid: Option<string>, now: int, outcome: WriteOutcome)
      requires Valid()
      modifies this
      ensures Valid()
      ensures Current() == HandleSubmit(old(Current()), user, currentUid, now, outcome).form
      ensures writes == old(writes) + Issued(HandleSubmit(old(Current()), user, currentUid, now, outcome).write)
    {
      Meals.FishIsAMeal();
      ghost var before := Current();
      ghost var r := HandleSubmit(before, user, currentUid, now, outcome);
      if IsBlank(accommodationName) || IsBlank(description) {
        error := FillAllFields;
        assert Current() == r.form && r.write == None;
        return;
      }
      if user.None? {
        error := MustSignIn;
        assert Current() == r.form && r.write == None;
        return;
      }
      isSubmitting := true;
      error := "";
      success := "";
      var failed := false;
      if currentUid.None? {
        failed := true;
        assert r.write == None;
      } else {
        var record := Post(accommodationName, description, meal, user.value, currentUid.value, now, None);
        assert r.write == Some(record);
        writes := writes + [record];
        if outcome == Ok {
          accommodationName := "";
          description := "";
          meal := DefaultMeal;
          success := Published;
        } else {
          failed := true;
        }
      }
      if failed {
        error := SubmitFailed;
      }
      isSubmitting := false;
      assert Current() == r.form;
    }

    /** The callback of `setTimeout(() => setSuccess(''), 3000)`: it clears the message whatever it says by then. */
    method OnSuccessTimer()
      requires Valid()
      modifies this`success
      ensures Valid() && Current() == old(Current()).(success := "")
    {
      success := "";
    }
  }
}
