/**
 * The tutorial submission form: its fields, the tag entry box with its
 * add and remove buttons, and the submit handler with its sign-in gate,
 * required-field check, loading flag and reset after success.
 */
module SubmitTutorial {
  import opened Wrappers
  import opened Text
  import opened Lists

  /** `formData`: the form's fields; every field but `tags` is bound to an input */
  datatype FormData = FormData(
    title: string,
    description: string,
    content: string,
    category: string,
    difficulty: string,
    githubUrl: string,
    tags: seq<string>)

  /** The form as it starts and as a successful submission leaves it */
  const EmptyForm: FormData := FormData("", "", "", "", "", "", [])

  /** What a submit attempt shows: the sign-in dialog or one of the three toasts */
  datatype SubmitOutcome = AuthRequired | MissingInformation | Submitted | SubmitFailed

  // ---------------------------------------------------------------------------
  // Tags

  /** The tags the form can hold: trimmed and non-empty, none twice */
  predicate TagsWellFormed(tags: seq<string>) {
    NoDup(tags) && forall t :: t in tags ==> t != "" && Trim(t) == t
  }

  /** `currentTag.trim() && !formData.tags.includes(currentTag.trim())` */
  predicate AcceptsTag(tags: seq<string>, entry: string) {
    Trim(entry) != "" && Trim(entry) !in tags
  }

  /** The tag list after `addTag` with `entry` in the tag box */
  function AddTagTo(tags: seq<string>, entry: string): (r: seq<string>)
    ensures |tags| <= |r| <= |tags| + 1 && r[..|tags|] == tags
    ensures |r| == |tags| + 1 <==> AcceptsTag(tags, entry)
    ensures forall t :: t in r <==> t in tags || (t == Trim(entry) && t != "")
  {
    if AcceptsTag(tags, entry) then tags + [Trim(entry)] else tags
  }

  /** An entry that is empty or whitespace only adds nothing. */
  lemma BlankEntryAddsNothing(tags: seq<string>, entry: string)
    requires AllWhitespace(entry)
    ensures AddTagTo(tags, entry) == tags
  {
  }

  /** Adding keeps the tags trimmed, non-blank and free of repeats. */
  lemma AddTagKeepsWellFormed(tags: seq<string>, entry: string)
    requires TagsWellFormed(tags)
    ensures TagsWellFormed(AddTagTo(tags, entry))
  {
    if AcceptsTag(tags, entry) {
      TrimIdempotent(entry);
      var r := tags + [Trim(entry)];
      forall i, j | 0 <= i < j < |r| ensures r[i] != r[j] {
        if j < |tags| { assert r[i] == tags[i] && r[j] == tags[j]; }
        else { assert r[i] == tags[i]; }
      }
    }
  }

  lemma RemoveTagKeepsWellFormed(tags: seq<string>, tag: string)
    requires TagsWellFormed(tags)
    ensures TagsWellFormed(RemoveAll(tags, tag))
  {
    RemoveAllKeepsNoDup(tags, tag);
  }

  // ---------------------------------------------------------------------------
  // Submission

  /** `!title || !description || !content || !category || !difficulty`: only the empty string is falsy */
  predicate MissingRequired(f: FormData) {
    f.title == "" || f.description == "" || f.content == "" || f.category == "" || f.difficulty == ""
  }

  /** The repository link and the tags are optional. */
  lemma OptionalFields(f: FormData, url: string, tags: seq<string>)
    ensures MissingRequired(f.(githubUrl := url, tags := tags)) == MissingRequired(f)
  {
  }

  /** The check is by truthiness: whitespace-only values pass it. */
  lemma WhitespacePasses()
    ensures !MissingRequired(FormData(" ", " ", " ", " ", " ", "", []))
  {
  }

  /**
   * The outcome of one submit attempt: `signedIn` is whether the auth
   * context has a user, `callSucceeds` whether the submission call resolves.
   */
  function Outcome(signedIn: bool, f: FormData, callSucceeds: bool): (o: SubmitOutcome)
    ensures o == AuthRequired <==> !signedIn
    ensures o == MissingInformation <==> signedIn && MissingRequired(f)
    ensures o == Submitted <==> signedIn && !MissingRequired(f) && callSucceeds
    ensures o == SubmitFailed <==> signedIn && !MissingRequired(f) && !callSucceeds
  {
    if !signedIn then AuthRequired
    else if MissingRequired(f) then MissingInformation
    else if callSucceeds then Submitted
    else SubmitFailed
  }

  // ---------------------------------------------------------------------------
  // The page's state

  class TutorialSubmission {
    var formData: FormData
    var currentTag: string
    var isAuthOpen: bool
    var loading: bool

    /** The tag list stays well formed. */
    ghost predicate Valid()
      reads this
    {
      TagsWellFormed(formData.tags)
    }

    /** The `useState` initial values */
    constructor ()
      ensures Valid()
      ensures formData == EmptyForm && currentTag == "" && !isAuthOpen && !loading
    {
      formData := EmptyForm;
      currentTag := "";
      isAuthOpen := false;
      loading := false;
    }

    /** `addTag`: append the trimmed entry unless blank or present, and then empty the tag box */
    method AddTag()
      modifies this`formData, this`currentTag
      ensures formData == old(formData).(tags := AddTagTo(old(formData.tags), old(currentTag)))
      ensures currentTag == if AcceptsTag(old(formData.tags), old(currentTag)) then "" else old(currentTag)
      ensures old(Valid()) ==> Valid()
    {
      var entry := Trim(currentTag);
      if entry != "" && entry !in formData.tags {
        formData := formData.(tags := formData.tags + [entry]);
        currentTag := "";
      }
      if old(Valid()) {
        AddTagKeepsWellFormed(old(formData.tags), old(currentTag));
      }
    }

    /** `removeTag`: drop the tag; every other field stays as it was */
    method RemoveTag(tagToRemove: string)
      modifies this`formData
      ensures formData == old(formData).(tags := RemoveAll(old(formData.tags), tagToRemove))
      ensures tagToRemove !in formData.tags
      ensures old(Valid()) ==> Valid()
    {
      formData := formData.(tags := RemoveAll(formData.tags, tagToRemove));
      if old(Valid()) {
        RemoveTagKeepsWellFormed(old(formData.tags), tagToRemove);
      }
    }

    /**
     * `handleSubmit`. Without a user it only opens the sign-in dialog; with a
     * required field empty it changes nothing; otherwise it raises `loading`
     * around the submission call, resets the form when the call succeeds,
     * and lowers `loading` again either way. The tag box is not reset.
     */
    method HandleSubmit(user: Option<string>, callSucceeds: bool) returns (outcome: SubmitOutcome)
      modifies this`formData, this`isAuthOpen, this`loading
      ensures outcome == Outcome(user.Some?, old(formData), callSucceeds)
      ensures outcome == AuthRequired ==> isAuthOpen && formData == old(formData) && loading == old(loading)
      ensures outcome == MissingInformation ==>
        formData == old(formData) && isAuthOpen == old(isAuthOpen) && loading == old(loading)
      ensures outcome == Submitted ==> formData == EmptyForm && !loading && isAuthOpen == old(isAuthOpen)
      ensures outcome == SubmitFailed ==> formData == old(formData) && !loading && isAuthOpen == old(isAuthOpen)
      ensures old(Valid()) ==> Valid()
    {
      if user.None? {
        isAuthOpen := true;
        return AuthRequired;
      }
      if MissingRequired(formData) {
        return MissingInformation;
      }
      loading := true;
      if callSucceeds {
        formData := EmptyForm;
        outcome := Submitted;
      } else {
        outcome := SubmitFailed;
      }
      loading := false;
    }
  }
}
