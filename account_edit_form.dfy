/** The account edit form (components/account/AccountEditForm.tsx): its schema, its
    default values, the request body it sends and its `isSubmitting` flag. */
module AccountEditForm {
  import opened Wrappers
  import opened Text

  /** The profile the form starts from; either field may be null. */
  datatype InitialData = InitialData(name: Option<string>, avatar: Option<string>)

  /** The form values; an avatar left undefined is None. */
  datatype AccountEditData = AccountEditData(name: string, avatar: Option<string>)

  /** The `PATCH /api/users/me` body; None is null. */
  datatype PatchBody = PatchBody(name: Option<string>, avatar: Option<string>)

  /** `accountEditSchema`: a name of 1 to 50 characters, and an avatar that is absent,
      empty or a URL. `validUrl` stands for the schema library's URL check. */
  predicate AccountSchema(d: AccountEditData, validUrl: string -> bool) {
    && 1 <= |d.name| <= 50
    && (d.avatar.None? || d.avatar.value == "" || validUrl(d.avatar.value))
  }

  /** `defaultValues`: each null field starts as the empty string. */
  function DefaultValues(init: InitialData): (d: AccountEditData)
    ensures d.name == OrEmpty(init.name)
    ensures d.avatar == Some(OrEmpty(init.avatar))
  {
    AccountEditData(OrEmpty(init.name), Some(OrEmpty(init.avatar)))
  }

  /** `{ name: data.name || null, avatar: data.avatar || null }`. */
  function Payload(d: AccountEditData): (b: PatchBody)
    ensures b.name == (if d.name == "" then None else Some(d.name))
    ensures b.avatar == OrNull(d.avatar)
  {
    PatchBody(OrNull(Some(d.name)), OrNull(d.avatar))
  }

  /** Submitting the defaults unchanged sends the initial profile back, with empty
      strings turned to null on the way. */
  lemma UnchangedFormRoundTrips(init: InitialData)
    ensures Payload(DefaultValues(init)) == PatchBody(OrNull(init.name), OrNull(init.avatar))
  {
  }

  /** A form that passes the schema always sends a name, the one typed; the avatar
      is sent as null exactly when it is empty or absent. */
  lemma ValidFormSendsAName(d: AccountEditData, validUrl: string -> bool)
    requires AccountSchema(d, validUrl)
    ensures Payload(d).name == Some(d.name)
    ensures Payload(d).avatar.None? <==> (d.avatar.None? || d.avatar.value == "")
  {
  }

  /** A profile without a name cannot be saved until one is typed. */
  lemma MissingNameBlocksSubmit(avatar: Option<string>, validUrl: string -> bool)
    ensures !AccountSchema(DefaultValues(InitialData(None, avatar)), validUrl)
  {
  }

  /** The component's state. */
  class AccountEditState {
    var isSubmitting: bool

    constructor()
      ensures !isSubmitting
    {
      isSubmitting := false;
    }

    /** Pressing save with values `d`: the button is disabled during a request, and the
        schema must accept `d`; then the flag is raised and the body is sent. */
    method BeginSubmit(d: AccountEditData, validUrl: string -> bool) returns (request: Option<PatchBody>)
      modifies this
      ensures request.Some? <==> !old(isSubmitting) && AccountSchema(d, validUrl)
      ensures request.Some? ==> request.value == Payload(d)
      ensures isSubmitting == (old(isSubmitting) || request.Some?)
    {
      if isSubmitting || !AccountSchema(d, validUrl) {
        return None;
      }
      isSubmitting := true;
      return Some(Payload(d));
    }

    /** The `finally`: the flag drops on success and on error alike. */
    method EndSubmit()
      modifies this
      ensures !isSubmitting
    {
      isSubmitting := false;
    }
  }

  /** A client of the form: whatever the request's outcome, a submit followed by its
      completion leaves the form ready for the next one. */
  method SubmitCycle(s: AccountEditState, d: AccountEditData, validUrl: string -> bool)
    returns (request: Option<PatchBody>)
    requires !s.isSubmitting
    modifies s
    ensures request.Some? <==> AccountSchema(d, validUrl)
    ensures !s.isSubmitting
  {
    request := s.BeginSubmit(d, validUrl);
    assert request.Some? ==> s.isSubmitting;
    s.EndSubmit();
  }
}
