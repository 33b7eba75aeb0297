/** `MemberForm`: the field rules checked before submit (required name,
    email and join date; the email pattern), the default values, the
    create-or-update choice on submit, and when the submit button is
    disabled. */
module MemberForm {
  import opened Values
  import opened Text
  import opened MemberService

  /** A character of the local part: `[A-Z0-9._%+-]`, case-insensitively. */
  predicate IsLocalChar(c: char) {
    IsLetter(c) || IsDigit(c) || c == '.' || c == '_' || c == '%' || c == '+' || c == '-'
  }

  /** A character of the domain: `[A-Z0-9.-]`, case-insensitively. */
  predicate IsDomainChar(c: char) {
    IsLetter(c) || IsDigit(c) || c == '.' || c == '-'
  }

  /** `s` splits as local `@` domain `.` tld at positions `at` and `dot`: a
      non-empty local part, a non-empty domain, and a top-level domain of
      two or more letters. */
  predicate SplitsAsEmail(s: string, at: int, dot: int) {
    && 0 < at && at + 1 < dot && dot + 2 < |s|
    && s[at] == '@' && s[dot] == '.'
    && (forall k :: 0 <= k < at ==> IsLocalChar(s[k]))
    && (forall k :: at < k < dot ==> IsDomainChar(s[k]))
    && (forall k :: dot < k < |s| ==> IsLetter(s[k]))
  }

  /** The language of `/^[A-Z0-9._%+-]+@[A-Z0-9.-]+\.[A-Z]{2,}$/i`. */
  ghost predicate EmailPattern(s: string) {
    exists at, dot :: SplitsAsEmail(s, at, dot)
  }

  /** The matcher: no backtracking is needed, because the `@` can only be the
      first one and the `.` before the top-level domain only the last one. */
  function IsValidEmail(s: string): (ok: bool)
    ensures ok <==> EmailPattern(s)
  {
    var at := |Before(s, '@')|;
    var dot := LastIndex(s, '.');
    if SplitsAsEmail(s, at, dot) then true
    else
      assert !EmailPattern(s) by {
        forall a, d | SplitsAsEmail(s, a, d) ensures false {
          SplitPositionsForced(s, a, d);
        }
      }
      false
  }

  /** Any split of an email is at the first `@` and the last `.`. */
  lemma SplitPositionsForced(s: string, at: int, dot: int)
    requires SplitsAsEmail(s, at, dot)
    ensures at == |Before(s, '@')|
    ensures dot == LastIndex(s, '.')
  {
    assert forall k :: 0 <= k < at ==> s[..at][k] == s[k];
    BeforeFirst(s, '@', at);
  }

  /** An accepted email has exactly one `@` and ends in `.` followed by at
      least two letters. */
  lemma AcceptedEmailShape(s: string)
    requires IsValidEmail(s)
    ensures multiset(s)['@'] == 1
    ensures |s| >= 3 && IsLetter(s[|s| - 1]) && IsLetter(s[|s| - 2])
    ensures exists dot :: 0 <= dot < |s| - 2 && s[dot] == '.' &&
              forall k :: dot < k < |s| ==> IsLetter(s[k])
  {
    var at, dot :| SplitsAsEmail(s, at, dot);
    var pre, post := s[..at], s[at + 1..];
    assert s == pre + [s[at]] + post;
    assert '@' !in pre by {
      forall k | 0 <= k < |pre| ensures pre[k] != '@' { assert pre[k] == s[k]; }
    }
    assert '@' !in post by {
      forall k | 0 <= k < |post| ensures post[k] != '@' { assert post[k] == s[at + 1 + k]; }
    }
    assert multiset(s) == multiset(pre) + multiset{'@'} + multiset(post);
  }

  /** A plain address is accepted. */
  lemma EmailExamples()
    ensures IsValidEmail("john@example.com")
  {
    assert SplitsAsEmail("john@example.com", 4, 12);
  }

  /** Mixed case, a `+` and a sub-domain are accepted too. */
  lemma MixedCaseEmailExample()
    ensures IsValidEmail("A.B+c@sub.Example.ORG")
  {
    var s := "A.B+c@sub.Example.ORG";
    assert forall k :: 0 <= k < 5 ==> IsLocalChar(s[k]);
    assert forall k :: 5 < k < 17 ==> IsDomainChar(s[k]);
    assert SplitsAsEmail(s, 5, 17);
  }

  /** A top-level domain of one character is rejected. */
  lemma OneLetterTopLevelDomainRejected(s: string)
    requires |s| >= 2 && s[|s| - 2] == '.'
    ensures !IsValidEmail(s)
  {
    if EmailPattern(s) {
      var at, dot :| SplitsAsEmail(s, at, dot);
      assert s[|s| - 2] == '.';
    }
  }

  /** A second `@` is rejected. */
  lemma TwoAtSignsRejected(s: string)
    requires multiset(s)['@'] >= 2
    ensures !IsValidEmail(s)
  {
    if IsValidEmail(s) {
      AcceptedEmailShape(s);
    }
  }

  datatype Field = NameField | EmailField | JoinDateField

  datatype FieldError = FieldError(field: Field, message: string)

  const NameRequired := "Name is required"
  const EmailRequired := "Email is required"
  const InvalidEmail := "Invalid email address"
  const JoinDateRequired := "Join date is required"

  /** The email rules: `required` first, the pattern only on a non-empty value. */
  function EmailError(email: string): (e: Option<string>)
    ensures email == "" ==> e == Some(EmailRequired)
    ensures email != "" ==> (e.None? <==> EmailPattern(email))
    ensures email != "" && e.Some? ==> e.value == InvalidEmail
  {
    if email == "" then Some(EmailRequired)
    else if !IsValidEmail(email) then Some(InvalidEmail)
    else None
  }

  /** The messages of every failing field, in the form's order. */
  function Validate(v: CreateMemberInput): (errs: seq<FieldError>)
    ensures errs == [] <==> v.name != "" && EmailPattern(v.email) && Truthy(v.joinDate)
    ensures FieldError(NameField, NameRequired) in errs <==> v.name == ""
    ensures FieldError(EmailField, EmailRequired) in errs <==> v.email == ""
    ensures FieldError(JoinDateField, JoinDateRequired) in errs <==> !Truthy(v.joinDate)
    ensures forall i :: 0 <= i < |errs| ==> errs[i].field == EmailField || errs[i].message != InvalidEmail
  {
    (if v.name == "" then [FieldError(NameField, NameRequired)] else [])
    + (match EmailError(v.email) case Some(m) => [FieldError(EmailField, m)] case None => [])
    + (if !Truthy(v.joinDate) then [FieldError(JoinDateField, JoinDateRequired)] else [])
  }

  /** The input an existing member fills the form with. */
  function InputOf(m: Member): (v: CreateMemberInput)
    ensures v.name == m.name && v.email == m.email
    ensures v.joinDate == Some(m.joinDate) && v.status == Some(m.status)
  {
    CreateMemberInput(m.name, m.email, m.phone, m.address, m.photoUrl, m.emergencyContact,
                      Some(m.joinDate), m.packageId, m.membershipExpiry, Some(m.status))
  }

  /** `defaultValues`: the member being edited, or, for a new member, status
      `active` and today's join date with every other field empty. */
  function DefaultValues(member: Option<Member>, today: string): (v: CreateMemberInput)
    ensures member.Some? ==> v == InputOf(member.value)
    ensures member.None? ==> v.status == Some(Active) && v.joinDate == Some(today)
    ensures member.None? ==> v.name == "" && v.email == ""
  {
    match member
    case Some(m) => InputOf(m)
    case None => CreateMemberInput("", "", None, None, None, None, Some(today), None, None, Some(Active))
  }

  /** A new form cannot be submitted untouched: name and email are required. */
  lemma NewFormNeedsNameAndEmail(today: string)
    requires today != ""
    ensures Validate(DefaultValues(None, today)) ==
              [FieldError(NameField, NameRequired), FieldError(EmailField, EmailRequired)]
  {
  }

  /** The service call a submit issues. */
  datatype ServiceCall = UpdateCall(id: string, data: CreateMemberInput) | CreateCall(data: CreateMemberInput)

  /** The callbacks a submit invokes. */
  datatype Callback = OnSuccess | OnClose

  /** What a submit does: the call, the callbacks, and the error toast. */
  datatype SubmitEffect = SubmitEffect(call: ServiceCall, callbacks: seq<Callback>, errorToast: Option<string>)

  /** `onSubmit`: update the member being edited or create a new one; the
      callbacks run only after the call succeeds, otherwise the error's
      message (or "Operation failed") is shown. */
  function Submit(member: Option<Member>, data: CreateMemberInput, outcome: Result<Member>): (e: SubmitEffect)
    ensures member.Some? ==> e.call == UpdateCall(member.value.id, data)
    ensures member.None? ==> e.call == CreateCall(data)
    ensures e.callbacks == [OnSuccess, OnClose] <==> outcome.Ok?
    ensures outcome.Err? ==> e.callbacks == []
    ensures e.errorToast.Some? <==> outcome.Err?
    ensures outcome.Err? && outcome.message == "" ==> e.errorToast == Some("Operation failed")
    ensures outcome.Err? && outcome.message != "" ==> e.errorToast == Some(outcome.message)
  {
    var call := if member.Some? then UpdateCall(member.value.id, data) else CreateCall(data);
    match outcome
    case Ok(_) => SubmitEffect(call, [OnSuccess, OnClose], None)
    case Err(m) => SubmitEffect(call, [], Some(if m != "" then m else "Operation failed"))
  }

  /** `handleSubmit`: the submit runs only when every field rule passes. */
  function HandleSubmit(member: Option<Member>, data: CreateMemberInput, outcome: Result<Member>): (r: Option<SubmitEffect>)
    ensures r.Some? <==> Validate(data) == []
    ensures r.Some? ==> r.value == Submit(member, data, outcome)
  {
    if Validate(data) == [] then Some(Submit(member, data, outcome)) else None
  }

  /** The form's local state apart from the field values. */
  datatype FormState = FormState(values: CreateMemberInput, photoPreview: Option<string>, uploading: bool, submitting: bool)

  /** The submit button is disabled while submitting or uploading a photo. */
  predicate SubmitDisabled(f: FormState) {
    f.submitting || f.uploading
  }

  /** `handlePhotoUpload` once the upload settles: the URL becomes the photo
      field and the preview on success; `uploading` ends false either way. */
  function PhotoUploaded(f: FormState, upload: Result<string>): (g: FormState)
    ensures !g.uploading && g.submitting == f.submitting
    ensures upload.Ok? ==> g.values == f.values.(photoUrl := Some(upload.value)) && g.photoPreview == Some(upload.value)
    ensures upload.Err? ==> g.values == f.values && g.photoPreview == f.photoPreview
  {
    match upload
    case Ok(url) => f.(values := f.values.(photoUrl := Some(url)), photoPreview := Some(url), uploading := false)
    case Err(_) => f.(uploading := false)
  }

  /** A settled upload re-enables the submit button unless a submit is running,
      whichever way the upload went. */
  lemma UploadSettledReleasesSubmit(f: FormState, upload: Result<string>)
    ensures SubmitDisabled(PhotoUploaded(f, upload)) <==> f.submitting
  {
  }

  /** The last successful upload decides the photo; a failed one after it
      keeps it. */
  lemma LastUploadWins(f: FormState, a: string, b: string, err: string)
    ensures PhotoUploaded(PhotoUploaded(f, Ok(a)), Ok(b)) == PhotoUploaded(f, Ok(b))
    ensures PhotoUploaded(PhotoUploaded(f, Ok(a)), Err(err)) == PhotoUploaded(f, Ok(a))
  {
  }

  /** Whether the call succeeds decides the callbacks and the toast, never the
      call itself. */
  lemma CallIndependentOfOutcome(member: Option<Member>, data: CreateMemberInput, a: Result<Member>, b: Result<Member>)
    ensures Submit(member, data, a).call == Submit(member, data, b).call
  {
  }

  /** While a photo uploads or a submit runs, no submit can start. */
  lemma NoSubmitWhileBusy(f: FormState)
    ensures f.uploading ==> SubmitDisabled(f)
    ensures f.submitting ==> SubmitDisabled(f)
    ensures !f.uploading && !f.submitting ==> !SubmitDisabled(f)
  {
  }
}
