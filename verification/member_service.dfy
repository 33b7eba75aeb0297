/** `memberService`: the mapping of `profiles` rows to members in `getAll`,
    the choice between the client query and the direct REST fallback, and
    `create` with its defaults and its fallback to the `profiles` table. */
module MemberService {
  import opened Values
  import opened Text

  datatype Status = Active | Inactive

  /** A gym member as the pages see it. */
  datatype Member = Member(
    id: string,
    userId: Option<string>,
    name: string,
    email: string,
    phone: Option<string>,
    address: Option<string>,
    photoUrl: Option<string>,
    emergencyContact: Option<string>,
    joinDate: string,
    packageId: Option<string>,
    membershipExpiry: Option<string>,
    status: Status,
    createdAt: string,
    updatedAt: string)

  /** The columns `getAll` selects from `profiles`; any of them but the id
      may be null. */
  datatype ProfileRow = ProfileRow(
    id: string, email: Option<string>, fullName: Option<string>, role: string, createdAt: Option<string>)

  /** The fields of a create or update request. */
  datatype CreateMemberInput = CreateMemberInput(
    name: string,
    email: string,
    phone: Option<string>,
    address: Option<string>,
    photoUrl: Option<string>,
    emergencyContact: Option<string>,
    joinDate: Option<string>,
    packageId: Option<string>,
    membershipExpiry: Option<string>,
    status: Option<Status>)

  const UnknownUserName := "Unknown User"
  const NoEmail := "no-email@example.com"

  /** The member name derived from a profile: the full name, else the part of
      the email before its first `@`, else "Unknown User". */
  function DisplayName(p: ProfileRow): (name: string)
    ensures name != ""
    ensures Truthy(p.fullName) ==> name == p.fullName.value
    ensures !Truthy(p.fullName) && name != UnknownUserName ==>
              p.email.Some? && name <= p.email.value && '@' !in name
    ensures !Truthy(p.fullName) && p.email.Some? && p.email.value != "" && p.email.value[0] != '@' ==>
              name == Before(p.email.value, '@')
  {
    if Truthy(p.fullName) then p.fullName.value
    else if p.email.Some? && Before(p.email.value, '@') != "" then Before(p.email.value, '@')
    else UnknownUserName
  }

  /** The join date derived from a creation timestamp: its date part (the
      text before the first `T`), or `today` when there is none. */
  function JoinDateOf(createdAt: Option<string>, today: string): (d: string)
    ensures Truthy(createdAt) ==> d <= createdAt.value && 'T' !in d
    ensures Truthy(createdAt) && 'T' in createdAt.value ==> createdAt.value[|d|] == 'T'
    ensures Truthy(createdAt) && 'T' !in createdAt.value ==> d == createdAt.value
    ensures !Truthy(createdAt) ==> d == today
  {
    if Truthy(createdAt) then Before(createdAt.value, 'T') else today
  }

  /** One profile as a member; `today` and `now` stand for the clock. */
  function FromProfile(p: ProfileRow, today: string, now: string): (m: Member)
    ensures m.id == p.id && m.userId == Some(p.id)
    ensures m.name != "" && m.email != ""
    ensures m.status == Active
    ensures m.phone == Some("") && m.address == Some("") && m.emergencyContact == Some("")
    ensures m.name == DisplayName(p) && m.joinDate == JoinDateOf(p.createdAt, today)
    ensures Truthy(p.email) ==> m.email == p.email.value
    ensures !Truthy(p.email) ==> m.email == NoEmail
    ensures Truthy(p.createdAt) ==> m.createdAt == p.createdAt.value && m.updatedAt == p.createdAt.value
    ensures !Truthy(p.createdAt) ==> m.createdAt == now && m.updatedAt == now
    ensures m.photoUrl.None? && m.packageId.None? && m.membershipExpiry.None?
  {
    Member(
      id := p.id,
      userId := Some(p.id),
      name := DisplayName(p),
      email := OrElse(p.email, NoEmail),
      phone := Some(""),
      address := Some(""),
      photoUrl := None,
      emergencyContact := Some(""),
      joinDate := JoinDateOf(p.createdAt, today),
      packageId := None,
      membershipExpiry := None,
      status := Active,
      createdAt := OrElse(p.createdAt, now),
      updatedAt := OrElse(p.createdAt, now))
  }

  /** The mapping of a list of profiles, element by element, in order. */
  function FromProfiles(ps: seq<ProfileRow>, today: string, now: string): (ms: seq<Member>)
    ensures |ms| == |ps|
    ensures forall i :: 0 <= i < |ps| ==> ms[i] == FromProfile(ps[i], today, now)
  {
    seq(|ps|, i requires 0 <= i < |ps| => FromProfile(ps[i], today, now))
  }

  /** Every mapped member keeps its profile's id and position, is active, and
      has empty contact fields; the email falls back when the profile has none. */
  lemma FromProfilesShape(ps: seq<ProfileRow>, today: string, now: string)
    ensures var ms := FromProfiles(ps, today, now);
      && |ms| == |ps|
      && (forall i :: 0 <= i < |ps| ==>
            && ms[i].id == ps[i].id && ms[i].userId == Some(ps[i].id)
            && ms[i].status == Active
            && ms[i].phone == Some("") && ms[i].address == Some("") && ms[i].emergencyContact == Some("")
            && (Truthy(ps[i].email) ==> ms[i].email == ps[i].email.value)
            && (!Truthy(ps[i].email) ==> ms[i].email == NoEmail))
    ensures ps == [] ==> FromProfiles(ps, today, now) == []
  {
  }

  /** How the direct REST request of the fallback path ends. */
  datatype DirectResponse = DirectOk(rows: seq<ProfileRow>) | DirectFailed(detail: string)

  /** How the client query of `profiles` ends. */
  datatype ProfilesQuery = ProfilesRows(rows: seq<ProfileRow>) | ProfilesFailed(message: string)

  /** `getAll`: when the connection probe fails, the direct REST request is
      used instead of the client query; both map rows the same way. */
  function GetAll(connectionOk: bool, direct: DirectResponse, query: ProfilesQuery,
                  today: string, now: string): (r: Result<seq<Member>>)
    ensures !connectionOk && direct.DirectOk? ==> r == Ok(FromProfiles(direct.rows, today, now))
    ensures !connectionOk && direct.DirectFailed? ==>
              r == Err("All connection methods failed: " + direct.detail)
    ensures connectionOk && query.ProfilesRows? ==> r == Ok(FromProfiles(query.rows, today, now))
    ensures connectionOk && query.ProfilesFailed? ==>
              r == Err("Failed to fetch profiles: " + query.message)
  {
    if !connectionOk then
      match direct
      case DirectOk(rows) => Ok(FromProfiles(rows, today, now))
      case DirectFailed(detail) => Err("All connection methods failed: " + detail)
    else
      match query
      case ProfilesFailed(m) => Err("Failed to fetch profiles: " + m)
      case ProfilesRows(rows) =>
        if |rows| > 0 then Ok(FromProfiles(rows, today, now)) else Ok([])
  }

  /** The two paths agree: given the same rows, the direct request and the
      client query produce the same members, and neither depends on the
      response of the path not taken. */
  lemma GetAllPathsAgree(rows: seq<ProfileRow>, direct: DirectResponse, query: ProfilesQuery,
                         today: string, now: string)
    ensures GetAll(false, DirectOk(rows), query, today, now) == GetAll(true, direct, ProfilesRows(rows), today, now)
    ensures GetAll(false, DirectOk(rows), query, today, now).Ok?
  {
  }

  /** The row `create` inserts into `members`: the input with the join date
      and the status filled in. */
  datatype MemberInsert = MemberInsert(input: CreateMemberInput, joinDate: string, status: Status)

  /** The row the fallback inserts into `profiles`. */
  datatype ProfileInsert = ProfileInsert(email: string, fullName: string, role: string)

  /** The row the fallback insert returns. */
  datatype InsertedProfile = InsertedProfile(id: string, email: string, fullName: Option<string>, createdAt: Option<string>)

  /** The defaults `create` applies before inserting into `members`. */
  function MembersRow(input: CreateMemberInput, today: string): (row: MemberInsert)
    ensures row.input == input
    ensures Truthy(input.joinDate) ==> row.joinDate == input.joinDate.value
    ensures !Truthy(input.joinDate) ==> row.joinDate == today
    ensures input.status.None? ==> row.status == Active
    ensures input.status.Some? ==> row.status == input.status.value
  {
    MemberInsert(input, OrElse(input.joinDate, today), input.status.GetOr(Active))
  }

  /** The fallback's `profiles` row: the input's email and name, role `user`. */
  function ProfilesRow(input: CreateMemberInput): (row: ProfileInsert)
    ensures row.role == "user" && row.email == input.email && row.fullName == input.name
  {
    ProfileInsert(input.email, input.name, "user")
  }

  /** The member built from the fallback's inserted profile. */
  function FromInsertedProfile(p: InsertedProfile, input: CreateMemberInput, today: string, now: string): (m: Member)
    ensures m.id == p.id && m.userId == Some(p.id) && m.email == p.email
    ensures m.joinDate == MembersRow(input, today).joinDate
    ensures m.status == MembersRow(input, today).status
    ensures m.name == if Truthy(p.fullName) then p.fullName.value else Before(p.email, '@')
    ensures m.phone == Some(OrElse(input.phone, "")) && m.address == Some(OrElse(input.address, ""))
            && m.emergencyContact == Some(OrElse(input.emergencyContact, ""))
    ensures m.photoUrl.None? && m.packageId.None? && m.membershipExpiry.None?
    ensures m.createdAt == OrElse(p.createdAt, now) && m.updatedAt == m.createdAt
  {
    Member(
      id := p.id,
      userId := Some(p.id),
      name := if Truthy(p.fullName) then p.fullName.value else Before(p.email, '@'),
      email := p.email,
      phone := Some(OrElse(input.phone, "")),
      address := Some(OrElse(input.address, "")),
      photoUrl := None,
      emergencyContact := Some(OrElse(input.emergencyContact, "")),
      joinDate := OrElse(input.joinDate, today),
      packageId := None,
      membershipExpiry := None,
      status := input.status.GetOr(Active),
      createdAt := OrElse(p.createdAt, now),
      updatedAt := OrElse(p.createdAt, now))
  }

  /** One run of `create`: the rows it asks to insert, in order, and what the
      returned promise gives. */
  datatype CreateRun = CreateRun(membersRequest: MemberInsert, profilesRequest: Option<ProfileInsert>,
                                 result: Result<Member>)

  /** `create`: the `members` insert's row when one comes back (its error is
      not inspected); otherwise the result of the fallback `profiles` insert,
      which is issued only then. */
  function Create(input: CreateMemberInput, membersInsert: Option<Member>,
                  profilesInsert: Result<InsertedProfile>, today: string, now: string): (run: CreateRun)
    ensures run.membersRequest == MembersRow(input, today)
    ensures membersInsert.Some? ==> run.profilesRequest.None? && run.result == Ok(membersInsert.value)
    ensures membersInsert.None? ==> run.profilesRequest == Some(ProfilesRow(input))
    ensures membersInsert.None? && profilesInsert.Err? ==> run.result == Err(profilesInsert.message)
    ensures membersInsert.None? && profilesInsert.Ok? ==>
              run.result.Ok? && run.result.value.id == profilesInsert.value.id
              && run.result.value.status == MembersRow(input, today).status
              && run.result.value.joinDate == MembersRow(input, today).joinDate
    ensures membersInsert.None? && profilesInsert.Ok? ==>
              run.result == Ok(FromInsertedProfile(profilesInsert.value, input, today, now))
  {
    var members := MembersRow(input, today);
    if membersInsert.Some? then CreateRun(members, None, Ok(membersInsert.value))
    else
      var profiles := ProfilesRow(input);
      match profilesInsert
      case Err(m) => CreateRun(members, Some(profiles), Err(m))
      case Ok(p) => CreateRun(members, Some(profiles), Ok(FromInsertedProfile(p, input, today, now)))
  }

  /** A created member defaults to active and to today's join date, on both
      paths, whenever the insert succeeds without a members row. */
  lemma CreateDefaults(input: CreateMemberInput, p: InsertedProfile, today: string, now: string)
    requires input.status.None? && !Truthy(input.joinDate)
    ensures var r := Create(input, None, Ok(p), today, now).result;
      r.Ok? && r.value.status == Active && r.value.joinDate == today
    ensures MembersRow(input, today).status == Active && MembersRow(input, today).joinDate == today
  {
  }
}
