/** The admin members page: the search and status filter over the loaded
    members, and the page state `loadMembers` leaves behind. */
module AdminMembers {
  import opened Values
  import opened Text
  import opened Seqs
  import opened MemberService

  /** The status drop-down: `'all' | 'active' | 'inactive'`. */
  datatype StatusFilter = All | OnlyActive | OnlyInactive

  /** The lower-cased name or email contains the lower-cased search term. */
  predicate MatchesSearch(m: Member, term: string) {
    Contains(ToLower(m.name), ToLower(term)) || Contains(ToLower(m.email), ToLower(term))
  }

  predicate MatchesStatus(m: Member, f: StatusFilter) {
    match f
    case All => true
    case OnlyActive => m.status == Active
    case OnlyInactive => m.status == Inactive
  }

  /** `filteredMembers`. */
  function FilteredMembers(ms: seq<Member>, term: string, f: StatusFilter): (r: seq<Member>)
    ensures forall m :: m in r <==> m in ms && MatchesSearch(m, term) && MatchesStatus(m, f)
    ensures Subseq(r, ms)
    ensures forall m :: multiset(r)[m] ==
              if MatchesSearch(m, term) && MatchesStatus(m, f) then multiset(ms)[m] else 0
  {
    FilterIsSubseq(ms, m => MatchesSearch(m, term) && MatchesStatus(m, f));
    Filter(ms, m => MatchesSearch(m, term) && MatchesStatus(m, f))
  }

  /** An empty search with status "all" shows every member. */
  lemma EmptySearchShowsAll(ms: seq<Member>)
    ensures FilteredMembers(ms, "", All) == ms
  {
    forall i | 0 <= i < |ms| ensures MatchesSearch(ms[i], "") {
      ContainsEmpty(ToLower(ms[i].name));
    }
    FilterKeepsAll(ms, m => MatchesSearch(m, "") && MatchesStatus(m, All));
  }

  /** A status filter shows only members of that status. */
  lemma StatusFilterIsExact(ms: seq<Member>, term: string)
    ensures forall m :: m in FilteredMembers(ms, term, OnlyActive) ==> m.status == Active
    ensures forall m :: m in FilteredMembers(ms, term, OnlyInactive) ==> m.status == Inactive
  {
  }

  /** For a fixed search term, "all" shows everything "active" or "inactive"
      shows, in the same order. */
  lemma AllCoversEachStatus(ms: seq<Member>, term: string)
    ensures Subseq(FilteredMembers(ms, term, OnlyActive), FilteredMembers(ms, term, All))
    ensures Subseq(FilteredMembers(ms, term, OnlyInactive), FilteredMembers(ms, term, All))
  {
    FilterMonotone(ms, m => MatchesSearch(m, term) && MatchesStatus(m, OnlyActive),
                       m => MatchesSearch(m, term) && MatchesStatus(m, All));
    FilterMonotone(ms, m => MatchesSearch(m, term) && MatchesStatus(m, OnlyInactive),
                       m => MatchesSearch(m, term) && MatchesStatus(m, All));
  }

  /** The search ignores the case of the term. */
  lemma SearchIgnoresCase(m: Member, term: string)
    ensures MatchesSearch(m, term) <==> MatchesSearch(m, ToLower(term))
  {
    assert ToLower(ToLower(term)) == ToLower(term);
  }

  /** The page's state. */
  datatype PageState = PageState(members: seq<Member>, loading: bool, error: Option<string>)

  /** How the race between `getAll` and the 10 s timeout ends. */
  datatype LoadOutcome = Loaded(members: seq<Member>) | LoadFailed(message: string) | TimedOut

  /** The race's outcome when `getAll` settles first. */
  function OutcomeOf(r: Result<seq<Member>>): (o: LoadOutcome)
    ensures r.Ok? <==> o.Loaded?
    ensures r.Ok? ==> o.members == r.value
    ensures r.Err? ==> o == LoadFailed(r.message)
  {
    match r
    case Ok(ms) => Loaded(ms)
    case Err(m) => LoadFailed(m)
  }

  /** `loadMembers`: loading always ends; either the list is replaced and
      the error cleared, or the error is set and the list kept. */
  function LoadMembers(p: PageState, o: LoadOutcome): (q: PageState)
    ensures !q.loading
    ensures o.Loaded? ==> q.members == o.members && q.error == None
    ensures !o.Loaded? ==> q.members == p.members && Truthy(q.error)
    ensures o.TimedOut? ==> q.error == Some("Request timeout")
    ensures o.LoadFailed? && o.message == "" ==> q.error == Some("Failed to load members")
    ensures o.LoadFailed? && o.message != "" ==> q.error == Some(o.message)
  {
    match o
    case Loaded(ms) => PageState(ms, false, None)
    case TimedOut => PageState(p.members, false, Some("Request timeout"))
    case LoadFailed(m) => PageState(p.members, false, Some(if m != "" then m else "Failed to load members"))
  }

  /** A successful load replaces whatever earlier loads left behind, and a
      failed one after it keeps its list. */
  lemma LastSuccessfulLoadWins(p: PageState, earlier: LoadOutcome, ms: seq<Member>, later: LoadOutcome)
    requires !later.Loaded?
    ensures LoadMembers(LoadMembers(p, earlier), Loaded(ms)) == LoadMembers(p, Loaded(ms))
    ensures LoadMembers(LoadMembers(p, Loaded(ms)), later).members == ms
  {
  }
}
