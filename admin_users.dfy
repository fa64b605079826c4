/** The administrator's user table: a case-insensitive search over the
    profiles, and an inline editor that overwrites one user's three
    resource balances with the values typed in. */
module AdminUsers {
  import opened Common

  datatype UserProfile = UserProfile(
    id: string,
    userId: string,
    username: Option<string>,
    fullName: Option<string>,
    isAdmin: bool,
    ramGb: int,
    diskGb: int,
    cpuCores: int,
    updatedAt: string)

  /** The values in the inline editor. */
  datatype Draft = Draft(ram: int, disk: int, cpu: int)

  datatype DraftField = RamField | DiskField | CpuField

  /** A row matches the search when its username, its full name (each
      skipped when absent) or its id contains the term, ignoring case. */
  predicate UserMatches(u: UserProfile, term: string)
  {
    (u.username.Some? && MatchesTerm(u.username.value, term))
    || (u.fullName.Some? && MatchesTerm(u.fullName.value, term))
    || MatchesTerm(u.id, term)
  }

  /** The rows shown for a search term: the matching rows in their order. */
  function FilteredUsers(users: seq<UserProfile>, term: string): (r: seq<UserProfile>)
    ensures IsSubseq(r, users)
    ensures forall i :: 0 <= i < |r| ==> UserMatches(r[i], term)
    ensures forall i :: 0 <= i < |users| && UserMatches(users[i], term) ==> users[i] in r && multiset(r)[users[i]] == multiset(users)[users[i]]
    ensures multiset(r) <= multiset(users)
  {
    var keep := (u: UserProfile) => UserMatches(u, term);
    FilterIsSubseq(users, keep);
    Filter(users, keep)
  }

  /** An empty search shows every user, since every id contains "". */
  lemma EmptySearchShowsAll(users: seq<UserProfile>)
    ensures FilteredUsers(users, "") == users
  {
    var keep := (u: UserProfile) => UserMatches(u, "");
    forall i | 0 <= i < |users|
      ensures keep(users[i])
    {
      EmptyTermMatches(users[i].id);
    }
    FilterKeepsAll(users, keep);
  }

  /** The draft opened for a user: that user's current balances. */
  function DraftOf(u: UserProfile): (d: Draft)
    ensures d.ram == u.ramGb && d.disk == u.diskGb && d.cpu == u.cpuCores
  {
    Draft(u.ramGb, u.diskGb, u.cpuCores)
  }

  /** Typing into one field of the draft: `parseInt(text) || 0`. */
  function EditDraft(d: Draft, field: DraftField, text: string): (r: Draft)
    ensures field == RamField ==> r == d.(ram := ParseIntOrZero(text))
    ensures field == DiskField ==> r == d.(disk := ParseIntOrZero(text))
    ensures field == CpuField ==> r == d.(cpu := ParseIntOrZero(text))
  {
    match field
    case RamField => d.(ram := ParseIntOrZero(text))
    case DiskField => d.(disk := ParseIntOrZero(text))
    case CpuField => d.(cpu := ParseIntOrZero(text))
  }

  /** The value of one field of the draft. */
  function FieldValue(d: Draft, field: DraftField): int
  {
    match field
    case RamField => d.ram
    case DiskField => d.disk
    case CpuField => d.cpu
  }

  /** Typing into a field changes that field only. Clearing it, or typing
      something that does not start with a number, puts 0 in it; a decimal
      number is stored as that number, and a negative one is accepted as
      typed. */
  lemma EditDraftReadsNumbers(d: Draft, field: DraftField, text: string, n: nat)
    ensures forall g :: g != field ==> FieldValue(EditDraft(d, field, text), g) == FieldValue(d, g)
    ensures ParseInt(text).None? ==> FieldValue(EditDraft(d, field, text), field) == 0
    ensures FieldValue(EditDraft(d, field, ""), field) == 0
    ensures FieldValue(EditDraft(d, field, "abc"), field) == 0
    ensures FieldValue(EditDraft(d, field, NatToString(n)), field) == n
    ensures FieldValue(EditDraft(d, field, "-" + NatToString(n)), field) == -(n as int)
  {
    ParseIntNatToString(n);
    ParseIntWithoutDigits("", "", "");
    ParseIntWithoutDigits("", "", "abc");
    assert "" + "" + "abc" == "abc";
    var s := NatToString(n);
    ParseIntReadsPrefix("", "-", s, "");
    assert "" + "-" + s + "" == "-" + s;
    DigitsValueOfNat(n);
  }

  /** The row after a save: the matching row's balances become the draft's
      values (an overwrite, not an increment) and its timestamp `now`. */
  function SaveDraft(users: seq<UserProfile>, id: string, d: Draft, now: string): (r: seq<UserProfile>)
    ensures |r| == |users|
    ensures forall i :: 0 <= i < |users| && users[i].id == id ==>
      r[i] == users[i].(ramGb := d.ram, diskGb := d.disk, cpuCores := d.cpu, updatedAt := now)
    ensures forall i :: 0 <= i < |users| && users[i].id != id ==> r[i] == users[i]
  {
    seq(|users|, i requires 0 <= i < |users| =>
      if users[i].id == id
      then users[i].(ramGb := d.ram, diskGb := d.disk, cpuCores := d.cpu, updatedAt := now)
      else users[i])
  }

  /** Opening the editor on a user and saving without typing leaves every
      balance in the table as it was (only timestamps move). */
  lemma SaveUntouchedDraftKeepsBalances(users: seq<UserProfile>, k: int, now: string)
    requires 0 <= k < |users|
    requires forall i, j :: 0 <= i < j < |users| ==> users[i].id != users[j].id
    ensures var r := SaveDraft(users, users[k].id, DraftOf(users[k]), now);
      forall i :: 0 <= i < |users| ==>
        r[i].ramGb == users[i].ramGb && r[i].diskGb == users[i].diskGb && r[i].cpuCores == users[i].cpuCores
  {
  }

  /** The balances a save writes do not depend on the balances stored
      before: two tables that differ only in that row's balances end up equal. */
  lemma SaveOverwrites(users: seq<UserProfile>, k: int, other: UserProfile, d: Draft, now: string)
    requires 0 <= k < |users|
    requires other == users[k].(ramGb := other.ramGb, diskGb := other.diskGb, cpuCores := other.cpuCores)
    ensures SaveDraft(users[k := other], users[k].id, d, now) == SaveDraft(users, users[k].id, d, now)
  {
  }

  /** The user administration page. */
  class AdminUsersPage {
    var users: seq<UserProfile>
    /** The id of the row being edited, if any. */
    var editing: Option<string>
    var draft: Draft
    var isUpdating: bool

    constructor (users: seq<UserProfile>)
      ensures this.users == users && editing == None && draft == Draft(0, 0, 0) && !isUpdating
    {
      this.users := users;
      editing, draft, isUpdating := None, Draft(0, 0, 0), false;
    }

    /** Open the editor on `u`, seeded with its balances. */
    method EditCredits(u: UserProfile)
      modifies this
      ensures editing == Some(u.id) && draft == DraftOf(u)
      ensures users == old(users) && isUpdating == old(isUpdating)
    {
      editing := Some(u.id);
      draft := DraftOf(u);
    }

    method ChangeDraft(field: DraftField, text: string)
      modifies this
      ensures draft == EditDraft(old(draft), field, text)
      ensures users == old(users) && editing == old(editing) && isUpdating == old(isUpdating)
    {
      draft := EditDraft(draft, field, text);
    }

    /** Save the draft to row `id`; `writeOk` is whether the update
        succeeds and `now` the time it is stamped with. On success the
        editor closes and the table is fetched again. */
    method SaveCredits(id: string, writeOk: bool, now: string)
      modifies this
      ensures users == if writeOk then SaveDraft(old(users), id, old(draft), now) else old(users)
      ensures editing == if writeOk then None else old(editing)
      ensures draft == old(draft) && !isUpdating
    {
      isUpdating := true;
      if writeOk {
        users := SaveDraft(users, id, draft, now);
        editing := None;
      }
      isUpdating := false;
    }

    /** Close the editor without writing. */
    method Cancel()
      modifies this
      ensures editing == None
      ensures users == old(users) && draft == old(draft) && isUpdating == old(isUpdating)
    {
      editing := None;
    }
  }
}
