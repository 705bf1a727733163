/** Issues as clients see them: presented one by one, or as a page whose media and names are fetched in bulk. */
module Listing {
  import opened Contracts
  import opened Sequences
  import opened Store
  import opened IssueMedia

  datatype User = User(id: UserId, name: string)

  datatype PublicVolunteer = PublicVolunteer(id: UserId, name: Option<string>)

  datatype PublicIssue = PublicIssue(
    id: IssueId,
    report: Report,
    status: Status,
    reportedBy: UserId,
    statusReason: Option<string>,
    duplicateOf: Option<IssueId>,
    volunteer: Option<PublicVolunteer>,
    claimedAt: Option<Time>,
    resolutionNote: Option<string>,
    resolvedAt: Option<Time>,
    verifiedAt: Option<Time>,
    assessment: Option<Assessment>,
    media: seq<PublicMedia>)

  function ToPublicIssue(id: IssueId, x: Issue, media: seq<PublicMedia>, volunteerName: Option<string>): PublicIssue {
    PublicIssue(
      id, x.report, x.status, x.reportedBy, x.statusReason, x.duplicateOf,
      if x.volunteer.Some? then Some(PublicVolunteer(x.volunteer.value, volunteerName)) else None,
      x.claimedAt, x.resolutionNote, x.resolvedAt, x.verifiedAt, x.assessment, media)
  }

  function Among(ids: set<UserId>): User -> bool {
    (u: User) => u.id in ids
  }

  function ToMap(users: seq<User>): map<UserId, string> {
    if users == [] then map[]
    else
      var u := users[|users| - 1];
      ToMap(users[..|users| - 1])[u.id := u.name]
  }

  /** The users among `ids` mapped to their names; repeated ids change nothing. */
  function NamesFor(users: seq<User>, ids: seq<UserId>): map<UserId, string> {
    var unique := set id | id in ids;
    if unique == {} then map[] else ToMap(Filter(Among(unique), users))
  }

  function Lookup<K, V>(m: map<K, V>, k: K): Option<V> {
    if k in m then Some(m[k]) else None
  }

  lemma {:induction false} LookupIgnoresOthers(users: seq<User>, ids: set<UserId>, v: UserId)
    requires v in ids
    ensures Lookup(ToMap(Filter(Among(ids), users)), v) == Lookup(ToMap(users), v)
  {
    if users != [] {
      var n := |users| - 1;
      LookupIgnoresOthers(users[..n], ids, v);
      var kept := Filter(Among(ids), users[..n]);
      if Among(ids)(users[n]) {
        assert (kept + [users[n]])[..|kept|] == kept;
      } else {
        assert Filter(Among(ids), users) == kept;
      }
    }
  }

  /** Looking a name up in the page's batch gives what looking it up alone gives, and nobody else is named. */
  lemma NamesAgree(users: seq<User>, ids: seq<UserId>, v: UserId)
    ensures v in ids ==> Lookup(NamesFor(users, ids), v) == Lookup(NamesFor(users, [v]), v)
    ensures v !in ids ==> v !in NamesFor(users, ids)
  {
    var unique := set id | id in ids;
    if v in ids {
      LookupIgnoresOthers(users, unique, v);
      LookupIgnoresOthers(users, (set id | id in [v]), v);
    } else {
      OnlyAsked(users, unique, v);
    }
  }

  lemma {:induction false} OnlyAsked(users: seq<User>, ids: set<UserId>, v: UserId)
    requires v !in ids
    ensures v !in ToMap(Filter(Among(ids), users))
  {
    if users != [] {
      var n := |users| - 1;
      OnlyAsked(users[..n], ids, v);
      var kept := Filter(Among(ids), users[..n]);
      if Among(ids)(users[n]) {
        assert (kept + [users[n]])[..|kept|] == kept;
      } else {
        assert Filter(Among(ids), users) == kept;
      }
    }
  }

  /** One issue on its own: its own media listing and its own volunteer's name. */
  function Present(id: IssueId, x: Issue, files: seq<MediaFile>, users: seq<User>): PublicIssue {
    var name :=
      if x.volunteer.Some? then Lookup(NamesFor(users, [x.volunteer.value]), x.volunteer.value) else None;
    ToPublicIssue(id, x, ListFor(files, id), name)
  }

  function HasVolunteer(x: Issue): bool {
    x.volunteer.Some?
  }

  function VolunteerOf(x: Issue): UserId {
    if x.volunteer.Some? then x.volunteer.value else 0
  }

  class IssuesController {
    const db: Database
    const media: IssueMediaService

    constructor (db: Database, media: IssueMediaService)
      requires media.db == db
      ensures this.db == db && this.media == media
    {
      this.db, this.media := db, media;
    }

    /** Every entry of a page equals what presenting that issue alone would answer. */
    method FindAll(page: seq<IssueId>, users: seq<User>) returns (r: seq<PublicIssue>)
      requires media.db == db && forall id :: id in page ==> id in db.issues
      ensures |r| == |page|
      ensures forall k :: 0 <= k < |page| ==> r[k] == Present(page[k], db.issues[page[k]], db.files, users)
    {
      var issues :=
        seq(|page|, k requires 0 <= k < |page| reads db requires page[k] in db.issues => db.issues[page[k]]);
      var grouped := media.ListForMany(page);
      var ids := Map(VolunteerOf, Filter(HasVolunteer, issues));
      var names := NamesFor(users, ids);
      r := seq(|page|, k requires 0 <= k < |page| && k < |issues| =>
                 var x := issues[k];
                 ToPublicIssue(page[k], x, Entry(grouped, page[k]),
                               if x.volunteer.Some? then Lookup(names, x.volunteer.value) else None));
      forall k | 0 <= k < |page|
        ensures r[k] == Present(page[k], db.issues[page[k]], db.files, users)
      {
        assert Entry(grouped, page[k]) == ListFor(db.files, page[k]);
        if issues[k].volunteer.Some? {
          VolunteerAsked(issues, k);
          NamesAgree(users, ids, issues[k].volunteer.value);
        }
      }
    }
  }

  lemma VolunteerAsked(issues: seq<Issue>, k: nat)
    requires k < |issues| && issues[k].volunteer.Some?
    ensures issues[k].volunteer.value in Map(VolunteerOf, Filter(HasVolunteer, issues))
  {
    var holders := Filter(HasVolunteer, issues);
    FilterMember(HasVolunteer, issues, issues[k]);
    var j :| 0 <= j < |holders| && holders[j] == issues[k];
    assert Map(VolunteerOf, holders)[j] == issues[k].volunteer.value;
  }

  // --------------------------------------------------------- what is shown

  lemma {:induction false} NamedExactly(users: seq<User>, v: UserId)
    requires forall j, k :: 0 <= j < k < |users| ==> users[j].id != users[k].id
    ensures v in ToMap(users) <==> exists u :: u in users && u.id == v
    ensures forall u :: u in users && u.id == v ==> v in ToMap(users) && ToMap(users)[v] == u.name
  {
    if users != [] {
      var n := |users| - 1;
      NamedExactly(users[..n], v);
      assert users == users[..n] + [users[n]];
    }
  }

  /** A batch names exactly the asked-for ids that have an account, each with that account's name. */
  lemma NamesForExactly(users: seq<User>, ids: seq<UserId>, v: UserId)
    requires forall j, k :: 0 <= j < k < |users| ==> users[j].id != users[k].id
    ensures v in NamesFor(users, ids) <==> v in ids && exists u :: u in users && u.id == v
    ensures forall u :: u in users && u.id == v && v in ids ==>
              v in NamesFor(users, ids) && NamesFor(users, ids)[v] == u.name
  {
    var unique := set id | id in ids;
    NamedExactly(users, v);
    if v in ids {
      LookupIgnoresOthers(users, unique, v);
    } else {
      OnlyAsked(users, unique, v);
    }
  }

  /**
   What a client sees of an issue: its own fields under their own names, its media listing, and the
   volunteer by id and, while the account exists, by name. The reporter is only an id.
   */
  lemma PresentShows(id: IssueId, x: Issue, files: seq<MediaFile>, users: seq<User>)
    requires forall j, k :: 0 <= j < k < |users| ==> users[j].id != users[k].id
    ensures var p := Present(id, x, files, users);
            && p.id == id && p.report == x.report && p.status == x.status && p.reportedBy == x.reportedBy
            && p.statusReason == x.statusReason && p.duplicateOf == x.duplicateOf && p.claimedAt == x.claimedAt
            && p.resolutionNote == x.resolutionNote && p.resolvedAt == x.resolvedAt && p.verifiedAt == x.verifiedAt
            && p.assessment == x.assessment && p.media == ListFor(files, id)
            && (p.volunteer.Some? <==> x.volunteer.Some?)
            && (x.volunteer.Some? ==>
                  && p.volunteer.value.id == x.volunteer.value
                  && (p.volunteer.value.name.None? <==> forall u :: u in users ==> u.id != x.volunteer.value)
                  && forall u :: u in users && u.id == x.volunteer.value ==> p.volunteer.value.name == Some(u.name))
  {
    if x.volunteer.Some? {
      NamesForExactly(users, [x.volunteer.value], x.volunteer.value);
    }
  }
}
