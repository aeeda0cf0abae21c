/** `GET /api/admin/overview` of backend/src/routes/admin.js: read-only
    queries over the three tables, for administrators only. */
module Admin {
  import opened Common
  import opened Schema
  import opened Access
  import opened Transformers
  import opened Store

  /** The positions below `k` of the rows whose status is `s`. */
  ghost function StatusIndices(apps: seq<AppRow>, s: Status, k: nat): set<nat>
    requires k <= |apps|
  {
    set i: nat | i < k && apps[i].status == s
  }

  /** `SELECT COUNT(*) FROM loan_applications WHERE status = ?`: the number
      of rows whose status is `s`. */
  function CountStatus(apps: seq<AppRow>, s: Status): (n: nat)
    ensures n == |StatusIndices(apps, s, |apps|)|
    ensures n <= |apps|
  {
    if apps == [] then 0
    else
      var k := |apps| - 1;
      var m := CountStatus(apps[..k], s);
      PrefixIndices(apps, s, k);
      StatusIndicesStep(apps, s, k);
      m + (if apps[k].status == s then 1 else 0)
  }

  /** The positions in a prefix are the positions below its length. */
  lemma PrefixIndices(apps: seq<AppRow>, s: Status, k: nat)
    requires k <= |apps|
    ensures StatusIndices(apps[..k], s, k) == StatusIndices(apps, s, k)
  {
    assert forall i: nat :: i < k ==> apps[..k][i] == apps[i];
  }

  /** One more position adds it to the set exactly when its status is `s`. */
  lemma StatusIndicesStep(apps: seq<AppRow>, s: Status, k: nat)
    requires k < |apps|
    ensures |StatusIndices(apps, s, k + 1)| == |StatusIndices(apps, s, k)| + (if apps[k].status == s then 1 else 0)
  {
    var before := StatusIndices(apps, s, k);
    assert k !in before;
    if apps[k].status == s {
      assert StatusIndices(apps, s, k + 1) == before + {k};
    } else {
      assert StatusIndices(apps, s, k + 1) == before;
    }
  }

  /** Every application has one of the three statuses, so the three counts
      add up to the number of applications. */
  lemma {:induction false} CountsAddUp(apps: seq<AppRow>)
    ensures CountStatus(apps, Pending) + CountStatus(apps, Approved) + CountStatus(apps, Rejected) == |apps|
  {
    if apps != [] {
      CountsAddUp(apps[..|apps| - 1]);
    }
  }

  datatype Totals = Totals(totalUsers: nat, totalApplications: nat, pending: nat, approved: nat, rejected: nat)

  function ComputeTotals(users: seq<UserRow>, apps: seq<AppRow>): (t: Totals)
    ensures t.totalUsers == |users| && t.totalApplications == |apps|
    ensures t.pending == CountStatus(apps, Pending)
    ensures t.approved == CountStatus(apps, Approved)
    ensures t.rejected == CountStatus(apps, Rejected)
    ensures t.pending + t.approved + t.rejected == t.totalApplications
  {
    CountsAddUp(apps);
    Totals(|users|, |apps|, CountStatus(apps, Pending), CountStatus(apps, Approved), CountStatus(apps, Rejected))
  }

  /** An event with the name of its actor: `LEFT JOIN users`, so the event
      is kept, with no name, when the actor is unknown. */
  datatype RecentEvent = RecentEvent(event: EventRow, actorName: Option<string>)

  function WithActor(users: seq<UserRow>, e: EventRow): (r: RecentEvent)
    ensures r.event == e
    ensures r.actorName.Some? <==> e.actorId.Some? && UserById(users, e.actorId.value).Some?
    ensures r.actorName.Some? ==> r.actorName.value == UserById(users, e.actorId.value).value.name
  {
    if e.actorId.Some? && UserById(users, e.actorId.value).Some?
    then RecentEvent(e, Some(UserById(users, e.actorId.value).value.name))
    else RecentEvent(e, None)
  }

  function EventsOf(recent: seq<RecentEvent>): (r: seq<EventRow>)
    ensures |r| == |recent|
    ensures forall i :: 0 <= i < |r| ==> r[i] == recent[i].event
  {
    seq(|recent|, i requires 0 <= i < |recent| => recent[i].event)
  }

  datatype Overview = Overview(totals: Totals, recentApplications: seq<LoanRecord>, recentEvents: seq<RecentEvent>)

  /** The five newest applications, with their owners. */
  function RecentApplications(users: seq<UserRow>, apps: seq<AppRow>): (recent: seq<LoanRecord>)
    ensures |recent| <= 5
    ensures var all := AdminListing(users, apps, None, None); recent == Take(all, 5)
    ensures SortedDesc(AppsOf(recent), CreatedAt)
  {
    var all := AdminListing(users, apps, None, None);
    var recent := Take(all, 5);
    assert AppsOf(recent) == AppsOf(all)[..|recent|];
    recent
  }

  /** The ten newest events, each with its actor's name when known. */
  function RecentEvents(users: seq<UserRow>, events: seq<EventRow>): (recent: seq<RecentEvent>)
    ensures |recent| == if |events| < 10 then |events| else 10
    ensures EventsOf(recent) == Take(SortDesc(events, EventCreatedAt), 10)
    ensures SortedDesc(EventsOf(recent), EventCreatedAt)
  {
    var newest := Take(SortDesc(events, EventCreatedAt), 10);
    var recent := seq(|newest|, i requires 0 <= i < |newest| => WithActor(users, newest[i]));
    assert EventsOf(recent) == newest;
    recent
  }

  /** `GET /api/admin/overview`: only for an authenticated administrator. */
  function GetOverview(actor: Option<PublicUser>, users: seq<UserRow>, apps: seq<AppRow>, events: seq<EventRow>): (r: Result<Overview>)
    ensures actor.None? ==> r == Err(ApiError(401, "Authentication required"))
    ensures actor.Some? && actor.value.role != AdminRole ==> r == Err(ApiError(403, "Administrator access required"))
    ensures r.Ok? <==> RequireAdmin(actor).Proceed?
    ensures r.Ok? ==> r.value == Overview(ComputeTotals(users, apps), RecentApplications(users, apps), RecentEvents(users, events))
  {
    if RequireAuth(actor).Deny? then Err(RequireAuth(actor).error)
    else if RequireAdmin(actor).Deny? then Err(RequireAdmin(actor).error)
    else Ok(Overview(ComputeTotals(users, apps), RecentApplications(users, apps), RecentEvents(users, events)))
  }

  /** Nothing newer is left out: every application the overview omits is
      no newer than every one it shows. */
  lemma RecentAreNewest(users: seq<UserRow>, apps: seq<AppRow>, i: nat, j: nat)
    requires i < |RecentApplications(users, apps)| <= j < |AdminListing(users, apps, None, None)|
    ensures RecentApplications(users, apps)[i].app.createdAt >= AdminListing(users, apps, None, None)[j].app.createdAt
  {
    var all := AdminListing(users, apps, None, None);
    assert RecentApplications(users, apps)[i] == all[i];
    assert AppsOf(all)[i] == all[i].app && AppsOf(all)[j] == all[j].app;
  }

  /** Every joined application is among the candidates of the recent list:
      when there are at most five, all of them are shown. */
  lemma FewApplicationsAllShown(users: seq<UserRow>, apps: seq<AppRow>)
    requires |AdminListing(users, apps, None, None)| <= 5
    ensures RecentApplications(users, apps) == AdminListing(users, apps, None, None)
  {
  }
}
