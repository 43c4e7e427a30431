/** The customer dashboard: sessions grouped by customer domain and scenario, and one session's step timeline. */
module Dashboard {
  import opened LabSessions

  /** A session as the dashboard reads it; times in nanoseconds. */
  datatype Entry = Entry(
    email: string, scenario: string, steps: seq<StepRecord>, expired: bool, demo: bool, createdAt: int, expiresAt: int)

  datatype Key = Key(domain: string, scenario: string)

  datatype User = User(email: string, completed: nat, active: bool)

  datatype Group = Group(best: Entry, users: seq<User>)

  const THIRTY_DAYS: int := 30 * 24 * 3600 * SECOND

  // ---------------------------------------------------------------- which sessions, and where

  /** The offset of the last '@', or -1. */
  function LastAt(email: string): (k: int)
    ensures -1 <= k < |email| && (k >= 0 ==> email[k] == '@')
    ensures forall j :: k < j < |email| ==> email[j] != '@'
  {
    if email == [] then -1
    else if email[|email| - 1] == '@' then |email| - 1
    else LastAt(email[..|email| - 1])
  }

  /** The part of an address after its last '@'; `lower` stands for the library's lower-casing. */
  function EmailDomain(email: string, lower: string -> string): string {
    var k := LastAt(email);
    if k < 0 || k == |email| - 1 then "" else lower(email[k + 1..])
  }

  function KeyOf(e: Entry, lower: string -> string): Key {
    Key(EmailDomain(e.email, lower), e.scenario)
  }

  /** Not a demo session, not expired for more than thirty days, and with a domain. */
  predicate Kept(e: Entry, now: int, lower: string -> string) {
    !e.demo && !(e.expired && e.expiresAt < now - THIRTY_DAYS) && EmailDomain(e.email, lower) != ""
  }

  function UserOf(e: Entry): User {
    User(e.email, |e.steps|, !e.expired)
  }

  /** The kept sessions of a group, in order. */
  function Members(es: seq<Entry>, key: Key, now: int, lower: string -> string): seq<Entry> {
    if es == [] then []
    else
      var last := es[|es| - 1];
      Members(es[..|es| - 1], key, now, lower) +
      (if Kept(last, now, lower) && KeyOf(last, lower) == key then [last] else [])
  }

  function Users(es: seq<Entry>): (us: seq<User>)
    ensures |us| == |es|
    ensures forall i :: 0 <= i < |es| ==> us[i] == User(es[i].email, |es[i].steps|, !es[i].expired)
  {
    seq(|es|, i requires 0 <= i < |es| => UserOf(es[i]))
  }

  /** The domain is what follows the last '@', lower-cased, when something does. */
  lemma DomainIs(email: string, lower: string -> string, k: nat)
    requires k < |email| && email[k] == '@' && forall j :: k < j < |email| ==> email[j] != '@'
    ensures EmailDomain(email, lower) == if k + 1 == |email| then "" else lower(email[k + 1..])
  {
  }

  lemma NoDomain(email: string, lower: string -> string)
    requires '@' !in email
    ensures EmailDomain(email, lower) == ""
  {
  }

  /** Exactly the sessions of the group's scenario and domain that are no demos and not expired for thirty days. */
  lemma {:induction false} MemberIff(es: seq<Entry>, key: Key, now: int, lower: string -> string, e: Entry)
    ensures e in Members(es, key, now, lower) <==>
              && e in es && !e.demo && (e.expired ==> now - 30 * 24 * 3600 * 1_000_000_000 <= e.expiresAt)
              && EmailDomain(e.email, lower) == key.domain != "" && e.scenario == key.scenario
  {
    hide EmailDomain;
    if es != [] {
      MemberIff(es[..|es| - 1], key, now, lower, e);
      assert es == es[..|es| - 1] + [es[|es| - 1]];
    }
  }

  /** They stand in the order of the list. */
  lemma {:induction false} MembersJoin(a: seq<Entry>, b: seq<Entry>, key: Key, now: int, lower: string -> string)
    ensures Members(a + b, key, now, lower) == Members(a, key, now, lower) + Members(b, key, now, lower)
  {
    hide Kept, KeyOf;
    if b == [] {
      assert a + b == a;
    } else {
      assert (a + b)[..|a + b| - 1] == a + b[..|b| - 1];
      MembersJoin(a, b[..|b| - 1], key, now, lower);
    }
  }

  function KeptCount(es: seq<Entry>, now: int, lower: string -> string): nat {
    if es == [] then 0
    else KeptCount(es[..|es| - 1], now, lower) + (if Kept(es[|es| - 1], now, lower) then 1 else 0)
  }

  // ---------------------------------------------------------------- the best of a group

  /** More completed steps first, then active before expired. */
  predicate Above(a: Entry, b: Entry) {
    |a.steps| > |b.steps| || (|a.steps| == |b.steps| && !a.expired && b.expired)
  }

  /** The first member that no member is above. */
  predicate IsBest(b: Entry, members: seq<Entry>) {
    exists i :: 0 <= i < |members| && members[i] == b && FirstBest(members, i)
  }

  predicate FirstBest(members: seq<Entry>, i: nat)
    requires i < |members|
  {
    && (forall j :: 0 <= j < |members| ==> !Above(members[j], members[i]))
    && (forall j :: 0 <= j < i ==> Above(members[i], members[j]))
  }

  /** No member has more completed steps, none with as many is active while the best is expired, and of those as
      good the best comes first. */
  lemma BestMeans(b: Entry, members: seq<Entry>)
    requires IsBest(b, members)
    ensures exists i :: 0 <= i < |members| && members[i] == b
              && (forall j :: 0 <= j < |members| ==>
                    |members[j].steps| < |b.steps| ||
                    (|members[j].steps| == |b.steps| && (b.expired ==> members[j].expired)))
              && (forall j :: 0 <= j < i ==>
                    |members[j].steps| < |b.steps| || (members[j].expired && !b.expired))
  {
    var i :| 0 <= i < |members| && members[i] == b && FirstBest(members, i);
    assert forall j :: 0 <= j < i ==> Above(members[i], members[j]);
  }

  // ---------------------------------------------------------------- grouping

  /** A group stands for its members: it is there when they are, lists them as users and has the best of them. */
  predicate GroupFits(groups: map<Key, Group>, key: Key, members: seq<Entry>) {
    && (key in groups <==> members != [])
    && (key in groups ==> groups[key].users == Users(members) && IsBest(groups[key].best, members))
  }

  /** The groups of a list of sessions. */
  ghost predicate Grouped(groups: map<Key, Group>, es: seq<Entry>, now: int, lower: string -> string) {
    forall key :: GroupFits(groups, key, Members(es, key, now, lower))
  }

  /** How many users the groups list, together. */
  ghost function UserCount(groups: map<Key, Group>): nat
    decreases |groups|
  {
    if groups == map[] then 0
    else
      var key :| key in groups;
      |groups[key].users| + UserCount(groups - {key})
  }

  /** Any group can be counted first. */
  lemma {:induction false} CountOut(groups: map<Key, Group>, key: Key)
    requires key in groups
    ensures UserCount(groups) == |groups[key].users| + UserCount(groups - {key})
    decreases |groups|
  {
    var first :| first in groups && UserCount(groups) == |groups[first].users| + UserCount(groups - {first});
    if first != key {
      CountOut(groups - {first}, key);
      CountOut(groups - {key}, first);
      assert groups - {first} - {key} == groups - {key} - {first};
    }
  }

  lemma CountUpdate(groups: map<Key, Group>, key: Key, g: Group)
    ensures UserCount(groups[key := g]) ==
            UserCount(groups) + |g.users| - (if key in groups then |groups[key].users| else 0)
  {
    hide UserCount;
    CountOut(groups[key := g], key);
    if key in groups {
      CountOut(groups, key);
      assert groups[key := g] - {key} == groups - {key};
    } else {
      assert groups[key := g] - {key} == groups;
    }
  }

  lemma CountNone()
    ensures UserCount(map[]) == 0
  {
  }

  /** A new member takes over from the best exactly when it is above it. */
  lemma BestAfter(members: seq<Entry>, b: Entry, e: Entry)
    requires IsBest(b, members)
    ensures IsBest(if Above(e, b) then e else b, members + [e])
  {
    var i :| 0 <= i < |members| && members[i] == b && FirstBest(members, i);
    var all := members + [e];
    if Above(e, b) {
      assert all[|members|] == e;
      assert forall j :: 0 <= j < |members| ==> Above(e, members[j]);
      assert FirstBest(all, |members|);
    } else {
      assert all[i] == b && FirstBest(all, i);
    }
  }

  lemma BestAlone(e: Entry)
    ensures IsBest(e, [e])
  {
    assert [e][0] == e && FirstBest([e], 0);
  }

  /**
   * Groups the sessions: each kept session in one group and no other in any, the group's users in order, its best
   * the first of its best; and the groups together list as many users as there are kept sessions.
   */
  method GroupSessions(es: seq<Entry>, now: int, lower: string -> string) returns (groups: map<Key, Group>)
    ensures Grouped(groups, es, now, lower)
    ensures UserCount(groups) == KeptCount(es, now, lower)
  {
    hide Members, IsBest, Users, UserCount;
    var cutoff := now - THIRTY_DAYS;
    groups := map[];
    GroupedNone(now, lower);
    CountNone();
    var i := 0;
    while i < |es|
      invariant 0 <= i <= |es|
      invariant Grouped(groups, es[..i], now, lower)
      invariant UserCount(groups) == KeptCount(es[..i], now, lower)
    {
      var e := es[i];
      assert es[..i + 1][..i] == es[..i];
      i := i + 1;
      Taken(groups, es, i, now, lower);
      if e.demo {
        continue;
      }
      if e.expired && e.expiresAt < cutoff {
        continue;
      }
      var domain := EmailDomain(e.email, lower);
      if domain == "" {
        continue;
      }
      var key := Key(domain, e.scenario);
      var active := !e.expired;
      var user := User(e.email, |e.steps|, active);
      var g;
      if key !in groups {
        g := Group(e, [user]);
      } else {
        g := groups[key];
        g := g.(users := g.users + [user]);
        if |e.steps| > |g.best.steps| || (|e.steps| == |g.best.steps| && active && g.best.expired) {
          g := g.(best := e);
        }
      }
      CountUpdate(groups, key, g);
      groups := groups[key := g];
    }
    assert es[..|es|] == es;
  }

  lemma GroupedNone(now: int, lower: string -> string)
    ensures Grouped(map[], [], now, lower) && KeptCount([], now, lower) == 0
  {
  }

  /** The group map after one more session. */
  function Taking(groups: map<Key, Group>, e: Entry, lower: string -> string): map<Key, Group> {
    var key := KeyOf(e, lower);
    groups[key :=
      if key in groups then
        Group(if Above(e, groups[key].best) then e else groups[key].best, groups[key].users + [UserOf(e)])
      else Group(e, [UserOf(e)])]
  }

  lemma Taken(groups: map<Key, Group>, es: seq<Entry>, i: nat, now: int, lower: string -> string)
    requires 0 < i <= |es| && Grouped(groups, es[..i - 1], now, lower)
    ensures var e := es[i - 1];
            && KeptCount(es[..i], now, lower) ==
               KeptCount(es[..i - 1], now, lower) + (if Kept(e, now, lower) then 1 else 0)
            && (!Kept(e, now, lower) ==> Grouped(groups, es[..i], now, lower))
            && (Kept(e, now, lower) ==> Grouped(Taking(groups, e, lower), es[..i], now, lower))
  {
    hide EmailDomain, GroupFits, Kept, Taking;
    var e := es[i - 1];
    assert es[..i][..i - 1] == es[..i - 1];
    if Kept(e, now, lower) {
      forall key
        ensures GroupFits(Taking(groups, e, lower), key, Members(es[..i], key, now, lower))
      {
        assert GroupFits(groups, key, Members(es[..i - 1], key, now, lower));
        TakenKey(groups, e, key, Members(es[..i - 1], key, now, lower), lower);
      }
    } else {
      forall key
        ensures GroupFits(groups, key, Members(es[..i], key, now, lower))
      {
        assert GroupFits(groups, key, Members(es[..i - 1], key, now, lower));
        assert Members(es[..i], key, now, lower) == Members(es[..i - 1], key, now, lower);
      }
    }
  }

  lemma TakenKey(groups: map<Key, Group>, e: Entry, key: Key, members: seq<Entry>, lower: string -> string)
    requires GroupFits(groups, key, members)
    ensures GroupFits(Taking(groups, e, lower), key, members + (if KeyOf(e, lower) == key then [e] else []))
  {
    hide IsBest, Users, KeyOf;
    if KeyOf(e, lower) == key {
      UsersAppend(members, e);
      if key in groups {
        BestAfter(members, groups[key].best, e);
      } else {
        BestAlone(e);
        assert members + [e] == [e];
      }
    } else {
      assert members + [] == members;
    }
  }

  lemma UsersAppend(es: seq<Entry>, e: Entry)
    ensures Users(es + [e]) == Users(es) + [UserOf(e)] && Users([]) == []
  {
  }

  // ---------------------------------------------------------------- a session's timeline

  datatype StepView = Passed(completedAt: int, duration: int) | Active(startedAt: int) | Pending

  /** When the step before the k-th was completed: the session's creation, for the first. */
  function Before(e: Entry, k: nat): int
    requires k <= |e.steps|
  {
    if k == 0 then e.createdAt else e.steps[k - 1].completedAt
  }

  function Shown(e: Entry, count: nat): (n: nat)
    ensures n <= |e.steps| && n <= count
  {
    if count < |e.steps| then count else |e.steps|
  }

  /** Passed steps first, then one active step if the session is and a step is left, then pending ones. */
  predicate Shape(views: seq<StepView>, e: Entry) {
    forall k :: 0 <= k < |views| ==> Fits(views[k], k, e)
  }

  predicate Fits(v: StepView, k: nat, e: Entry) {
    && (v.Passed? <==> k < |e.steps|)
    && (v.Active? <==> k == |e.steps| && !e.expired)
    && (v.Passed? ==> v == Passed(Before(e, k + 1), Before(e, k + 1) - Before(e, k)))
    && (v.Active? ==> v.startedAt == Before(e, k))
  }

  /** The time spent in the first passed steps, together. */
  function Total(views: seq<StepView>): int {
    if views == [] then 0
    else Total(views[..|views| - 1]) + (if views[|views| - 1].Passed? then views[|views| - 1].duration else 0)
  }

  /** The durations add up to the last completion shown, no duration being negative exactly when times go forward. */
  predicate Accounted(views: seq<StepView>, e: Entry) {
    && Total(views) == Before(e, Shown(e, |views|)) - e.createdAt
    && ((forall k :: 0 <= k < |views| && views[k].Passed? ==> views[k].duration >= 0) <==>
        (forall k :: 0 <= k < Shown(e, |views|) ==> Before(e, k) <= Before(e, k + 1)))
  }

  method Timeline(e: Entry, count: nat) returns (views: seq<StepView>)
    ensures |views| == count && Shape(views, e) && Accounted(views, e)
    ensures forall k :: 0 <= k < count ==>
              var since := if k == 0 || |e.steps| < k then e.createdAt else e.steps[k - 1].completedAt;
              views[k] == if k < |e.steps| then Passed(e.steps[k].completedAt, e.steps[k].completedAt - since)
                          else if k == |e.steps| && !e.expired then Active(since) else Pending
  {
    hide Total, Shape;
    views := [];
    NoneShown(e);
    var completed := |e.steps|;
    var active := !e.expired;
    var i := 0;
    while i < count
      invariant 0 <= i <= count && |views| == i && Shape(views, e)
      invariant Total(views) == Before(e, Shown(e, i)) - e.createdAt
    {
      var view := Pending;
      if i < completed {
        var record := e.steps[i];
        var previous := e.createdAt;
        if i > 0 {
          previous := e.steps[i - 1].completedAt;
        }
        view := Passed(record.completedAt, record.completedAt - previous);
      } else if i == completed && active {
        var t := e.createdAt;
        if completed > 0 {
          t := e.steps[completed - 1].completedAt;
        }
        view := Active(t);
      }
      ShowOne(views, e, view);
      views := views + [view];
      i := i + 1;
    }
    Forward(views, e);
    ShapeIs(views, e);
  }

  lemma ShapeIs(views: seq<StepView>, e: Entry)
    requires Shape(views, e)
    ensures forall k :: 0 <= k < |views| ==>
              var since := if k == 0 || |e.steps| < k then e.createdAt else e.steps[k - 1].completedAt;
              views[k] == if k < |e.steps| then Passed(e.steps[k].completedAt, e.steps[k].completedAt - since)
                          else if k == |e.steps| && !e.expired then Active(since) else Pending
  {
    assert forall k :: 0 <= k < |views| ==> Fits(views[k], k, e);
  }

  lemma NoneShown(e: Entry)
    ensures Shape([], e) && Total([]) == 0
  {
  }

  lemma ShowOne(views: seq<StepView>, e: Entry, v: StepView)
    requires Shape(views, e) && Fits(v, |views|, e)
    ensures Shape(views + [v], e) && Total(views + [v]) == Total(views) + (if v.Passed? then v.duration else 0)
  {
    assert (views + [v])[..|views|] == views;
  }

  lemma Forward(views: seq<StepView>, e: Entry)
    requires Shape(views, e)
    ensures (forall k :: 0 <= k < |views| && views[k].Passed? ==> views[k].duration >= 0) <==>
            (forall k :: 0 <= k < Shown(e, |views|) ==> Before(e, k) <= Before(e, k + 1))
  {
    if forall k :: 0 <= k < |views| && views[k].Passed? ==> views[k].duration >= 0 {
      forall k | 0 <= k < Shown(e, |views|)
        ensures Before(e, k) <= Before(e, k + 1)
      {
        assert views[k].Passed?;
      }
    }
    if forall k :: 0 <= k < Shown(e, |views|) ==> Before(e, k) <= Before(e, k + 1) {
      forall k | 0 <= k < |views| && views[k].Passed?
        ensures views[k].duration >= 0
      {
        assert k < Shown(e, |views|);
      }
    }
  }
}
