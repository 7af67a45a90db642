/** The alert registry: each user's alerts and the list of all alerts, sharing the alert objects. */
module Alerts {
  import opened Common
  import opened AlertRecord
  import opened AlertMatch

  /** no alert object is listed twice. */
  predicate Distinct(alerts: seq<Alert>)
  {
    forall i, j :: 0 <= i < j < |alerts| ==> alerts[i] != alerts[j]
  }

  /** The alerts of `alerts` whose id is not `id`, in order. */
  function WithoutId(alerts: seq<Alert>, id: string): (r: seq<Alert>)
    reads set a | a in alerts
    ensures forall i :: 0 <= i < |r| ==> r[i] in alerts && r[i].id != id
    ensures forall i :: 0 <= i < |alerts| && alerts[i].id != id ==> alerts[i] in r
    ensures Distinct(alerts) ==> Distinct(r)
  {
    if alerts == [] then []
    else
      var rest := WithoutId(alerts[..|alerts| - 1], id);
      var last := alerts[|alerts| - 1];
      assert forall i :: 0 <= i < |alerts| - 1 ==> alerts[..|alerts| - 1][i] == alerts[i];
      if last.id != id then rest + [last] else rest
  }

  /** The alerts of `alerts` whose id is not `id` or whose owner is not `user`, in order. */
  function WithoutOwnId(alerts: seq<Alert>, id: string, user: string): (r: seq<Alert>)
    reads set a | a in alerts
    ensures forall i :: 0 <= i < |r| ==> r[i] in alerts && (r[i].id != id || r[i].userId != user)
    ensures forall i :: 0 <= i < |alerts| && (alerts[i].id != id || alerts[i].userId != user) ==> alerts[i] in r
    ensures Distinct(alerts) ==> Distinct(r)
  {
    if alerts == [] then []
    else
      var rest := WithoutOwnId(alerts[..|alerts| - 1], id, user);
      var last := alerts[|alerts| - 1];
      assert forall i :: 0 <= i < |alerts| - 1 ==> alerts[..|alerts| - 1][i] == alerts[i];
      if last.id != id || last.userId != user then rest + [last] else rest
  }

  /** The alerts kept by `WithoutId`, stated on membership. */
  lemma WithoutIdMembers(alerts: seq<Alert>, id: string)
    ensures forall a :: a in WithoutId(alerts, id) <==> a in alerts && a.id != id
  {
    var r := WithoutId(alerts, id);
    forall a | a in alerts && a.id != id ensures a in r
    {
      var i :| 0 <= i < |alerts| && alerts[i] == a;
    }
    forall a | a in r ensures a in alerts && a.id != id
    {
      var i :| 0 <= i < |r| && r[i] == a;
    }
  }

  /** The alerts kept by `WithoutOwnId`, stated on membership. */
  lemma WithoutOwnIdMembers(alerts: seq<Alert>, id: string, user: string)
    ensures forall a :: a in WithoutOwnId(alerts, id, user) <==> a in alerts && (a.id != id || a.userId != user)
  {
    var r := WithoutOwnId(alerts, id, user);
    forall a | a in alerts && (a.id != id || a.userId != user) ensures a in r
    {
      var i :| 0 <= i < |alerts| && alerts[i] == a;
    }
    forall a | a in r ensures a in alerts && (a.id != id || a.userId != user)
    {
      var i :| 0 <= i < |r| && r[i] == a;
    }
  }

  /** The first alert of `alerts` with id `id`. */
  function FirstById(alerts: seq<Alert>, id: string): (r: Option<Alert>)
    reads set a | a in alerts
    ensures r.Some? ==> r.value in alerts && r.value.id == id
    ensures r.None? ==> forall a :: a in alerts ==> a.id != id
  {
    if alerts == [] then None
    else if alerts[0].id == id then Some(alerts[0])
    else
      assert forall a :: a in alerts[1..] ==> a in alerts;
      FirstById(alerts[1..], id)
  }

  /** The active alerts of `alerts`, in order. */
  function ActiveOnly(alerts: seq<Alert>): (r: seq<Alert>)
    reads set a | a in alerts
    ensures forall i :: 0 <= i < |r| ==> r[i] in alerts && r[i].isActive
    ensures forall i :: 0 <= i < |alerts| && alerts[i].isActive ==> alerts[i] in r
  {
    if alerts == [] then []
    else
      var rest := ActiveOnly(alerts[..|alerts| - 1]);
      var last := alerts[|alerts| - 1];
      assert forall i :: 0 <= i < |alerts| - 1 ==> alerts[..|alerts| - 1][i] == alerts[i];
      if last.isActive then rest + [last] else rest
  }

  /** What matching reads of each alert, in list order. */
  function Views(alerts: seq<Alert>): (vs: seq<AlertView>)
    reads set a | a in alerts
    ensures |vs| == |alerts| && forall k :: 0 <= k < |alerts| ==> vs[k] == alerts[k].View()
  {
    seq(|alerts|, k requires 0 <= k < |alerts| reads set a | a in alerts => alerts[k].View())
  }

  /** The alert objects listed in `users` or `all`. */
  function Listed(users: map<string, seq<Alert>>, all: seq<Alert>): set<Alert>
  {
    (set a | a in all) + (set u, a | u in users && a in users[u] :: a)
  }

  /** The user lists and the list of all alerts hold the same alerts, each under its owner. */
  ghost predicate Agree(users: map<string, seq<Alert>>, all: seq<Alert>)
    reads Listed(users, all)
  {
    && (forall u, a :: u in users && a in users[u] ==> a in all && a.userId == u)
    && (forall a :: a in all ==> a.userId in users && a in users[a.userId])
  }

  /** The user lists once `user`'s alerts with id `id` are dropped. */
  function DropFromUser(users: map<string, seq<Alert>>, user: string, id: string): map<string, seq<Alert>>
    reads if user in users then set a | a in users[user] else {}
  {
    if user in users then users[user := WithoutId(users[user], id)] else users
  }

  /** Dropping a user's own alert from the user's list and from the list of all keeps the two agreeing. */
  lemma DropOwnAgrees(users: map<string, seq<Alert>>, all: seq<Alert>, id: string, user: string)
    requires Agree(users, all)
    ensures Agree(DropFromUser(users, user, id), WithoutOwnId(all, id, user))
  {
    WithoutOwnIdMembers(all, id, user);
    if user in users {
      WithoutIdMembers(users[user], id);
    }
  }

  /** Dropping an id from the user's list and from the list of all keeps them agreeing exactly when no other user owns that id. */
  lemma DeleteAgreement(users: map<string, seq<Alert>>, all: seq<Alert>, id: string, user: string)
    requires Agree(users, all)
    ensures OnlyOwner(all, id, user) <==> Agree(DropFromUser(users, user, id), WithoutId(all, id))
  {
    if OnlyOwner(all, id, user) {
      DropIdAgrees(users, all, id, user);
    } else {
      DropForeignDisagrees(users, all, id, user);
    }
  }

  /** Every alert of `all` with id `id` belongs to `user`. */
  ghost predicate OnlyOwner(all: seq<Alert>, id: string, user: string)
    reads set a | a in all
  {
    forall a :: a in all && a.id == id ==> a.userId == user
  }

  /** When no other user's alert carries the id, dropping it from the list of all is dropping the user's own. */
  lemma DropIdAgrees(users: map<string, seq<Alert>>, all: seq<Alert>, id: string, user: string)
    requires Agree(users, all)
    requires OnlyOwner(all, id, user)
    ensures Agree(DropFromUser(users, user, id), WithoutId(all, id))
  {
    WithoutIdMembers(all, id);
    if user in users {
      WithoutIdMembers(users[user], id);
    }
  }

  /** Dropping an id from the list of all while another user owns an alert with it leaves that alert only in its owner's list. */
  lemma DropForeignDisagrees(users: map<string, seq<Alert>>, all: seq<Alert>, id: string, user: string)
    requires Agree(users, all)
    requires !OnlyOwner(all, id, user)
    ensures !Agree(DropFromUser(users, user, id), WithoutId(all, id))
  {
    var a :| a in all && a.id == id && a.userId != user;
    assert a in DropFromUser(users, user, id)[a.userId];
    WithoutIdMembers(all, id);
  }

  /** The alerts of `all` read, one by one, as the views `vs`. */
  ghost predicate ViewsAre(all: seq<Alert>, vs: seq<AlertView>)
    reads set a | a in all
  {
    |all| == |vs| && forall k :: 0 <= k < |all| ==> all[k].View() == vs[k]
  }

  /** The trigger counts of `all`, in order. */
  ghost function TriggerCounts(all: seq<Alert>): (cs: seq<int>)
    reads set a | a in all
    ensures |cs| == |all| && forall k :: 0 <= k < |all| ==> cs[k] == all[k].triggerCount
  {
    seq(|all|, k requires 0 <= k < |all| reads set a | a in all => all[k].triggerCount)
  }

  /** The last trigger times of `all`, in order. */
  ghost function TriggerTimes(all: seq<Alert>): (ts: seq<Option<int>>)
    reads set a | a in all
    ensures |ts| == |all| && forall k :: 0 <= k < |all| ==> ts[k] == all[k].lastTriggered
  {
    seq(|all|, k requires 0 <= k < |all| reads set a | a in all => all[k].lastTriggered)
  }

  /** A count and last time `count`, `last` are those of `count0`, `last0` after `hits` more triggers at `now`. */
  predicate Counted(count: int, last: Option<int>, count0: int, last0: Option<int>, hits: nat, now: int)
  {
    count == count0 + hits && last == (if hits > 0 then Some(now) else last0)
  }

  /**
   * Counts `counts` and times `lasts` have moved on from `counts0` and
   * `lasts0`, entry by entry, by the hits of `apps` on the view `vs[k]` under `matcher`.
   */
  ghost predicate CountsMoved(matcher: Matcher, counts: seq<int>, lasts: seq<Option<int>>, counts0: seq<int>,
                              lasts0: seq<Option<int>>, apps: seq<Application>, vs: seq<AlertView>, now: int)
  {
    && |lasts| == |counts| && |counts0| == |counts| && |lasts0| == |counts| && |vs| == |counts|
    && forall k :: 0 <= k < |counts| ==>
         Counted(counts[k], lasts[k], counts0[k], lasts0[k], Hits(matcher, apps, vs[k]), now)
  }

  /**
   * Every alert of `all` has moved on from trigger count `counts0[k]` and
   * last trigger time `lasts0[k]` by the hits of `apps` on its view `vs[k]` under `matcher`.
   */
  ghost predicate AlertsCounted(matcher: Matcher, all: seq<Alert>, counts0: seq<int>, lasts0: seq<Option<int>>,
                                apps: seq<Application>, vs: seq<AlertView>, now: int)
    reads set a | a in all
  {
    CountsMoved(matcher, TriggerCounts(all), TriggerTimes(all), counts0, lasts0, apps, vs, now)
  }

  /** Moving on by `a` and then by `b` is moving on by `a + b`. */
  lemma CountsMovedCompose(matcher: Matcher, counts0: seq<int>, lasts0: seq<Option<int>>, counts1: seq<int>, lasts1: seq<Option<int>>,
                           counts2: seq<int>, lasts2: seq<Option<int>>, a: seq<Application>, b: seq<Application>,
                           vs: seq<AlertView>, now: int)
    requires CountsMoved(matcher, counts1, lasts1, counts0, lasts0, a, vs, now)
    requires CountsMoved(matcher, counts2, lasts2, counts1, lasts1, b, vs, now)
    ensures CountsMoved(matcher, counts2, lasts2, counts0, lasts0, a + b, vs, now)
  {
    forall k | 0 <= k < |counts2|
      ensures Counted(counts2[k], lasts2[k], counts0[k], lasts0[k], Hits(matcher, a + b, vs[k]), now)
    {
      HitsAppend(matcher, a, b, vs[k]);
      CountedCompose(counts0[k], lasts0[k], counts1[k], lasts1[k], counts2[k], lasts2[k],
                     Hits(matcher, a, vs[k]), Hits(matcher, b, vs[k]), now);
    }
  }

  /** Two rounds of triggers count as their sum. */
  lemma CountedCompose(count0: int, last0: Option<int>, count1: int, last1: Option<int>, count2: int,
                       last2: Option<int>, h1: nat, h2: nat, now: int)
    requires Counted(count1, last1, count0, last0, h1, now) && Counted(count2, last2, count1, last1, h2, now)
    ensures Counted(count2, last2, count0, last0, h1 + h2, now)
  {
  }

  /** One more application adds its hit to the count. */
  lemma HitsStep(matcher: Matcher, apps: seq<Application>, i: nat, v: AlertView)
    requires i < |apps|
    ensures Hits(matcher, apps[..i + 1], v) == Hits(matcher, apps[..i], v) + Hit(matcher, v, apps[i])
  {
    assert apps[..i + 1][..i] == apps[..i];
  }

  /**
   * The body of the inner loop of `process_new_applications`: an inactive
   * alert is skipped; an active one that matches yields its trigger and
   * counts one more hit at `now`.
   */
  method TriggerAlert(matcher: Matcher, alert: Alert, app: Application, now: int) returns (ts: seq<Trigger>)
    modifies alert
    ensures alert.View() == old(alert.View())
    ensures ts == TriggerOf(matcher, app, old(alert.View()), now)
    ensures Counted(alert.triggerCount, alert.lastTriggered, old(alert.triggerCount), old(alert.lastTriggered),
                    Hit(matcher, old(alert.View()), app), now)
  {
    ts := [];
    if alert.isActive {
      var m := matcher(alert.View(), app);
      if m.Some? {
        ts := [Trigger(alert.id, app.reference, m.value.reason, m.value.score, CaseDataOf(app), now, false)];
        alert.lastTriggered := Some(now);
        alert.triggerCount := alert.triggerCount + 1;
      }
    }
  }

  /**
   * The inner loop of `process_new_applications`: every active alert of
   * `all` (read as `vs`) that the application matches yields a trigger, in
   * order, and has its count and last time updated.
   */
  method TriggerAlerts(matcher: Matcher, all: seq<Alert>, app: Application, now: int, ghost vs: seq<AlertView>) returns (ts: seq<Trigger>)
    requires ViewsAre(all, vs)
    modifies set a | a in all
    ensures ts == AppTriggers(matcher, app, vs, now)
    ensures ViewsAre(all, vs)
    ensures Distinct(all) ==> forall k :: 0 <= k < |all| ==>
              Counted(all[k].triggerCount, all[k].lastTriggered, old(all[k].triggerCount), old(all[k].lastTriggered),
                      Hit(matcher, vs[k], app), now)
  {
    ghost var cs, ls := TriggerCounts(all), TriggerTimes(all);
    ts := [];
    var j := 0;
    while j < |all|
      invariant 0 <= j <= |all|
      invariant Swept(matcher, all, app, now, vs, cs, ls, j)
      invariant ts == AppTriggers(matcher, app, vs[..j], now)
    {
      AppTriggersStep(matcher, app, vs, j, now);
      var t := TriggerNextAlert(matcher, all, app, now, vs, cs, ls, j);
      ts := ts + t;
      j := j + 1;
    }
    assert vs[..j] == vs;
  }

  /** The alerts of `all` before index `j` have been matched against the application; the others are as they were. */
  ghost predicate Swept(matcher: Matcher, all: seq<Alert>, app: Application, now: int, vs: seq<AlertView>,
                        cs: seq<int>, ls: seq<Option<int>>, j: nat)
    reads set a | a in all
  {
    && ViewsAre(all, vs) && |cs| == |all| && |ls| == |all|
    && (Distinct(all) ==> forall k :: 0 <= k < |all| ==>
          Counted(all[k].triggerCount, all[k].lastTriggered, cs[k], ls[k], if k < j then Hit(matcher, vs[k], app) else 0, now))
  }

  /** One round of the inner loop: alert `j` is matched against the application. */
  method TriggerNextAlert(matcher: Matcher, all: seq<Alert>, app: Application, now: int, ghost vs: seq<AlertView>,
                          ghost cs: seq<int>, ghost ls: seq<Option<int>>, j: nat) returns (t: seq<Trigger>)
    requires j < |all| && Swept(matcher, all, app, now, vs, cs, ls, j)
    modifies all[j]
    ensures Swept(matcher, all, app, now, vs, cs, ls, j + 1)
    ensures t == TriggerOf(matcher, app, vs[j], now)
  {
    t := TriggerAlert(matcher, all[j], app, now);
  }


  /** The outer loop of `process_new_applications`, over the applications of the batch. */
  method TriggerBatch(matcher: Matcher, all: seq<Alert>, apps: seq<Application>, now: int, ghost vs: seq<AlertView>)
    returns (triggers: seq<Trigger>)
    requires ViewsAre(all, vs)
    modifies set a | a in all
    ensures ViewsAre(all, vs)
    ensures triggers == BatchTriggers(matcher, apps, vs, now)
    ensures Distinct(all) ==> forall k :: 0 <= k < |all| ==>
              Counted(all[k].triggerCount, all[k].lastTriggered, old(all[k].triggerCount), old(all[k].lastTriggered),
                      Hits(matcher, apps, vs[k]), now)
  {
    ghost var cs, ls := TriggerCounts(all), TriggerTimes(all);
    triggers := [];
    var i := 0;
    while i < |apps|
      invariant 0 <= i <= |apps|
      invariant ViewsAre(all, vs)
      invariant triggers == BatchTriggers(matcher, apps[..i], vs, now)
      invariant Distinct(all) ==> forall k :: 0 <= k < |all| ==>
                  Counted(all[k].triggerCount, all[k].lastTriggered, cs[k], ls[k], Hits(matcher, apps[..i], vs[k]), now)
    {
      triggers := TriggerNext(matcher, all, apps, i, now, vs, cs, ls, triggers);
      i := i + 1;
    }
    assert apps[..i] == apps;
  }

  /** One round of the outer loop: the next application's triggers, and the counts it adds. */
  method TriggerNext(matcher: Matcher, all: seq<Alert>, apps: seq<Application>, i: nat, now: int, ghost vs: seq<AlertView>,
                     ghost cs: seq<int>, ghost ls: seq<Option<int>>, triggers: seq<Trigger>)
    returns (triggers': seq<Trigger>)
    requires i < |apps| && ViewsAre(all, vs) && |cs| == |all| && |ls| == |all|
    requires triggers == BatchTriggers(matcher, apps[..i], vs, now)
    requires Distinct(all) ==> forall k :: 0 <= k < |all| ==>
               Counted(all[k].triggerCount, all[k].lastTriggered, cs[k], ls[k], Hits(matcher, apps[..i], vs[k]), now)
    modifies set a | a in all
    ensures ViewsAre(all, vs)
    ensures triggers' == BatchTriggers(matcher, apps[..i + 1], vs, now)
    ensures Distinct(all) ==> forall k :: 0 <= k < |all| ==>
              Counted(all[k].triggerCount, all[k].lastTriggered, cs[k], ls[k], Hits(matcher, apps[..i + 1], vs[k]), now)
  {
    ghost var cs1, ls1 := TriggerCounts(all), TriggerTimes(all);
    var ts := TriggerAlerts(matcher, all, apps[i], now, vs);
    if Distinct(all) {
      forall k | 0 <= k < |all|
        ensures Counted(all[k].triggerCount, all[k].lastTriggered, cs[k], ls[k], Hits(matcher, apps[..i + 1], vs[k]), now)
      {
        HitsStep(matcher, apps, i, vs[k]);
        CountedCompose(cs[k], ls[k], cs1[k], ls1[k], all[k].triggerCount, all[k].lastTriggered,
                       Hits(matcher, apps[..i], vs[k]), Hit(matcher, vs[k], apps[i]), now);
      }
    }
    assert apps[..i + 1][..i] == apps[..i];
    triggers' := triggers + ts;
  }

  /** The alert registry: each user's alerts and the list of all alerts, sharing the alert objects. */
  class AlertService {
    /** The service's matching rule, `MatchAlert` from construction on. */
    const matcher: Matcher
    var userAlerts: map<string, seq<Alert>>
    var allAlerts: seq<Alert>

    /** Every alert the registry lists. */
    function Tracked(): set<Alert>
      reads this
    {
      Listed(userAlerts, allAlerts)
    }

    /** The user lists and the list of all alerts hold the same alerts, each under its owner, none twice in the list of all. */
    ghost predicate Valid()
      reads this, Tracked()
    {
      Agree(userAlerts, allAlerts) && Distinct(allAlerts)
    }

    constructor()
      ensures matcher == MatchAlert && userAlerts == map[] && allAlerts == [] && Valid()
    {
      matcher := MatchAlert;
      userAlerts := map[];
      allAlerts := [];
    }

    /** `create_alert`: a new alert, appended to its owner's list and to the list of all alerts. */
    method CreateAlert(id: string, userId: string, name: string, alertType: AlertType, value: string, priority: Priority,
                       notifyEmail: bool, notifyPush: bool, radiusMeters: Option<int>, metadata: Option<map<string, string>>,
                       now: int)
      returns (a: Alert)
      modifies this
      ensures fresh(a)
      ensures a.id == id && a.userId == userId && a.alertType == alertType && a.value == value && a.isActive
      ensures a.triggerCount == 0 && a.lastTriggered.None? && a.metadata == (if metadata.Some? then metadata.value else map[])
      ensures allAlerts == old(allAlerts) + [a]
      ensures userAlerts == old(userAlerts)[userId := (if userId in old(userAlerts) then old(userAlerts)[userId] else []) + [a]]
      ensures old(Valid()) ==> Valid()
    {
      a := new Alert(id, userId, name, alertType, value, priority, notifyEmail, notifyPush, radiusMeters,
                     if metadata.Some? then metadata.value else map[], now);
      var mine := if userId in userAlerts then userAlerts[userId] else [];
      userAlerts := userAlerts[userId := mine + [a]];
      allAlerts := allAlerts + [a];
    }

    /** `get_alert` without a database: the first of the user's alerts with that id. */
    function GetAlert(alertId: string, userId: string): (r: Option<Alert>)
      reads this, Tracked()
      ensures r.Some? ==> userId in userAlerts && r.value in userAlerts[userId] && r.value.id == alertId
      ensures r.None? ==> userId !in userAlerts || forall a :: a in userAlerts[userId] ==> a.id != alertId
    {
      if userId in userAlerts then FirstById(userAlerts[userId], alertId) else None
    }

    /** `get_user_alerts` without a database: the user's alerts, only the active ones when asked. */
    function GetUserAlerts(userId: string, activeOnly: bool): (r: seq<Alert>)
      reads this, Tracked()
      ensures userId !in userAlerts ==> r == []
      ensures userId in userAlerts ==>
                && (forall i :: 0 <= i < |r| ==> r[i] in userAlerts[userId] && (activeOnly ==> r[i].isActive))
                && (forall i :: 0 <= i < |userAlerts[userId]| && (activeOnly ==> userAlerts[userId][i].isActive)
                      ==> userAlerts[userId][i] in r)
    {
      var mine := if userId in userAlerts then userAlerts[userId] else [];
      if activeOnly then ActiveOnly(mine) else mine
    }

    /**
     * `update_alert`: None for an alert the user does not have; otherwise
     * the attributes named by the updates are set on that alert.
     */
    method UpdateAlert(alertId: string, userId: string, updates: map<string, FieldValue>) returns (r: Option<Alert>)
      modifies Tracked()
      ensures r == old(GetAlert(alertId, userId))
      ensures userAlerts == old(userAlerts) && allAlerts == old(allAlerts)
      ensures r.None? ==> forall a :: a in Tracked() ==> unchanged(a)
      ensures r.Some? ==> forall a :: a in Tracked() && a != r.value ==> unchanged(a)
      ensures r.Some? ==> r.value.Fields() == Updated(old(r.value.Fields()), updates)
      ensures old(Valid()) && "user_id" !in updates ==> Valid()
    {
      r := GetAlert(alertId, userId);
      if r.Some? {
        r.value.Apply(updates);
      }
    }

    /**
     * `delete_alert` as written: the id is dropped from the user's list,
     * but from the list of all alerts whoever owns it; it always succeeds.
     */
    method DeleteAlert(alertId: string, userId: string) returns (ok: bool)
      modifies this
      ensures ok
      ensures allAlerts == WithoutId(old(allAlerts), alertId)
      ensures userAlerts == old(DropFromUser(userAlerts, userId, alertId))
      ensures old(Valid()) && old(OnlyOwner(allAlerts, alertId, userId)) ==> Valid()
      ensures old(Valid()) && !old(OnlyOwner(allAlerts, alertId, userId)) ==> !Valid()
    {
      var users := DropFromUser(userAlerts, userId, alertId);
      var all := WithoutId(allAlerts, alertId);
      if Valid() {
        assert OnlyOwner(allAlerts, alertId, userId) <==> Agree(users, all) by {
          DeleteAgreement(userAlerts, allAlerts, alertId, userId);
        }
      }
      userAlerts, allAlerts := users, all;
      ok := true;
    }

    /** `delete_alert` removing only the user's own alert from both lists: the lists keep agreeing. */
    method DeleteOwnAlert(alertId: string, userId: string) returns (ok: bool)
      modifies this
      ensures ok
      ensures allAlerts == WithoutOwnId(old(allAlerts), alertId, userId)
      ensures userAlerts == old(DropFromUser(userAlerts, userId, alertId))
      ensures old(Valid()) ==> Valid()
      ensures forall a :: a in allAlerts ==> a.id != alertId || a.userId != userId
    {
      var users := DropFromUser(userAlerts, userId, alertId);
      var all := WithoutOwnId(allAlerts, alertId, userId);
      if Valid() {
        DropOwnAgrees(userAlerts, allAlerts, alertId, userId);
      }
      WithoutOwnIdMembers(allAlerts, alertId, userId);
      userAlerts, allAlerts := users, all;
      ok := true;
    }

    /**
     * `process_new_applications`: the triggers of the batch, application by
     * application and alert by alert; each alert's count grows by the
     * number of applications that matched it.
     */
    method ProcessNewApplications(apps: seq<Application>, now: int) returns (triggers: seq<Trigger>)
      modifies set a | a in allAlerts
      ensures triggers == BatchTriggers(matcher, apps, old(Views(allAlerts)), now)
      ensures Views(allAlerts) == old(Views(allAlerts))
      ensures Distinct(allAlerts) ==> forall k :: 0 <= k < |allAlerts| ==>
                Counted(allAlerts[k].triggerCount, allAlerts[k].lastTriggered, old(allAlerts[k].triggerCount),
                        old(allAlerts[k].lastTriggered), Hits(matcher, apps, old(allAlerts[k].View())), now)
    {
      triggers := TriggerBatch(matcher, allAlerts, apps, now, Views(allAlerts));
    }

    /** How many triggers `process_new_applications` returns for the batch. */
    method CountNewTriggers(apps: seq<Application>, now: int) returns (n: nat)
      modifies set a | a in allAlerts
      ensures n == |BatchTriggers(matcher, apps, old(Views(allAlerts)), now)|
      ensures Views(allAlerts) == old(Views(allAlerts))
      ensures Distinct(allAlerts) ==>
                AlertsCounted(matcher, allAlerts, old(TriggerCounts(allAlerts)), old(TriggerTimes(allAlerts)), apps, old(Views(allAlerts)), now)
    {
      var triggers := ProcessNewApplications(apps, now);
      n := |triggers|;
    }
  }
}
