/**
 * The monitoring scheduler: a registry of periodic jobs, the rules that
 * choose each job's next run, and the bookkeeping of one run.
 *
 * The clock is a parameter of every operation that reads it.
 */
module Scheduler {
  import opened Common
  import opened AlertMatch
  import opened Alerts
  import opened AlertRecord

  // ---------------------------------------------------------------------
  // Calendar arithmetic on date-times

  /**
   * A date-time as its fields: the proleptic Gregorian ordinal of the day
   * (day 1 is 0001-01-01, a Monday), then hour, minute, second and
   * microsecond.
   */
  datatype Clock = Clock(ordinal: int, hour: int, minute: int, second: int, micro: int)
  {
    predicate Valid()
    {
      0 <= hour < 24 && 0 <= minute < 60 && 0 <= second < 60 && 0 <= micro < 1_000_000
    }
  }

  type DateTime = t: Clock | t.Valid() witness Clock(1, 0, 0, 0, 0)

  /** Microseconds since the start of day 0; date-times compare as their stamps do. */
  function Stamp(t: DateTime): int
  {
    t.ordinal * 86_400_000_000 + t.hour * 3_600_000_000 + t.minute * 60_000_000 + t.second * 1_000_000 + t.micro
  }

  /** A date-time on an earlier day, or in an earlier hour of the same day, comes first. */
  lemma StampOrder(a: DateTime, b: DateTime)
    requires a.ordinal < b.ordinal || (a.ordinal == b.ordinal && a.hour < b.hour)
    ensures Stamp(a) < Stamp(b)
  {
  }

  /** `weekday()`: Monday is 0 and Sunday 6. */
  function Weekday(t: DateTime): (w: int)
    ensures 0 <= w < 7
  {
    (t.ordinal + 6) % 7
  }

  /** `t + timedelta(hours=1)` */
  function PlusHour(t: DateTime): (r: DateTime)
    ensures Stamp(r) == Stamp(t) + 3_600_000_000
  {
    if t.hour < 23 then t.(hour := t.hour + 1) else t.(ordinal := t.ordinal + 1, hour := 0)
  }

  /** `t + timedelta(minutes=5)` */
  function PlusFiveMinutes(t: DateTime): (r: DateTime)
    ensures Stamp(r) == Stamp(t) + 300_000_000
  {
    if t.minute < 55 then t.(minute := t.minute + 5) else PlusHour(t.(minute := t.minute - 55))
  }

  /** `(t + timedelta(days=days)).replace(hour=hour, minute=0, second=0)`: the microsecond field is kept. */
  function AtHour(t: DateTime, days: int, hour: int): (r: DateTime)
    requires 0 <= hour < 24
    ensures r.ordinal == t.ordinal + days && r.hour == hour && r.minute == 0 && r.second == 0
    ensures r.micro == t.micro
  {
    Clock(t.ordinal + days, hour, 0, 0, t.micro)
  }

  /** How many days ahead `_next_weekday` moves from a day that is `today` of the week. */
  function DaysAhead(today: int, weekday: int): (d: int)
    requires 0 <= today < 7 && 0 <= weekday < 7
    ensures 1 <= d <= 7
    ensures (today + d) % 7 == weekday
    ensures d == 7 <==> today == weekday
  {
    var d := weekday - today;
    if d <= 0 then d + 7 else d
  }

  /** `_next_weekday`: the next `weekday` strictly after today, at `hour`:00:00.000000. */
  function NextWeekday(now: DateTime, weekday: int, hour: int): (r: DateTime)
    requires 0 <= weekday < 7 && 0 <= hour < 24
    ensures Weekday(r) == weekday && r.hour == hour && r.minute == 0 && r.second == 0 && r.micro == 0
    ensures now.ordinal + 1 <= r.ordinal <= now.ordinal + 7
    ensures r.ordinal == now.ordinal + 7 <==> Weekday(now) == weekday
    ensures Stamp(now) < Stamp(r)
  {
    var r := Clock(now.ordinal + DaysAhead(Weekday(now), weekday), hour, 0, 0, 0);
    StampOrder(now, r);
    r
  }

  // ---------------------------------------------------------------------
  // Next-run rules

  datatype Frequency = Hourly | TwiceDaily | Daily | Weekly

  /** `_calculate_next_run`: always strictly after `now`. */
  function NextRun(frequency: Frequency, now: DateTime): (r: DateTime)
    ensures Stamp(now) < Stamp(r)
    ensures frequency == Hourly ==> Stamp(r) == Stamp(now) + 3_600_000_000
    ensures frequency == TwiceDaily ==> r.minute == 0 && r.second == 0
    ensures frequency == TwiceDaily && now.hour < 8 ==> r.ordinal == now.ordinal && r.hour == 8
    ensures frequency == TwiceDaily && 8 <= now.hour < 18 ==> r.ordinal == now.ordinal && r.hour == 18
    ensures frequency == TwiceDaily && 18 <= now.hour ==> r.ordinal == now.ordinal + 1 && r.hour == 8
    ensures frequency == Daily ==> r.ordinal == now.ordinal + 1 && r.hour == 6 && r.minute == 0 && r.second == 0
    ensures frequency == Weekly ==> Weekday(r) == 0 && r.hour == 9 && now.ordinal < r.ordinal <= now.ordinal + 7
  {
    match frequency
    case Hourly => PlusHour(now)
    case TwiceDaily =>
      if now.hour < 8 then AtHour(now, 0, 8)
      else if now.hour < 18 then AtHour(now, 0, 18)
      else AtHour(now, 1, 8)
    case Daily => AtHour(now, 1, 6)
    case Weekly => NextWeekday(now, 0, 9)
  }

  // ---------------------------------------------------------------------
  // Jobs

  /** The fields of a job that runs change. */
  datatype JobState = JobState(lastRun: Option<DateTime>, nextRun: Option<DateTime>, isActive: bool,
                               runCount: int, errorCount: int, lastError: Option<string>)

  /** The source whose runs fetch applications and pass them to the alert service. */
  const CamdenSource := "camden_council"

  /**
   * The job's state after `_run_job` at `now`. `fetched` is what the
   * scraper gave, or the message of the exception it raised; only a job of
   * the Camden source fetches, so only such a job can fail.
   */
  function AfterRun(s: JobState, frequency: Frequency, source: string, fetched: Result<seq<Application>>,
                    now: DateTime): JobState
  {
    if source == CamdenSource && fetched.Err? then
      s.(errorCount := s.errorCount + 1, lastError := Some(fetched.msg), nextRun := Some(PlusHour(now)))
    else
      s.(lastRun := Some(now), runCount := s.runCount + 1, nextRun := Some(NextRun(frequency, now)), lastError := None)
  }

  /** A run changes exactly one counter, by one; it never changes whether the job is active; the next run is after `now`. */
  lemma AfterRunCounters(s: JobState, frequency: Frequency, source: string, fetched: Result<seq<Application>>,
                         now: DateTime)
    ensures var t := AfterRun(s, frequency, source, fetched, now);
      && t.isActive == s.isActive
      && t.nextRun.Some? && Stamp(now) < Stamp(t.nextRun.value)
      && ((t.runCount == s.runCount + 1 && t.errorCount == s.errorCount && t.lastRun == Some(now) && t.lastError.None?)
          || (t.errorCount == s.errorCount + 1 && t.runCount == s.runCount && t.lastRun == s.lastRun && t.lastError.Some?))
      && (t.errorCount == s.errorCount + 1 <==> source == CamdenSource && fetched.Err?)
  {
  }

  /** Whether the scheduler loop runs the job at `now`: active, with a next run at or before `now`. */
  predicate Due(s: JobState, now: DateTime)
  {
    s.isActive && s.nextRun.Some? && Stamp(s.nextRun.value) <= Stamp(now)
  }

  /** A job that has just run, successfully or not, is not due again at the same instant. */
  lemma RunNotDueAgain(s: JobState, frequency: Frequency, source: string, fetched: Result<seq<Application>>,
                       now: DateTime)
    ensures !Due(AfterRun(s, frequency, source, fetched, now), now)
  {
    AfterRunCounters(s, frequency, source, fetched, now);
  }

  /** A monitoring job; `id`, `name`, `frequency` and `source` never change. */
  class MonitoringJob {
    const id: string
    const name: string
    const frequency: Frequency
    const source: string
    var lastRun: Option<DateTime>
    var nextRun: Option<DateTime>
    var isActive: bool
    var runCount: int
    var errorCount: int
    var lastError: Option<string>

    function State(): JobState
      reads this
    {
      JobState(lastRun, nextRun, isActive, runCount, errorCount, lastError)
    }

    /** A job with the dataclass defaults: never run, active, no errors. */
    constructor(id: string, name: string, frequency: Frequency, source: string, nextRun: Option<DateTime>)
      ensures this.id == id && this.name == name && this.frequency == frequency && this.source == source
      ensures State() == JobState(None, nextRun, true, 0, 0, None)
    {
      this.id := id;
      this.name := name;
      this.frequency := frequency;
      this.source := source;
      this.nextRun := nextRun;
      lastRun := None;
      isActive := true;
      runCount := 0;
      errorCount := 0;
      lastError := None;
    }

    /** Sets every changing field at once. */
    method SetState(s: JobState)
      modifies this
      ensures State() == s
    {
      lastRun, nextRun, isActive := s.lastRun, s.nextRun, s.isActive;
      runCount, errorCount, lastError := s.runCount, s.errorCount, s.lastError;
    }
  }

  // ---------------------------------------------------------------------
  // The registry

  /** No key appears twice. */
  predicate Unique(ks: seq<string>)
  {
    forall i, j :: 0 <= i < j < |ks| ==> ks[i] != ks[j]
  }

  /** The keys without `x`, in order: what deleting a key does to a dictionary's order. */
  function Without(ks: seq<string>, x: string): (r: seq<string>)
    ensures forall y :: y in r <==> y in ks && y != x
    ensures Unique(ks) ==> Unique(r)
  {
    if ks == [] then []
    else
      var init := ks[..|ks| - 1];
      assert Unique(ks) ==> Unique(init) && ks[|ks| - 1] !in init;
      Without(init, x) + (if ks[|ks| - 1] == x then [] else [ks[|ks| - 1]])
  }

  /** A sequence without repeats has as many distinct elements as positions. */
  lemma {:induction false} UniqueCard(ks: seq<string>)
    requires Unique(ks)
    ensures |set k | k in ks| == |ks|
  {
    if ks != [] {
      var init := ks[..|ks| - 1];
      assert Unique(init);
      UniqueCard(init);
      assert (set k | k in ks) == (set k | k in init) + {ks[|ks| - 1]};
      assert ks[|ks| - 1] !in init;
    }
  }

  /** The job whose time came at `now` has run; the others are as they were. */
  function TickState(s: JobState, frequency: Frequency, source: string, fetched: Result<seq<Application>>,
                     now: DateTime): JobState
  {
    if Due(s, now) then AfterRun(s, frequency, source, fetched, now) else s
  }

  /** Whether a job is active: what `get_stats` counts. */
  predicate IsActive(s: JobState) { s.isActive }

  /** The applications a run of a job of `source` hands to the alert service: only a successful Camden fetch has any. */
  function FetchedApps(source: string, fetched: Result<seq<Application>>): seq<Application>
  {
    if source == CamdenSource && fetched.Ok? then fetched.value else []
  }

  /** The applications a job in state `s` with that source hands to the alert service in a pass of the loop at `now`: none unless it is due. */
  function JobApps(s: JobState, source: string, now: DateTime, fetched: Result<seq<Application>>): seq<Application>
  {
    if Due(s, now) then FetchedApps(source, fetched) else []
  }

  /**
   * The applications the first `n` jobs of a pass of the loop at `now` hand
   * to the alert service, in the order `ks`, the job named `ks[j]` being of
   * source `sources[j]` and in state `states[j]`.
   */
  function PassApps(n: nat, ks: seq<string>, sources: seq<string>, states: seq<JobState>, now: DateTime,
                    fetch: string -> Result<seq<Application>>): seq<Application>
    requires n <= |ks| && |sources| == |ks| && |states| == |ks|
  {
    if n == 0 then [] else PassApps(n - 1, ks, sources, states, now, fetch) + JobApps(states[n - 1], sources[n - 1], now, fetch(ks[n - 1]))
  }

  /** How many applications the first `n` jobs of that pass hand to the alert service, job by job. */
  function PassCount(n: nat, ks: seq<string>, sources: seq<string>, states: seq<JobState>, now: DateTime,
                     fetch: string -> Result<seq<Application>>): nat
    requires n <= |ks| && |sources| == |ks| && |states| == |ks|
  {
    if n == 0 then 0 else PassCount(n - 1, ks, sources, states, now, fetch) + |JobApps(states[n - 1], sources[n - 1], now, fetch(ks[n - 1]))|
  }

  /** How many triggers on the alert views `vs` the applications of the first `n` jobs of that pass raise, job by job. */
  function PassTriggers(matcher: Matcher, n: nat, ks: seq<string>, sources: seq<string>, states: seq<JobState>,
                        vs: seq<AlertView>, now: DateTime, fetch: string -> Result<seq<Application>>): nat
    requires n <= |ks| && |sources| == |ks| && |states| == |ks|
  {
    if n == 0 then 0
    else PassTriggers(matcher, n - 1, ks, sources, states, vs, now, fetch)
         + |BatchTriggers(matcher, JobApps(states[n - 1], sources[n - 1], now, fetch(ks[n - 1])), vs, Stamp(now))|
  }

  /** Counted job by job, the pass hands over its applications and raises their triggers as one batch would. */
  lemma {:induction false} PassTotals(matcher: Matcher, n: nat, ks: seq<string>, sources: seq<string>, states: seq<JobState>,
                                      vs: seq<AlertView>, now: DateTime, fetch: string -> Result<seq<Application>>)
    requires n <= |ks| && |sources| == |ks| && |states| == |ks|
    ensures PassCount(n, ks, sources, states, now, fetch) == |PassApps(n, ks, sources, states, now, fetch)|
    ensures PassTriggers(matcher, n, ks, sources, states, vs, now, fetch)
            == |BatchTriggers(matcher, PassApps(n, ks, sources, states, now, fetch), vs, Stamp(now))|
  {
    if n > 0 {
      PassTotals(matcher, n - 1, ks, sources, states, vs, now, fetch);
      BatchTriggersAppend(matcher, PassApps(n - 1, ks, sources, states, now, fetch),
                          JobApps(states[n - 1], sources[n - 1], now, fetch(ks[n - 1])), vs, Stamp(now));
    }
  }

  /** Counting the active states of distinct keys counts the keys in `active`, the set of active jobs. */
  lemma {:induction false} ActiveCount(ks: seq<string>, states: seq<JobState>, active: set<string>)
    requires Unique(ks) && |states| == |ks|
    requires forall i :: 0 <= i < |ks| ==> (IsActive(states[i]) <==> ks[i] in active)
    ensures CountWhere(states, IsActive) == |set k | k in ks && k in active|
  {
    if ks != [] {
      var init, last := ks[..|ks| - 1], ks[|ks| - 1];
      assert Unique(init) && last !in init;
      ActiveCount(init, states[..|states| - 1], active);
      if last in active {
        assert (set k | k in ks && k in active) == (set k | k in init && k in active) + {last};
      } else {
        assert (set k | k in ks && k in active) == (set k | k in init && k in active);
      }
    }
  }

  /** What `get_stats` reports. */
  datatype MonitoringStats = MonitoringStats(totalJobs: int, activeJobs: int, totalApplicationsProcessed: int,
                                             totalAlertsTriggered: int, lastRun: Option<DateTime>, uptimeSeconds: int)

  /** The latest `last_run` among the states, or `None` when no job has run. */
  function LatestRun(states: seq<JobState>): (r: Option<DateTime>)
    ensures r.None? <==> forall i :: 0 <= i < |states| ==> states[i].lastRun.None?
    ensures r.Some? ==> exists i :: 0 <= i < |states| && states[i].lastRun == r
    ensures r.Some? ==> forall i :: 0 <= i < |states| && states[i].lastRun.Some? ==>
                          Stamp(states[i].lastRun.value) <= Stamp(r.value)
  {
    if states == [] then None
    else
      var rest := LatestRun(states[..|states| - 1]);
      var last := states[|states| - 1].lastRun;
      if last.None? then rest
      else if rest.Some? && Stamp(last.value) <= Stamp(rest.value) then rest
      else last
  }

  /** Whole seconds from `start` to `now`, truncated toward zero, or 0 before the first start. */
  function UptimeSeconds(start: Option<DateTime>, now: DateTime): int
  {
    if start.None? then 0
    else
      var d := Stamp(now) - Stamp(start.value);
      if d >= 0 then d / 1_000_000 else -((-d) / 1_000_000)
  }

  class MonitoringScheduler {
    const alertService: AlertService
    /** The jobs by id; `order` is the dictionary's insertion order. */
    var jobs: map<string, MonitoringJob>
    var order: seq<string>
    var running: bool
    var startTime: Option<DateTime>
    var totalApplicationsProcessed: int
    var totalAlertsTriggered: int

    /** Every job is stored under its own id, and the order lists each id once. */
    ghost predicate Valid()
      reads this
    {
      (forall k :: k in jobs ==> jobs[k].id == k) && (forall k :: k in jobs <==> k in order) && Unique(order)
    }

    function Jobs(): set<MonitoringJob>
      reads this
    {
      set k | k in jobs :: jobs[k]
    }

    /** `__init__` with `_init_default_jobs`: the Camden job, due in an hour, and the weekly summary, due next Monday 09:00. */
    constructor(alertService: AlertService, now: DateTime)
      ensures this.alertService == alertService && Valid()
      ensures order == ["camden", "weekly_summary"] && jobs.Keys == {"camden", "weekly_summary"}
      ensures jobs["camden"].frequency == TwiceDaily && jobs["camden"].source == CamdenSource
      ensures jobs["camden"].State() == JobState(None, Some(PlusHour(now)), true, 0, 0, None)
      ensures jobs["weekly_summary"].frequency == Weekly && jobs["weekly_summary"].source == "internal"
      ensures jobs["weekly_summary"].State() == JobState(None, Some(NextWeekday(now, 0, 9)), true, 0, 0, None)
      ensures !running && startTime.None? && totalApplicationsProcessed == 0 && totalAlertsTriggered == 0
    {
      this.alertService := alertService;
      var camden := new MonitoringJob("camden", "Camden Council Planning Portal", TwiceDaily, CamdenSource,
                                      Some(PlusHour(now)));
      var weekly := new MonitoringJob("weekly_summary", "Weekly Summary Digest", Weekly, "internal",
                                      Some(NextWeekday(now, 0, 9)));
      jobs := map["camden" := camden, "weekly_summary" := weekly];
      order := ["camden", "weekly_summary"];
      running := false;
      startTime := None;
      totalApplicationsProcessed := 0;
      totalAlertsTriggered := 0;
    }

    /** `start`: a second start changes nothing. */
    method Start(now: DateTime)
      modifies this
      ensures running
      ensures startTime == if old(running) then old(startTime) else Some(now)
      ensures jobs == old(jobs) && order == old(order)
    {
      if !running {
        running := true;
        startTime := Some(now);
      }
    }

    /** `stop` */
    method Stop()
      modifies this
      ensures !running && startTime == old(startTime) && jobs == old(jobs) && order == old(order)
    {
      running := false;
    }

    /** `add_job`: stores the job under its id, replacing any job there, which keeps its place in the order. */
    method AddJob(job: MonitoringJob)
      modifies this
      ensures jobs == old(jobs)[job.id := job]
      ensures order == if job.id in old(jobs) then old(order) else old(order) + [job.id]
      ensures old(Valid()) ==> Valid()
    {
      if job.id !in jobs {
        order := order + [job.id];
      }
      jobs := jobs[job.id := job];
    }

    /** `remove_job`: true exactly when the id was there; the other jobs keep their order. */
    method RemoveJob(id: string) returns (r: bool)
      modifies this
      ensures r == (id in old(jobs))
      ensures jobs == old(jobs) - {id}
      ensures order == if r then Without(old(order), id) else old(order)
      ensures old(Valid()) ==> Valid()
    {
      r := id in jobs;
      if r {
        jobs := jobs - {id};
        order := Without(order, id);
      }
    }

    /** `pause_job` */
    method PauseJob(id: string) returns (r: bool)
      modifies if id in jobs then {jobs[id]} else {}
      ensures r == (id in jobs)
      ensures r ==> jobs[id].State() == old(jobs[id].State()).(isActive := false)
    {
      r := id in jobs;
      if r {
        jobs[id].isActive := false;
      }
    }

    /** `resume_job`: active again and due five minutes from `now`. */
    method ResumeJob(id: string, now: DateTime) returns (r: bool)
      modifies if id in jobs then {jobs[id]} else {}
      ensures r == (id in jobs)
      ensures r ==> jobs[id].State() == old(jobs[id].State()).(isActive := true, nextRun := Some(PlusFiveMinutes(now)))
    {
      r := id in jobs;
      if r {
        jobs[id].isActive := true;
        jobs[id].nextRun := Some(PlusFiveMinutes(now));
      }
    }

    /**
     * `_run_job`: the Camden source fetches, and a failed fetch is recorded
     * as the job's error; other sources do nothing but the bookkeeping.
     */
    method RunJob(job: MonitoringJob, now: DateTime, fetched: Result<seq<Application>>)
      modifies this, job, set a | a in alertService.allAlerts
      ensures jobs == old(jobs) && order == old(order) && running == old(running) && startTime == old(startTime)
      ensures job.State() == AfterRun(old(job.State()), job.frequency, job.source, fetched, now)
      ensures job.source == CamdenSource && fetched.Ok? ==>
                Processed(old(totalApplicationsProcessed), old(totalAlertsTriggered), fetched.value, old(Views(alertService.allAlerts)), now)
      ensures !(job.source == CamdenSource && fetched.Ok?) ==>
                totalApplicationsProcessed == old(totalApplicationsProcessed) && totalAlertsTriggered == old(totalAlertsTriggered)
      ensures Views(alertService.allAlerts) == old(Views(alertService.allAlerts))
      ensures Distinct(alertService.allAlerts) ==>
                AlertsCounted(alertService.matcher, alertService.allAlerts, old(TriggerCounts(alertService.allAlerts)), old(TriggerTimes(alertService.allAlerts)),
                              FetchedApps(job.source, fetched), old(Views(alertService.allAlerts)), Stamp(now))
    {
      var s := job.State();
      if job.source == CamdenSource && fetched.Ok? {
        CheckCamden(fetched.value, now);
      }
      job.SetState(AfterRun(s, job.frequency, job.source, fetched, now));
    }

    /** The totals have grown from `apps0` and `alerts0` by the applications and by the triggers they raised. */
    ghost predicate Processed(apps0: int, alerts0: int, apps: seq<Application>, vs: seq<AlertView>, now: DateTime)
      reads this
    {
      totalApplicationsProcessed == apps0 + |apps|
      && totalAlertsTriggered == alerts0 + |BatchTriggers(alertService.matcher, apps, vs, Stamp(now))|
    }

    /** `_check_camden_applications` after the fetch: a non-empty batch goes to the alert service. */
    method CheckCamden(apps: seq<Application>, now: DateTime)
      modifies this, set a | a in alertService.allAlerts
      ensures jobs == old(jobs) && order == old(order) && running == old(running) && startTime == old(startTime)
      ensures Processed(old(totalApplicationsProcessed), old(totalAlertsTriggered), apps, old(Views(alertService.allAlerts)), now)
      ensures Views(alertService.allAlerts) == old(Views(alertService.allAlerts))
      ensures Distinct(alertService.allAlerts) ==>
                AlertsCounted(alertService.matcher, alertService.allAlerts, old(TriggerCounts(alertService.allAlerts)),
                              old(TriggerTimes(alertService.allAlerts)), apps, old(Views(alertService.allAlerts)), Stamp(now))
    {
      if apps != [] {
        var n := alertService.CountNewTriggers(apps, Stamp(now));
        totalApplicationsProcessed, totalAlertsTriggered := totalApplicationsProcessed + |apps|, totalAlertsTriggered + n;
      }
    }

    /** The applications `run_job_now` hands to the alert service: those of the job with that id, if there is one. */
    function NowApps(id: string, fetched: Result<seq<Application>>): seq<Application>
      reads this
    {
      if id in jobs then FetchedApps(jobs[id].source, fetched) else []
    }

    /** `run_job_now`: runs the job with that id, if there is one. */
    method RunJobNow(id: string, now: DateTime, fetched: Result<seq<Application>>) returns (r: bool)
      modifies this, if id in jobs then {jobs[id]} else {}, set a | a in alertService.allAlerts
      ensures r == (id in jobs) && jobs == old(jobs)
      ensures r ==> jobs[id].State() == AfterRun(old(jobs[id].State()), jobs[id].frequency, jobs[id].source, fetched, now)
      ensures order == old(order) && running == old(running) && startTime == old(startTime)
      ensures Processed(old(totalApplicationsProcessed), old(totalAlertsTriggered), NowApps(id, fetched),
                        old(Views(alertService.allAlerts)), now)
      ensures Views(alertService.allAlerts) == old(Views(alertService.allAlerts))
      ensures Distinct(alertService.allAlerts) ==>
                AlertsCounted(alertService.matcher, alertService.allAlerts, old(TriggerCounts(alertService.allAlerts)), old(TriggerTimes(alertService.allAlerts)),
                              NowApps(id, fetched), old(Views(alertService.allAlerts)), Stamp(now))
    {
      r := id in jobs;
      if r {
        RunJob(jobs[id], now, fetched);
      }
    }

    /**
     * One pass of `_run_loop` at `now`: every active job whose next run has
     * come runs, in dictionary order; `fetch(id)` is what the scraper gives
     * that job. The other jobs are untouched, and so are the alert views.
     */
    method Tick(now: DateTime, fetch: string -> Result<seq<Application>>)
      requires Valid()
      modifies this, Jobs(), set a | a in alertService.allAlerts
      ensures jobs == old(jobs) && order == old(order) && Valid()
      ensures forall k :: k in jobs ==>
                jobs[k].State() == TickState(old(jobs[k].State()), jobs[k].frequency, jobs[k].source, fetch(k), now)
      ensures running == old(running) && startTime == old(startTime)
      ensures Views(alertService.allAlerts) == old(Views(alertService.allAlerts))
    {
      var i := 0;
      ghost var states0, sources := StatesOf(order), SourcesOf(order);
      ghost var vs := Views(alertService.allAlerts);
      while i < |order|
        invariant 0 <= i <= |order|
        invariant jobs == old(jobs) && order == old(order)
        invariant running == old(running) && startTime == old(startTime)
        invariant forall j :: 0 <= j < i ==>
                    jobs[order[j]].State() == TickState(states0[j], jobs[order[j]].frequency, jobs[order[j]].source, fetch(order[j]), now)
        invariant forall j :: i <= j < |order| ==> jobs[order[j]].State() == states0[j]
        invariant Views(alertService.allAlerts) == vs
      {
        TickOne(i, now, fetch, states0, sources);
        i := i + 1;
      }
    }

    /**
     * The loop body of `Tick` for the job at position `i` of the order, in
     * state `states0[i]`: that job ticks, and the totals grow by what it
     * hands over.
     */
    method TickOne(i: nat, now: DateTime, fetch: string -> Result<seq<Application>>, ghost states0: seq<JobState>,
                   ghost sources: seq<string>)
      requires Valid() && i < |order| == |states0| == |sources|
      requires jobs[order[i]].State() == states0[i] && jobs[order[i]].source == sources[i]
      modifies this, jobs[order[i]], set a | a in alertService.allAlerts
      ensures jobs == old(jobs) && order == old(order)
      ensures jobs[order[i]].State() == TickState(states0[i], jobs[order[i]].frequency, jobs[order[i]].source, fetch(order[i]), now)
      ensures forall j :: 0 <= j < |order| && j != i ==> jobs[order[j]].State() == old(jobs[order[j]].State())
      ensures running == old(running) && startTime == old(startTime)
      ensures Processed(old(totalApplicationsProcessed), old(totalAlertsTriggered), JobApps(states0[i], sources[i], now, fetch(order[i])),
                        old(Views(alertService.allAlerts)), now)
      ensures Views(alertService.allAlerts) == old(Views(alertService.allAlerts))
    {
      var job := jobs[order[i]];
      if job.isActive && job.nextRun.Some? && Stamp(job.nextRun.value) <= Stamp(now) {
        RunJob(job, now, fetch(order[i]));
      }
    }

    /** The states of the jobs named by `ks`, in that order. */
    function StatesOf(ks: seq<string>): (r: seq<JobState>)
      requires forall k :: k in ks ==> k in jobs
      reads this, Jobs()
      ensures |r| == |ks| && forall i :: 0 <= i < |ks| ==> r[i] == jobs[ks[i]].State()
    {
      if ks == [] then [] else StatesOf(ks[..|ks| - 1]) + [jobs[ks[|ks| - 1]].State()]
    }

    /** The sources of the jobs named by `ks`, in that order. */
    function SourcesOf(ks: seq<string>): (r: seq<string>)
      requires forall k :: k in ks ==> k in jobs
      reads this
      ensures |r| == |ks| && forall i :: 0 <= i < |ks| ==> r[i] == jobs[ks[i]].source
    {
      seq(|ks|, i requires 0 <= i < |ks| && ks[i] in jobs reads this => jobs[ks[i]].source)
    }

    /** The number of active jobs, the `active_jobs` sum of `get_stats`. */
    function ActiveJobs(): (n: nat)
      requires Valid()
      reads this, Jobs()
      ensures n == |set k | k in jobs && jobs[k].isActive| && n <= |jobs|
    {
      var states := StatesOf(order);
      UniqueCard(order);
      assert (set k | k in order) == jobs.Keys;
      var active := set k | k in jobs && jobs[k].isActive;
      ActiveCount(order, states, active);
      assert (set k | k in order && k in active) == active;
      CountWhere(states, IsActive)
    }

    /** The latest last run among the jobs, the `last_run` maximum of `get_stats`. */
    function LastRun(): (r: Option<DateTime>)
      requires Valid()
      reads this, Jobs()
      ensures r.None? <==> forall k :: k in jobs ==> jobs[k].lastRun.None?
      ensures r.Some? ==> exists k :: k in jobs && jobs[k].lastRun == r
      ensures r.Some? ==> forall k :: k in jobs && jobs[k].lastRun.Some? ==> Stamp(jobs[k].lastRun.value) <= Stamp(r.value)
    {
      LatestRun(StatesOf(order))
    }

    /** `get_stats` */
    function Stats(now: DateTime): (st: MonitoringStats)
      requires Valid()
      reads this, Jobs()
      ensures st.totalJobs == |jobs| && 0 <= st.activeJobs <= st.totalJobs
      ensures st.activeJobs == |set k | k in jobs && jobs[k].isActive|
      ensures st.uptimeSeconds == UptimeSeconds(startTime, now)
      ensures st.lastRun.None? <==> forall k :: k in jobs ==> jobs[k].lastRun.None?
      ensures st.lastRun.Some? ==> exists k :: k in jobs && jobs[k].lastRun == st.lastRun
      ensures st.lastRun.Some? ==> forall k :: k in jobs && jobs[k].lastRun.Some? ==>
                                      Stamp(jobs[k].lastRun.value) <= Stamp(st.lastRun.value)
      ensures st.totalApplicationsProcessed == totalApplicationsProcessed && st.totalAlertsTriggered == totalAlertsTriggered
    {
      MonitoringStats(|jobs|, ActiveJobs(), totalApplicationsProcessed, totalAlertsTriggered, LastRun(), UptimeSeconds(startTime, now))
    }
  }
}
