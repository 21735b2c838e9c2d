/**
 * The job scheduler wrappers: the schedule payload and its argument checks, the
 * requests the create, update and run calls issue, the id read back from the
 * `Location` header, and the shaping of job-instance and schedule records into
 * table rows.
 */
module JobScheduler {
  import opened Wrappers
  import opened Errors
  import opened PyStrings
  import opened JsonValues
  import opened Folds
  import opened Resolvers

  /** The largest schedule interval in minutes (about ten years). */
  const MaxInterval := 5270400
  /** The most time slots a schedule may list. */
  const MaxTimes := 100
  const ValidConfigTypes: set<string> := {"cron", "daily", "weekly"}

  /** The schedule arguments of create_item_schedule and update_item_schedule. */
  datatype ScheduleArgs = ScheduleArgs(
    enabled: bool,
    startDateTime: Option<string>,
    endDateTime: Option<string>,
    localTimeZoneId: Option<string>,
    configType: Option<string>,
    interval: Option<int>,
    weekdays: Value,  // passed on as given
    times: Value)     // None, a string or a list of "hh:mm" strings

  /** An HTTP request the wrappers hand to the transport. */
  datatype Request = Request(verb: string, path: string, payload: Option<Value>)

  // ---------------------------------------------------------------------------
  // The schedule payload
  // ---------------------------------------------------------------------------

  /** The configuration keys every payload carries. */
  const BaseKeys: seq<string> := ["startDateTime", "endDateTime", "localTimeZoneId", "type"]

  /** The extra configuration keys of each variant, chosen by the lower-cased type. */
  function VariantKeys(kind: string): seq<string> {
    if kind == "cron" then ["interval"]
    else if kind == "daily" then ["times"]
    else if kind == "weekly" then ["times", "weekdays"]
    else []
  }

  function BaseConfiguration(a: ScheduleArgs, configType: string): seq<Field> {
    [ Field("startDateTime", OfString(a.startDateTime)),
      Field("endDateTime", OfString(a.endDateTime)),
      Field("localTimeZoneId", OfString(a.localTimeZoneId)),
      Field("type", Str(configType)) ]
  }

  function VariantConfiguration(a: ScheduleArgs, configType: string): seq<Field> {
    var kind := Lower(configType);
    if kind == "cron" then [Field("interval", OfInt(a.interval))]
    else if kind == "daily" then [Field("times", Str(PyStr(a.times)))]
    else if kind == "weekly" then [Field("times", a.times), Field("weekdays", a.weekdays)]
    else []
  }

  /** The payload of a create or update schedule call for the given configuration type. */
  function SchedulePayload(a: ScheduleArgs, configType: string): Value {
    Obj([ Field("enabled", Bool(a.enabled)),
          Field("configuration", Obj(BaseConfiguration(a, configType) + VariantConfiguration(a, configType))) ])
  }

  /** The configuration object inside a payload. */
  function Configuration(payload: Value): seq<Field> {
    match Get(payload, "configuration")
    case Ok(Obj(fs)) => fs
    case _ => []
  }

  /**
   * Builds the payload as the source does: the fixed part first, then one
   * assignment per key of the matching variant.
   */
  method CreateItemSchedulePayload(a: ScheduleArgs, configType: string) returns (payload: Value)
    ensures payload == SchedulePayload(a, configType)
  {
    var configuration := [ Field("startDateTime", OfString(a.startDateTime)),
                           Field("endDateTime", OfString(a.endDateTime)),
                           Field("localTimeZoneId", OfString(a.localTimeZoneId)),
                           Field("type", Str(configType)) ];
    assert configuration == BaseConfiguration(a, configType);
    BaseConfigurationKeys(a, configType);
    var kind := Lower(configType);
    if kind == "cron" {
      SetKeyFresh(configuration, "interval", OfInt(a.interval));
      configuration := SetKey(configuration, "interval", OfInt(a.interval));
    } else if kind == "daily" {
      SetKeyFresh(configuration, "times", Str(PyStr(a.times)));
      configuration := SetKey(configuration, "times", Str(PyStr(a.times)));
    } else if kind == "weekly" {
      SetKeyFresh(configuration, "times", a.times);
      configuration := SetKey(configuration, "times", a.times);
      assert Keys(configuration) == BaseKeys + ["times"];
      SetKeyFresh(configuration, "weekdays", a.weekdays);
      configuration := SetKey(configuration, "weekdays", a.weekdays);
    }
    assert configuration == BaseConfiguration(a, configType) + VariantConfiguration(a, configType);
    payload := Obj([Field("enabled", Bool(a.enabled)), Field("configuration", Obj(configuration))]);
  }

  /** The configuration of a payload is its base part followed by its variant part. */
  lemma ConfigurationOfPayload(a: ScheduleArgs, configType: string)
    ensures Configuration(SchedulePayload(a, configType))
         == BaseConfiguration(a, configType) + VariantConfiguration(a, configType)
  {
    var c := BaseConfiguration(a, configType) + VariantConfiguration(a, configType);
    var fs := SchedulePayload(a, configType).fields;
    assert fs[1..] == [Field("configuration", Obj(c))];
    assert Lookup(fs, "configuration") == Lookup(fs[1..], "configuration");
  }

  /**
   * Every payload has exactly the top-level keys `enabled` and `configuration`,
   * and a configuration that starts with the four base keys; `type` is the
   * caller's string as given, not lower-cased.
   */
  lemma PayloadBase(a: ScheduleArgs, configType: string)
    ensures var p := SchedulePayload(a, configType);
      var c := Configuration(p);
      && Keys(p.fields) == ["enabled", "configuration"]
      && Get(p, "enabled") == Ok(Bool(a.enabled))
      && |c| >= 4 && Keys(c)[..4] == BaseKeys
      && Lookup(c, "startDateTime") == Some(OfString(a.startDateTime))
      && Lookup(c, "endDateTime") == Some(OfString(a.endDateTime))
      && Lookup(c, "localTimeZoneId") == Some(OfString(a.localTimeZoneId))
      && Lookup(c, "type") == Some(Str(configType))
  {
    ConfigurationOfPayload(a, configType);
    BaseLookups(a, configType, VariantConfiguration(a, configType));
    var base := BaseConfiguration(a, configType);
    var variant := VariantConfiguration(a, configType);
    KeysAppend(base, variant);
    BaseConfigurationKeys(a, configType);
    PrefixOfAppend(BaseKeys, Keys(variant));
    TopLevelKeys(Bool(a.enabled), Obj(base + variant));
  }

  lemma BaseConfigurationKeys(a: ScheduleArgs, configType: string)
    ensures Keys(BaseConfiguration(a, configType)) == BaseKeys
  {
    var ks := Keys(BaseConfiguration(a, configType));
    assert |ks| == 4;
    assert ks[0] == "startDateTime" && ks[1] == "endDateTime" && ks[2] == "localTimeZoneId" && ks[3] == "type";
  }

  lemma TopLevelKeys(enabled: Value, configuration: Value)
    ensures var fs := [Field("enabled", enabled), Field("configuration", configuration)];
      Keys(fs) == ["enabled", "configuration"] && Get(Obj(fs), "enabled") == Ok(enabled)
  {
  }

  lemma KeysAppend(a: seq<Field>, b: seq<Field>)
    ensures Keys(a + b) == Keys(a) + Keys(b)
  {
  }

  lemma PrefixOfAppend(a: seq<string>, b: seq<string>)
    ensures (a + b)[..|a|] == a
  {
  }

  /** The four base keys are found in the base part, whatever follows it. */
  lemma BaseLookups(a: ScheduleArgs, configType: string, rest: seq<Field>)
    ensures var c := BaseConfiguration(a, configType) + rest;
      && Lookup(c, "startDateTime") == Some(OfString(a.startDateTime))
      && Lookup(c, "endDateTime") == Some(OfString(a.endDateTime))
      && Lookup(c, "localTimeZoneId") == Some(OfString(a.localTimeZoneId))
      && Lookup(c, "type") == Some(Str(configType))
  {
    var c := BaseConfiguration(a, configType) + rest;
    assert c[0] == Field("startDateTime", OfString(a.startDateTime));
    LookupSkip(c, 1, "endDateTime");
    assert c[1..][0] == Field("endDateTime", OfString(a.endDateTime));
    LookupSkip(c, 2, "localTimeZoneId");
    assert c[2..][0] == Field("localTimeZoneId", OfString(a.localTimeZoneId));
    LookupSkip(c, 3, "type");
    assert c[3..][0] == Field("type", Str(configType));
  }

  /**
   * The variant decides the rest of the configuration and nothing else: cron adds
   * only `interval`, daily only `times` as `str(times)`, weekly `times` as given
   * and `weekdays`, and an unknown type adds nothing.
   */
  lemma PayloadVariant(a: ScheduleArgs, configType: string)
    ensures var c := Configuration(SchedulePayload(a, configType));
      var kind := Lower(configType);
      && Keys(c) == BaseKeys + VariantKeys(kind)
      && Lookup(c, "interval") == (if kind == "cron" then Some(OfInt(a.interval)) else None)
      && Lookup(c, "times") == (if kind == "daily" then Some(Str(PyStr(a.times)))
                                else if kind == "weekly" then Some(a.times) else None)
      && Lookup(c, "weekdays") == (if kind == "weekly" then Some(a.weekdays) else None)
  {
    ConfigurationOfPayload(a, configType);
    var base := BaseConfiguration(a, configType);
    var variant := VariantConfiguration(a, configType);
    KeysAppend(base, variant);
    BaseConfigurationKeys(a, configType);
    VariantConfigurationKeys(a, configType);
    LookupAfterBase(a, configType, variant, "interval");
    LookupAfterBase(a, configType, variant, "times");
    LookupAfterBase(a, configType, variant, "weekdays");
    VariantLookups(a, configType);
  }

  lemma VariantConfigurationKeys(a: ScheduleArgs, configType: string)
    ensures Keys(VariantConfiguration(a, configType)) == VariantKeys(Lower(configType))
  {
    var ks := Keys(VariantConfiguration(a, configType));
    var kind := Lower(configType);
    if kind == "weekly" {
      assert |ks| == 2 && ks[0] == "times" && ks[1] == "weekdays";
    } else if kind == "cron" || kind == "daily" {
      assert |ks| == 1;
    }
  }

  /** A key outside the base keys is looked up in what follows the base part. */
  lemma LookupAfterBase(a: ScheduleArgs, configType: string, rest: seq<Field>, k: string)
    requires k !in BaseKeys
    ensures Lookup(BaseConfiguration(a, configType) + rest, k) == Lookup(rest, k)
  {
    var c := BaseConfiguration(a, configType) + rest;
    BaseConfigurationKeys(a, configType);
    assert forall i :: 0 <= i < 4 ==> c[i].key == BaseKeys[i];
    LookupSkip(c, 4, k);
    assert c[4..] == rest;
  }

  lemma VariantLookups(a: ScheduleArgs, configType: string)
    ensures var v := VariantConfiguration(a, configType);
      var kind := Lower(configType);
      && Lookup(v, "interval") == (if kind == "cron" then Some(OfInt(a.interval)) else None)
      && Lookup(v, "times") == (if kind == "daily" then Some(Str(PyStr(a.times)))
                                else if kind == "weekly" then Some(a.times) else None)
      && Lookup(v, "weekdays") == (if kind == "weekly" then Some(a.weekdays) else None)
  {
    var v := VariantConfiguration(a, configType);
    if Lower(configType) == "weekly" {
      assert v[1..] == [Field("weekdays", a.weekdays)];
      assert Lookup(v, "weekdays") == Lookup(v[1..], "weekdays");
    }
  }

  /** Keys absent from a prefix do not affect the lookup. */
  lemma {:induction false} LookupSkip(fs: seq<Field>, n: nat, k: string)
    requires n <= |fs|
    requires forall i :: 0 <= i < n ==> fs[i].key != k
    ensures Lookup(fs, k) == Lookup(fs[n..], k)
    decreases n
  {
    if n > 0 {
      assert fs[1..][n - 1..] == fs[n..];
      LookupSkip(fs[1..], n - 1, k);
    }
  }

  // ---------------------------------------------------------------------------
  // Argument checks
  // ---------------------------------------------------------------------------

  /**
   * The checks of create_item_schedule and update_item_schedule exactly as
   * written: `(interval is not None and interval < 1) or interval > 5270400`
   * compares None with an int when no interval is given, and the times limit
   * counts the pieces of `str(times).split('.')`.
   */
  function CheckScheduleArgsAsWritten(a: ScheduleArgs): Result<string, Error> {
    match a.configType
    case None => Err(AttributeError)
    case Some(t) =>
      if Lower(t) !in ValidConfigTypes then Err(InvalidScheduleType)
      else
        match a.interval
        case None => Err(TypeError)
        case Some(n) =>
          if n < 1 || n > MaxInterval then Err(IntervalOutOfRange)
          else if |Split(PyStr(a.times), '.')| > MaxTimes then Err(TooManyTimes)
          else Ok(t)
  }

  /** The number of time slots a `times` argument lists. */
  function TimeSlotCount(times: Value): nat {
    match times
    case Null => 0
    case Arr(xs) => |xs|
    case _ => 1
  }

  predicate IntervalAllowed(interval: Option<int>) {
    interval.None? || 1 <= interval.value <= MaxInterval
  }

  /**
   * The checks as documented: the type is one of cron, daily or weekly in any
   * case; an interval, when given, lies in 1..5270400; at most 100 time slots.
   * On success the caller's type string is returned unchanged.
   */
  function CheckScheduleArgs(a: ScheduleArgs): (r: Result<string, Error>)
    ensures r.Ok? <==>
      a.configType.Some? && Lower(a.configType.value) in ValidConfigTypes &&
      IntervalAllowed(a.interval) && TimeSlotCount(a.times) <= MaxTimes
    ensures r.Ok? ==> r.value == a.configType.value
    ensures a.configType.Some? && Lower(a.configType.value) !in ValidConfigTypes ==> r == Err(InvalidScheduleType)
  {
    match a.configType
    case None => Err(AttributeError)
    case Some(t) =>
      if Lower(t) !in ValidConfigTypes then Err(InvalidScheduleType)
      else if a.interval.Some? && (a.interval.value < 1 || a.interval.value > MaxInterval) then Err(IntervalOutOfRange)
      else if TimeSlotCount(a.times) > MaxTimes then Err(TooManyTimes)
      else Ok(t)
  }

  /** As written, leaving out the interval fails even for daily and weekly schedules. */
  lemma AsWrittenRejectsMissingInterval(a: ScheduleArgs)
    requires a.configType.Some? && Lower(a.configType.value) in ValidConfigTypes
    requires a.interval.None?
    ensures CheckScheduleArgsAsWritten(a) == Err(TypeError)
    ensures TimeSlotCount(a.times) <= MaxTimes ==> CheckScheduleArgs(a) == Ok(a.configType.value)
  {
  }

  /** As written, the times limit passes exactly when `str(times)` has fewer than 100 dots. */
  lemma AsWrittenTimesCountsDots(a: ScheduleArgs)
    requires a.configType.Some? && Lower(a.configType.value) in ValidConfigTypes
    requires a.interval.Some? && 1 <= a.interval.value <= MaxInterval
    ensures CheckScheduleArgsAsWritten(a).Ok? <==> Count(PyStr(a.times), '.') < MaxTimes
  {
    SplitCount(PyStr(a.times), '.');
  }

  /** `str` of a list of strings without dots has no dot. */
  lemma ListOfDotlessStrings(xs: seq<Value>)
    requires forall i :: 0 <= i < |xs| ==> xs[i].Str? && '.' !in xs[i].s
    ensures '.' !in PyStr(Arr(xs))
  {
    var ps := seq(|xs|, k requires 0 <= k < |xs| => Repr(xs[k]));
    forall k | 0 <= k < |xs| ensures '.' !in ps[k] {
      assert ps[k] == ReprString(xs[k].s);
      ReprStringHasNo(xs[k].s, '.');
    }
    JoinFree(ps, ", ", '.');
  }

  /**
   * A daily schedule with 150 slots "09:00": the check as written lets it
   * through, the documented limit rejects it.
   */
  lemma AsWrittenAcceptsLongTimesList()
    ensures var a := ScheduleArgs(true, None, None, None, Some("Daily"), Some(60), Null,
                                  Arr(seq(150, _ => Str("09:00"))));
      && CheckScheduleArgsAsWritten(a) == Ok("Daily")
      && CheckScheduleArgs(a) == Err(TooManyTimes)
  {
    var xs := seq(150, _ => Str("09:00"));
    var a := ScheduleArgs(true, None, None, None, Some("Daily"), Some(60), Null, Arr(xs));
    assert Lower("Daily") == "daily";
    ListOfDotlessStrings(xs);
    CountZero(PyStr(Arr(xs)), '.');
    SplitCount(PyStr(Arr(xs)), '.');
  }

  // ---------------------------------------------------------------------------
  // Requests
  // ---------------------------------------------------------------------------

  function SchedulesPath(workspaceId: string, itemId: string, jobType: string): string {
    "v1/workspaces/" + workspaceId + "/items/" + itemId + "/jobs/" + jobType + "/schedules"
  }

  /**
   * create_item_schedule up to its HTTP call: the checks, then the payload, then
   * the workspace and item resolution, then a POST of the payload.
   */
  function CreateItemScheduleRequest(a: ScheduleArgs, workspace: Result<Resolved, Error>,
                                     item: Result<Resolved, Error>, jobType: string): Result<Request, Error>
  {
    var configType :- CheckScheduleArgs(a);
    var payload := SchedulePayload(a, configType);
    var ws :- workspace;
    var it :- item;
    Ok(Request("post", SchedulesPath(ws.id, it.id, jobType), Some(payload)))
  }

  /** update_item_schedule up to its HTTP call: the same checks and payload, sent as a PATCH. */
  function UpdateItemScheduleRequest(a: ScheduleArgs, scheduleId: string, workspace: Result<Resolved, Error>,
                                     item: Result<Resolved, Error>, jobType: string): Result<Request, Error>
  {
    var configType :- CheckScheduleArgs(a);
    var payload := SchedulePayload(a, configType);
    var ws :- workspace;
    var it :- item;
    Ok(Request("patch", SchedulesPath(ws.id, it.id, jobType) + "/" + scheduleId, Some(payload)))
  }

  /**
   * Arguments that fail the checks produce that error whatever the resolvers
   * would answer, so no resolution and no request happens; arguments that pass
   * send exactly the payload for the caller's type.
   */
  lemma ChecksPrecedeRequests(a: ScheduleArgs, scheduleId: string, workspace: Result<Resolved, Error>,
                              item: Result<Resolved, Error>, jobType: string)
    ensures CheckScheduleArgs(a).Err? ==>
      CreateItemScheduleRequest(a, workspace, item, jobType) == Err(CheckScheduleArgs(a).error) &&
      UpdateItemScheduleRequest(a, scheduleId, workspace, item, jobType) == Err(CheckScheduleArgs(a).error)
    ensures CheckScheduleArgs(a).Ok? && workspace.Ok? && item.Ok? ==>
      var c := CreateItemScheduleRequest(a, workspace, item, jobType);
      var u := UpdateItemScheduleRequest(a, scheduleId, workspace, item, jobType);
      && c.Ok? && c.value.verb == "post"
      && c.value.path == SchedulesPath(workspace.value.id, item.value.id, jobType)
      && c.value.payload == Some(SchedulePayload(a, a.configType.value))
      && u.Ok? && u.value.verb == "patch"
      && u.value.path == SchedulesPath(workspace.value.id, item.value.id, jobType) + "/" + scheduleId
      && u.value.payload == c.value.payload
  {
  }

  /** The job instances of an item, which list_item_job_instances reads. */
  function InstancesPath(workspaceId: string, itemId: string): string {
    "v1/workspaces/" + workspaceId + "/items/" + itemId + "/jobs/instances"
  }

  /** The POST that run_on_demand_item_job issues: no payload, the job type as the query. */
  function RunOnDemandItemJobRequest(workspace: Resolved, item: Resolved, jobType: string): Request {
    Request("post", InstancesPath(workspace.id, item.id) + "?jobType=" + jobType, None)
  }

  /** `response.headers.get("Location").split("/")[-1]`; a missing header raises. */
  function LocationId(location: Option<string>): Result<string, Error> {
    match location
    case None => Err(AttributeError)
    case Some(h) => Ok(LastSegment(h, '/'))
  }

  /**
   * The id is the text after the last `/` of the header: a suffix with no `/`,
   * preceded by a `/` unless it is the whole header.
   */
  lemma LocationIdIsLastSegment(h: string)
    ensures var r := LocationId(Some(h)).value;
      && '/' !in r
      && |r| <= |h| && h[|h| - |r|..] == r
      && (|r| < |h| ==> h[|h| - |r| - 1] == '/')
      && ('/' !in h ==> r == h)
  {
    LastSegmentIsTail(h, '/');
    if '/' !in h {
      LastSegmentOfFree(h, '/');
    }
  }

  /**
   * run_on_demand_item_job: the workspace and item are resolved, the job is
   * posted, and the new job instance's id is the last segment of the
   * `Location` header of the response.
   */
  function RunOnDemandItemJob(workspace: Result<Resolved, Error>, item: Result<Resolved, Error>, jobType: string,
                              location: Result<Option<string>, Error>): Result<string, Error>
  {
    var ws :- workspace;
    var it :- item;
    var request := RunOnDemandItemJobRequest(ws, it, jobType);
    var header :- location;
    LocationId(header)
  }

  /**
   * A posted job whose response carries a `Location` header returns an id
   * without `/` that ends that header; a response without the header raises.
   * The job is posted to the collection list_item_job_instances reads.
   */
  lemma RunOnDemandItemJobId(workspace: Resolved, item: Resolved, jobType: string, location: Option<string>)
    ensures StartsWith(RunOnDemandItemJobRequest(workspace, item, jobType).path, InstancesPath(workspace.id, item.id))
    ensures var r := RunOnDemandItemJob(Ok(workspace), Ok(item), jobType, Ok(location));
      match location
      case None => r == Err(AttributeError)
      case Some(h) => r.Ok? && '/' !in r.value && |r.value| <= |h| && h[|h| - |r.value|..] == r.value
  {
    var p := InstancesPath(workspace.id, item.id);
    assert (p + "?jobType=" + jobType)[..|p|] == p;
    if location.Some? {
      LocationIdIsLastSegment(location.value);
    }
  }

  /** The new schedule's id: the last segment of the `Location` header of the response. */
  function CreateItemSchedule(a: ScheduleArgs, workspace: Result<Resolved, Error>, item: Result<Resolved, Error>,
                              jobType: string, location: Result<Option<string>, Error>): Result<string, Error>
  {
    var request :- CreateItemScheduleRequest(a, workspace, item, jobType);
    var header :- location;
    LocationId(header)
  }

  /**
   * Arguments that fail the checks raise before any header is read; otherwise
   * a response with a `Location` header gives an id without `/` that ends it.
   */
  lemma CreateItemScheduleId(a: ScheduleArgs, workspace: Resolved, item: Resolved, jobType: string,
                             location: Result<Option<string>, Error>)
    ensures CheckScheduleArgs(a).Err? ==>
      CreateItemSchedule(a, Ok(workspace), Ok(item), jobType, location) == Err(CheckScheduleArgs(a).error)
    ensures CheckScheduleArgs(a).Ok? && location.Ok? && location.value.Some? ==>
      var h := location.value.value;
      var r := CreateItemSchedule(a, Ok(workspace), Ok(item), jobType, location);
      r.Ok? && '/' !in r.value && |r.value| <= |h| && h[|h| - |r.value|..] == r.value
  {
    ChecksPrecedeRequests(a, "", Ok(workspace), Ok(item), jobType);
    if location.Ok? && location.value.Some? {
      LocationIdIsLastSegment(location.value.value);
    }
  }


  // ---------------------------------------------------------------------------
  // Job instance rows
  // ---------------------------------------------------------------------------

  datatype JobInstanceRow = JobInstanceRow(
    jobInstanceId: Value,
    itemName: Value,
    itemId: Value,
    itemType: Value,
    jobType: Value,
    invokeType: Value,
    status: Value,
    rootActivityId: Value,
    startTimeUtc: Value,
    endTimeUtc: Value,
    errorMessage: Value)

  /** `fail.get("message") if fail is not None else ""` */
  function ErrorMessage(fail: Value): Result<Value, Error> {
    if fail == Null then Ok(Str("")) else Get(fail, "message")
  }

  /** One job instance record shaped into a row; `failureReason` defaults to `{}` when absent. */
  function JobInstanceRowOf(v: Value, itemName: string, itemType: Value): Result<JobInstanceRow, Error> {
    var fail :- GetOr(v, "failureReason", Obj([]));
    var message :- ErrorMessage(fail);
    var fs := v.fields;
    Ok(JobInstanceRow(Cell(fs, "id"), Str(itemName), Cell(fs, "itemId"), itemType, Cell(fs, "jobType"),
                      Cell(fs, "invokeType"), Cell(fs, "status"), Cell(fs, "rootActivityId"),
                      Cell(fs, "startTimeUtc"), Cell(fs, "endTimeUtc"), message))
  }

  /**
   * The three cases of `Error Message`: an absent `failureReason` leaves the
   * message missing (None); a null one gives ""; an object gives its `message`.
   * Any other failure reason raises.
   */
  lemma ErrorMessageCases(fs: seq<Field>, itemName: string, itemType: Value)
    ensures var r := JobInstanceRowOf(Obj(fs), itemName, itemType);
      match Lookup(fs, "failureReason")
      case None => r.Ok? && r.value.errorMessage == Null
      case Some(Null) => r.Ok? && r.value.errorMessage == Str("")
      case Some(Obj(g)) => r.Ok? && r.value.errorMessage == Cell(g, "message")
      case Some(_) => r == Err(AttributeError)
  {
  }

  function JobInstanceRowFn(itemName: string, itemType: Value): Value -> Result<JobInstanceRow, Error> {
    v => JobInstanceRowOf(v, itemName, itemType)
  }

  /** The rows one page contributes: its `value` items in order. */
  function InstancePageRows(page: Value, itemName: string, itemType: Value): Result<seq<JobInstanceRow>, Error> {
    var value :- GetOr(page, "value", Arr([]));
    var items :- Iterate(value);
    MapAll(items, JobInstanceRowFn(itemName, itemType))
  }

  function InstancePageFn(itemName: string, itemType: Value): Value -> Result<seq<JobInstanceRow>, Error> {
    p => InstancePageRows(p, itemName, itemType)
  }

  /**
   * The table list_item_job_instances returns for the given pages: empty when
   * the first page has no `value` or an empty one, else the rows of every page
   * in page order.
   */
  function JobInstanceTable(pages: seq<Value>, itemName: string, itemType: Value): Result<seq<JobInstanceRow>, Error> {
    if pages == [] then Err(IndexError)
    else
      var first :- Get(pages[0], "value");
      if !Truthy(first) then Ok([])
      else ConcatAll(pages, InstancePageFn(itemName, itemType))
  }

  /** The item type the rows carry: the caller's, or the resolved one when none was given. */
  function EffectiveItemType(given: Option<string>, resolved: string): string {
    given.GetOr(resolved)
  }

  /** The rows of one page, appended record by record. */
  method CollectInstancePage(page: Value, itemName: string, itemType: Value)
    returns (r: Result<seq<JobInstanceRow>, Error>)
    ensures r == InstancePageRows(page, itemName, itemType)
  {
    var value := GetOr(page, "value", Arr([]));
    if value.Err? {
      return Err(value.error);
    }
    var items := Iterate(value.value);
    if items.Err? {
      return Err(items.error);
    }
    var rowFn := JobInstanceRowFn(itemName, itemType);
    var rows: seq<JobInstanceRow> := [];
    var k := 0;
    while k < |items.value|
      invariant 0 <= k <= |items.value|
      invariant MapAll(items.value[..k], rowFn) == Ok(rows)
    {
      MapAllSnoc(items.value, k, rowFn);
      var row := rowFn(items.value[k]);
      if row.Err? {
        return Err(row.error);
      }
      rows := rows + [row.value];
      k := k + 1;
    }
    assert items.value[..k] == items.value;
    return Ok(rows);
  }

  /**
   * list_item_job_instances over the pages the transport returned. The item
   * type is resolved only when the caller gave none.
   */
  method ListItemJobInstances(pages: seq<Value>, itemName: string, givenType: Option<string>, resolvedType: string)
    returns (r: Result<seq<JobInstanceRow>, Error>)
    ensures r == JobInstanceTable(pages, itemName, Str(EffectiveItemType(givenType, resolvedType)))
  {
    var itemType := Str(if givenType.None? then resolvedType else givenType.value);
    if |pages| == 0 {
      return Err(IndexError);
    }
    var first := Get(pages[0], "value");
    if first.Err? {
      return Err(first.error);
    }
    if !Truthy(first.value) {
      return Ok([]);
    }
    ghost var pageFn := InstancePageFn(itemName, itemType);
    var rows: seq<JobInstanceRow> := [];
    var p := 0;
    while p < |pages|
      invariant 0 <= p <= |pages|
      invariant ConcatAll(pages[..p], pageFn) == Ok(rows)
    {
      ConcatAllSnoc(pages, p, pageFn);
      var pageRows := CollectInstancePage(pages[p], itemName, itemType);
      if pageRows.Err? {
        return Err(pageRows.error);
      }
      rows := rows + pageRows.value;
      p := p + 1;
    }
    assert pages[..p] == pages;
    return Ok(rows);
  }

  /** An empty or missing first `value` gives the empty table whatever the later pages hold. */
  lemma EmptyFirstPageGivesEmptyTable(pages: seq<Value>, itemName: string, itemType: Value)
    requires pages != [] && pages[0].Obj?
    requires !Truthy(Cell(pages[0].fields, "value"))
    ensures JobInstanceTable(pages, itemName, itemType) == Ok([])
  {
  }

  /**
   * A single page of well-formed records gives one row per record, in order,
   * each row the shaping of its record.
   */
  lemma {:induction false} InstanceRowsFollowItems(page: seq<Field>, items: seq<Value>, itemName: string, itemType: Value)
    requires Lookup(page, "value") == Some(Arr(items))
    requires forall i :: 0 <= i < |items| ==> JobInstanceRowOf(items[i], itemName, itemType).Ok?
    ensures var r := InstancePageRows(Obj(page), itemName, itemType);
      && r.Ok? && |r.value| == |items|
      && forall i :: 0 <= i < |items| ==> JobInstanceRowOf(items[i], itemName, itemType) == Ok(r.value[i])
  {
    var rowFn := JobInstanceRowFn(itemName, itemType);
    assert forall i :: 0 <= i < |items| ==> rowFn(items[i]) == JobInstanceRowOf(items[i], itemName, itemType);
    MapAllOk(items, rowFn);
  }

  /** get_item_job_instance: one row; the item type is the caller's, None when not given. */
  function GetItemJobInstance(body: Value, itemName: string, givenType: Option<string>): Result<seq<JobInstanceRow>, Error> {
    var row :- JobInstanceRowOf(body, itemName, OfString(givenType));
    Ok([row])
  }

  /**
   * get_item_job_instance shapes its record as list_item_job_instances shapes a
   * page holding only that record, except that the item type is the caller's
   * as given (None when absent) rather than the resolved one.
   */
  lemma GetItemJobInstanceAsPage(body: Value, itemName: string, givenType: Option<string>)
    ensures GetItemJobInstance(body, itemName, givenType) ==
            InstancePageRows(Obj([Field("value", Arr([body]))]), itemName, OfString(givenType))
  {
    var f := JobInstanceRowFn(itemName, OfString(givenType));
    assert Lookup([Field("value", Arr([body]))], "value") == Some(Arr([body]));
    MapAllSingle(body, f);
  }

  // ---------------------------------------------------------------------------
  // Schedule rows
  // ---------------------------------------------------------------------------

  datatype ScheduleRow = ScheduleRow(
    jobScheduleId: Value,
    enabled: Value,
    createdDateTime: Value,
    startDateTime: Value,
    endDateTime: Value,
    localTimeZoneId: Value,
    configType: Value,
    interval: Value,
    weekdays: Value,
    times: Value,
    ownerId: Value,
    ownerType: Value)

  /**
   * One schedule record shaped into a row; `configuration` and `owner` default
   * to `{}` when absent, and `Times` is the JSON text of the configured times.
   */
  function ScheduleRowOf(v: Value): Result<ScheduleRow, Error> {
    var config :- GetOr(v, "configuration", Obj([]));
    var own :- GetOr(v, "owner", Obj([]));
    if !config.Obj? || !own.Obj? then Err(AttributeError)
    else
      var fs, c, o := v.fields, config.fields, own.fields;
      Ok(ScheduleRow(Cell(fs, "id"), Cell(fs, "enabled"), Cell(fs, "createdDateTime"),
                     Cell(c, "startDateTime"), Cell(c, "endDateTime"), Cell(c, "localTimeZoneId"),
                     Cell(c, "type"), Cell(c, "interval"), Cell(c, "weekdays"),
                     Str(Dumps(Cell(c, "times"))), Cell(o, "id"), Cell(o, "type")))
  }

  /** The rows of list_item_schedules: the records under `value`, in order. */
  function ScheduleTable(body: Value): Result<seq<ScheduleRow>, Error> {
    var value :- GetOr(body, "value", Arr([]));
    var items :- Iterate(value);
    MapAll(items, ScheduleRowOf)
  }

  /** list_item_schedules over the response body, appending one row per record. */
  method ListItemSchedules(body: Value) returns (r: Result<seq<ScheduleRow>, Error>)
    ensures r == ScheduleTable(body)
  {
    var value := GetOr(body, "value", Arr([]));
    if value.Err? {
      return Err(value.error);
    }
    var items := Iterate(value.value);
    if items.Err? {
      return Err(items.error);
    }
    var rows: seq<ScheduleRow> := [];
    var k := 0;
    while k < |items.value|
      invariant 0 <= k <= |items.value|
      invariant MapAll(items.value[..k], ScheduleRowOf) == Ok(rows)
    {
      MapAllSnoc(items.value, k, ScheduleRowOf);
      var row := ScheduleRowOf(items.value[k]);
      if row.Err? {
        return Err(row.error);
      }
      rows := rows + [row.value];
      k := k + 1;
    }
    assert items.value[..k] == items.value;
    return Ok(rows);
  }

  /** get_item_schedule: the single record shaped into one row. */
  function GetItemSchedule(body: Value): Result<seq<ScheduleRow>, Error> {
    var row :- ScheduleRowOf(body);
    Ok([row])
  }

  /** A schedule whose configuration has no `times` shows `Times` as the text "null". */
  lemma MissingTimesShowsNull(fs: seq<Field>, c: seq<Field>)
    requires Lookup(fs, "configuration") == Some(Obj(c))
    requires Lookup(fs, "owner") == None
    requires Lookup(c, "times") == None
    ensures ScheduleRowOf(Obj(fs)).Ok? && ScheduleRowOf(Obj(fs)).value.times == Str("null")
  {
  }

  /** A record with an object configuration and no owner, or an object owner, is shaped without error. */
  lemma ScheduleRowOfRecord(fs: seq<Field>, c: seq<Field>)
    requires Lookup(fs, "configuration") == Some(Obj(c))
    requires Lookup(fs, "owner").None? || Lookup(fs, "owner").value.Obj?
    ensures var r := ScheduleRowOf(Obj(fs));
      && r.Ok?
      && r.value.jobScheduleId == Cell(fs, "id") && r.value.enabled == Cell(fs, "enabled")
      && r.value.startDateTime == Cell(c, "startDateTime") && r.value.endDateTime == Cell(c, "endDateTime")
      && r.value.localTimeZoneId == Cell(c, "localTimeZoneId") && r.value.configType == Cell(c, "type")
      && r.value.interval == Cell(c, "interval") && r.value.weekdays == Cell(c, "weekdays")
      && r.value.times == Str(Dumps(Cell(c, "times")))
      && r.value.createdDateTime == Cell(fs, "createdDateTime")
      && (var o := if Lookup(fs, "owner").None? then [] else Lookup(fs, "owner").value.fields;
          r.value.ownerId == Cell(o, "id") && r.value.ownerType == Cell(o, "type"))
  {
  }

  /**
   * get_item_schedule shapes its single record exactly as list_item_schedules
   * shapes a listing holding only that record.
   */
  lemma GetItemScheduleAsListing(v: Value)
    ensures GetItemSchedule(v) == ScheduleTable(Obj([Field("value", Arr([v]))]))
  {
    assert Lookup([Field("value", Arr([v]))], "value") == Some(Arr([v]));
    MapAllSingle(v, ScheduleRowOf);
  }

  /**
   * When the service echoes the configuration it was sent, the row read back
   * shows the caller's type, start, end and time zone, and the variant's own
   * fields: the interval for cron, the stringified times for daily, the times
   * and weekdays for weekly.
   */
  lemma ScheduleEchoRoundTrip(a: ScheduleArgs, configType: string, record: seq<Field>)
    requires Lookup(record, "configuration") == Some(Obj(Configuration(SchedulePayload(a, configType))))
    requires Lookup(record, "owner").None? || Lookup(record, "owner").value.Obj?
    ensures var r := ScheduleRowOf(Obj(record));
      var kind := Lower(configType);
      && r.Ok?
      && r.value.configType == Str(configType)
      && r.value.startDateTime == OfString(a.startDateTime)
      && r.value.endDateTime == OfString(a.endDateTime)
      && r.value.localTimeZoneId == OfString(a.localTimeZoneId)
      && r.value.interval == (if kind == "cron" then OfInt(a.interval) else Null)
      && r.value.times == Str(Dumps(if kind == "daily" then Str(PyStr(a.times))
                                    else if kind == "weekly" then a.times else Null))
      && r.value.weekdays == (if kind == "weekly" then a.weekdays else Null)
  {
    var c := Configuration(SchedulePayload(a, configType));
    PayloadBase(a, configType);
    PayloadVariant(a, configType);
    ScheduleRowOfRecord(record, c);
  }
}
