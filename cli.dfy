/** ssm_acquire/cli.py: the `main` command. With any of the acquire, interrogate, build or analyze
    flags it scopes the policy, obtains credentials and creates the SSM client; then it runs the
    analysis, the acquisition (followed by the transfer), the profile build and the interrogation,
    in that order, each only when its flag is given. */
module Cli {
  import opened Wrappers
  import opened Strings
  import opened Environment
  import opened Common
  import opened Credential
  import opened Analyze

  /** The command-line flags. `deploy` is accepted and has no effect. */
  datatype Flags = Flags(build: bool, acquire: bool, interrogate: bool, analyze: bool, deploy: bool)

  /** What `main` reads besides its flags: the configuration, the `--region` and `--instance_id`
      options, the policy template, and the command plans. The acquire plan is a fixed file; the
      transfer, build and interrogate plans are rendered from the credentials and the instance id. */
  datatype Context = Context(
    config: Config,
    region: string,
    instanceId: string,
    policyTemplate: seq<Statement>,
    acquirePlan: seq<string>,
    transferPlan: (Credentials, string) -> seq<string>,
    buildPlan: (Credentials, string) -> seq<string>,
    interrogatePlan: (Credentials, string) -> seq<string>)

  /** Whether `main` sets up credentials at all. */
  predicate NeedsCredentials(flags: Flags) {
    flags.acquire || flags.interrogate || flags.build || flags.analyze
  }

  // ---------------------------------------------------------------------------------------------
  // Waiting for a command (`status = check_status(...)` then `while not status`)

  /** `not status` is false: `check_status` answered a status that is not in flight, and not the
      empty string either. */
  predicate Terminal(status: Option<string>) {
    status.Some? && status.value != ""
  }

  /** The first check and the polling loop: check until the answer is terminal. A rejected poll
      ends the wait with its exception. */
  function AwaitStep(w: World, commandId: string, instanceId: string): Step<string>
    decreases |w.polls|
  {
    var s := CheckStep(w, commandId, instanceId);
    if s.result.Err? then Step(Err(s.result.error), s.world, s.events)
    else if Terminal(s.result.value) then Step(Ok(s.result.value.value), s.world, s.events)
    else
      var rest := AwaitStep(s.world, commandId, instanceId);
      Step(rest.result, rest.world, s.events + rest.events)
  }

  /** Whether a reply to `get_command_invocation` ends the wait. */
  predicate Stops(reply: PollReply) {
    reply.PollDenied? || Terminal(StatusResult(reply.status))
  }

  /** The position of the first reply that ends the wait, or the number of replies if none does. */
  function FirstStop(polls: seq<PollReply>): (n: nat)
    ensures n <= |polls|
    ensures forall k :: 0 <= k < n ==> !Stops(polls[k])
    ensures n < |polls| ==> Stops(polls[n])
  {
    if polls == [] then 0
    else if Stops(polls[0]) then 0
    else
      var n := 1 + FirstStop(polls[1..]);
      assert forall k :: 1 <= k < n ==> polls[k] == polls[1..][k - 1];
      n
  }

  function PollEvents(commandId: string, instanceId: string, n: nat): (events: seq<Event>)
    ensures |events| == n
  {
    seq(n, _ => InvocationPolled(commandId, instanceId))
  }

  /** The wait polls up to and including the first reply that ends it (one poll more, unanswered,
      when none does), consumes exactly those replies, and ends with that reply: its status, the
      ClientError of a rejected poll, or no reply at all. In-flight and empty statuses never end it. */
  lemma {:induction false} AwaitPolls(w: World, commandId: string, instanceId: string)
    ensures var s := AwaitStep(w, commandId, instanceId);
            var n := FirstStop(w.polls);
            && s.events == PollEvents(commandId, instanceId, n + 1)
            && s.world == w.(polls := if n < |w.polls| then w.polls[n + 1..] else [])
            && s.result == (if n == |w.polls| then Err(NoReply)
                            else if w.polls[n].PollDenied? then Err(ClientError)
                            else Ok(w.polls[n].status))
            && (s.result.Ok? ==> Terminal(StatusResult(s.result.value)))
    decreases |w.polls|
  {
    var s := AwaitStep(w, commandId, instanceId);
    var n := FirstStop(w.polls);
    if w.polls != [] && !Stops(w.polls[0]) {
      var w1 := w.(polls := w.polls[1..]);
      AwaitPolls(w1, commandId, instanceId);
      assert FirstStop(w1.polls) == n - 1;
      if n < |w.polls| {
        assert w.polls[1..][n - 1] == w.polls[n];
        assert w.polls[1..][n..] == w.polls[n + 1..];
      }
      assert PollEvents(commandId, instanceId, n + 1) == [InvocationPolled(commandId, instanceId)] + PollEvents(commandId, instanceId, n);
    }
  }

  /** What the wait still has to do once `check_status` answered `status`. */
  function AwaitFrom(w: World, status: Option<string>, commandId: string, instanceId: string): Step<string> {
    if Terminal(status) then Step(Ok(status.value), w, []) else AwaitStep(w, commandId, instanceId)
  }

  method AwaitStatus(env: Env, commandId: string, instanceId: string) returns (r: Result<string, Fault>)
    modifies env
    ensures env.Performed(AwaitStep(old(env.w), commandId, instanceId), r)
  {
    ghost var whole := AwaitStep(env.w, commandId, instanceId);
    ghost var start := env.trace;
    var status := CheckStatus(env, commandId, instanceId);
    if status.Err? {
      return Err(status.error);
    }
    while !Terminal(status.value)
      invariant status.Ok?
      invariant var rest := AwaitFrom(env.w, status.value, commandId, instanceId);
                whole.result == rest.result && whole.world == rest.world && start + whole.events == env.trace + rest.events
      decreases |env.w.polls|
    {
      status := CheckStatus(env, commandId, instanceId);
      if status.Err? {
        return Err(status.error);
      }
    }
    r := Ok(status.value.value);
  }

  // ---------------------------------------------------------------------------------------------
  // One command plan: `run_command`, then the wait

  function PlanStep(w: World, commands: seq<string>, instanceId: string): Step<string> {
    var d := RunCommandStep(w, commands, instanceId);
    if d.result.Err? then Step(Err(d.result.error), d.world, d.events)
    else
      var a := AwaitStep(d.world, d.result.value, instanceId);
      Step(a.result, a.world, d.events + a.events)
  }

  method RunPlan(env: Env, commands: seq<string>, instanceId: string) returns (r: Result<string, Fault>)
    modifies env
    ensures env.Performed(PlanStep(old(env.w), commands, instanceId), r)
  {
    var response := RunCommand(env, commands, instanceId);
    if response.Err? {
      return Err(response.error);
    }
    r := AwaitStatus(env, response.value, instanceId);
  }

  predicate IsDispatch(e: Event) { e.CommandSent? }

  /** The dispatch of `commands` to this instance alone. */
  function Dispatch(commands: seq<string>, instanceId: string): Event {
    CommandSent([instanceId], RunShellScript, RunComment(instanceId), commands)
  }

  /** A plan is dispatched once, first, to this instance, with these commands; everything after
      is a poll of that command; only remote-command calls are made. */
  lemma PlanEvents(w: World, commands: seq<string>, instanceId: string)
    ensures var p := PlanStep(w, commands, instanceId);
            && |p.events| >= 1 && p.events[0] == Dispatch(commands, instanceId)
            && Filter(p.events, IsDispatch) == [Dispatch(commands, instanceId)]
            && (forall e :: e in p.events ==> IsSsmCall(e))
  {
    var d := RunCommandStep(w, commands, instanceId);
    if d.result.Ok? {
      var a := AwaitStep(d.world, d.result.value, instanceId);
      AwaitPolls(d.world, d.result.value, instanceId);
      NoneKept(a.events, IsDispatch);
      FilterConcat(d.events, a.events, IsDispatch);
    }
  }

  /** Nothing is kept of events none of which satisfies `keep`. */
  lemma NoneKept(events: seq<Event>, keep: Event -> bool)
    requires forall e :: e in events ==> !keep(e)
    ensures Filter(events, keep) == []
  {
  }
  // ---------------------------------------------------------------------------------------------
  // Setup: policy, credentials, SSM client

  /** `get_limited_policy`, then `StsManager(...).auth()` with that policy, then the SSM client
      built from the credentials. Nothing here is caught: a failure ends `main`. */
  function SetupStep(w: World, ctx: Context): Step<Credentials> {
    var policy := LimitedPolicy(ctx.config, ctx.region, ctx.instanceId, ctx.policyTemplate);
    if policy.Err? then Step(Err(policy.error), w, [])
    else
      var a := AuthStep(w, ctx.config, policy.value);
      if a.result.Err? then Step(Err(a.result.error), a.world, a.events)
      else Step(a.result, a.world, a.events + [SsmClientCreated(a.result.value)])
  }

  method Setup(env: Env, ctx: Context) returns (r: Result<Credentials, Fault>)
    modifies env
    ensures env.Performed(SetupStep(old(env.w), ctx), r)
  {
    var limitedScopePolicy := GetLimitedPolicy(ctx.config, ctx.region, ctx.instanceId, ctx.policyTemplate);
    if limitedScopePolicy.Err? {
      return Err(limitedScopePolicy.error);
    }
    var stsManager := new StsManager(ctx.region, limitedScopePolicy.value, ctx.config);
    var credentials := stsManager.Auth(env);
    if credentials.Err? {
      return Err(credentials.error);
    }
    env.CreateSsmClient(credentials.value);
    r := credentials;
  }

  /** Setup prompts, asks STS for credentials at most once, and creates the SSM client only once it
      has them; it makes no remote-command, storage or Docker call. */
  lemma SetupEvents(w: World, ctx: Context)
    ensures var s := SetupStep(w, ctx);
            && |Filter(s.events, IsStsCall)| <= 1
            && (forall e :: e in s.events ==> e.Prompted? || IsStsCall(e) || e.SsmClientCreated?)
            && (s.result.Ok? ==> s.events[|s.events| - 1] == SsmClientCreated(s.result.value))
  {
    var policy := LimitedPolicy(ctx.config, ctx.region, ctx.instanceId, ctx.policyTemplate);
    if policy.Ok? {
      var a := AuthStep(w, ctx.config, policy.value);
      AuthCallsOnePrimitive(w, ctx.config, policy.value);
      if a.result.Ok? {
        FilterConcat(a.events, [SsmClientCreated(a.result.value)], IsStsCall);
      }
    }
  }

  // ---------------------------------------------------------------------------------------------
  // The modes

  /** `--analyze`: `RekallManager(...)` reads `asset_bucket` (no default) before connecting to
      Docker; then `download_incident_data` and `run_rekall_plugins`. */
  function AnalysisStep(w: World, ctx: Context, credentials: Credentials): Step<()> {
    if ctx.config.assetBucket.None? then Step(Err(ConfigurationMissing("asset_bucket")), w, [])
    else
      var b := AnalyzeBucketStep(w, ctx.instanceId, credentials, ctx.config.assetBucket.value, ctx.config);
      Step(b.result, b.world, [DockerConnected] + b.events)
  }

  /** `download_incident_data`, then `run_rekall_plugins`, once the bucket is known and Docker
      connected. */
  function AnalyzeBucketStep(w: World, instanceId: string, credentials: Credentials, bucket: string, config: Config)
    : Step<()>
  {
    var d := DownloadStep(w, instanceId, credentials, bucket);
    if d.result.Err? then Step(Err(d.result.error), d.world, d.events)
    else
      var p := PluginsStep(d.world, instanceId, credentials, bucket, config);
      Step(if p.result.Err? then Err(p.result.error) else Ok(()), p.world, d.events + p.events)
  }

  method RunAnalysis(env: Env, ctx: Context, credentials: Credentials) returns (r: Result<(), Fault>)
    modifies env
    ensures env.Performed(AnalysisStep(old(env.w), ctx, credentials), r)
  {
    if ctx.config.assetBucket.None? {
      AppendEmpty(env.trace);
      return Err(ConfigurationMissing("asset_bucket"));
    }
    ghost var t0 := env.trace;
    var bucket := ctx.config.assetBucket.value;
    var analyzer := new RekallManager(env, ctx.instanceId, credentials, bucket, ctx.config);
    ghost var d := DownloadStep(env.w, ctx.instanceId, credentials, bucket);
    var downloaded := analyzer.DownloadIncidentData(env);
    AppendAssoc(t0, [DockerConnected], d.events);
    if downloaded.Err? {
      return Err(downloaded.error);
    }
    ghost var p := PluginsStep(env.w, ctx.instanceId, credentials, bucket, ctx.config);
    var logs := analyzer.RunRekallPlugins(env);
    AppendAssoc(t0 + [DockerConnected], d.events, p.events);
    AppendAssoc(t0, [DockerConnected], d.events + p.events);
    r := if logs.Err? then Err(logs.error) else Ok(());
  }

  /** The analysis only talks to Docker, object storage and the local file system. */
  lemma AnalysisEvents(w: World, ctx: Context, credentials: Credentials)
    ensures forall e :: e in AnalysisStep(w, ctx, credentials).events ==> IsAnalysisEvent(e)
  {
    if ctx.config.assetBucket.Some? {
      var bucket := ctx.config.assetBucket.value;
      var d := DownloadStep(w, ctx.instanceId, credentials, bucket);
      DownloadEventKinds(w, ctx.instanceId, credentials, bucket);
      PluginsEventKinds(d.world, ctx.instanceId, credentials, bucket, ctx.config);
    }
  }

  /** A first analysis of an instance whose id names a directory directly under an existing `/tmp`,
      with no working area yet, a bucket that can be listed and a
      `<instance id>/<name>.zip` object in it: the download fills the working area, so the profile is found there,
      the conversion container is started on a `.zip` file downloaded from the instance's objects,
      and the analysis completes. */
  lemma FirstAnalysisRuns(w: World, instanceId: string, credentials: Credentials, bucket: string, config: Config,
                          name: string)
    requires TempDir(instanceId) !in w.dirs && TempDir(instanceId) !in w.files && !w.listingDenied
    requires "/tmp" in w.dirs && '/' !in instanceId
    requires '/' !in name && EndsWith(name, ".zip") && Body(w.objects, instanceId + "/" + name).Some?
    ensures var s := AnalyzeBucketStep(w, instanceId, credentials, bucket, config);
            && s.result == Ok(())
            && exists zip :: && EndsWith(zip, ".zip") && instanceId + "/" + zip in Listing(w.objects, instanceId)
                             && ContainerStarted(w.nextContainer, DockerImage, ConvertCommand(zip), FilesVolume(instanceId))
                                in s.events
  {
    FirstDownloadFindsProfile(w, instanceId, credentials, bucket, name);
    var d := DownloadStep(w, instanceId, credentials, bucket);
    var zip := ProfileName(d.world, instanceId).value.value;
    var p := PluginsStep(d.world, instanceId, credentials, bucket, config);
    var e := PluginEvents(w.nextContainer, zip, instanceId, credentials, bucket);
    PluginEventsInOrder(w.nextContainer, zip, instanceId, credentials, bucket);
    assert p.result.Ok? && p.events[..|e|] == e;
    assert p.events[0] == ContainerStarted(w.nextContainer, DockerImage, ConvertCommand(zip), FilesVolume(instanceId));
    var s := AnalyzeBucketStep(w, instanceId, credentials, bucket, config);
    assert s.events[|d.events|] == p.events[0];
  }

  /** The download half of a first analysis: it succeeds without starting a container, and the
      profile lookup then finds a `.zip` name that some `<instance id>/<name>` object supplied. */
  lemma FirstDownloadFindsProfile(w: World, instanceId: string, credentials: Credentials, bucket: string, name: string)
    requires TempDir(instanceId) !in w.dirs && TempDir(instanceId) !in w.files && !w.listingDenied
    requires "/tmp" in w.dirs && '/' !in instanceId
    requires '/' !in name && EndsWith(name, ".zip") && Body(w.objects, instanceId + "/" + name).Some?
    ensures var d := DownloadStep(w, instanceId, credentials, bucket);
            var profile := ProfileName(d.world, instanceId);
            && d.result == Ok(None) && d.world.nextContainer == w.nextContainer
            && profile.Ok? && profile.value.Some?
            && EndsWith(profile.value.value, ".zip")
            && instanceId + "/" + profile.value.value in Listing(w.objects, instanceId)
  {
    var dir := TempDir(instanceId);
    var key := instanceId + "/" + name;
    var keys := Listing(w.objects, instanceId);
    assert dir == "/tmp" + "/" + instanceId;
    ParentAndNameOf("/tmp", instanceId);
    assert key[..|instanceId|] == instanceId;
    BodyStored(w.objects, key);
    assert key in keys;
    var d := DownloadStep(w, instanceId, credentials, bucket);
    DownloadOutcome(w, instanceId, credentials, bucket);
    DownloadListing(w, instanceId, credentials, bucket);
    assert d.result == Ok(None) && d.world.nextContainer == w.nextContainer;
    var listing := d.world.dirs[dir];
    assert name in listing;
    var profile := FirstZip(listing);
    assert profile.Some?;
    var zip := profile.value;
    assert zip in listing;
    assert ProfileName(d.world, instanceId) == Ok(profile);
  }

  /** The `except ClientError` around the acquisition: a rejected request ends the mode quietly. */
  function Caught<T>(s: Step<T>): Step<()> {
    if s.result.Err? && s.result.error != ClientError then Step(Err(s.result.error), s.world, s.events)
    else Step(Ok(()), s.world, s.events)
  }

  /** `--acquire`: the acquire plan, then its wait; the status found is overwritten with "Success",
      so the transfer plan (rendered from the credentials) is dispatched and waited on whatever the
      acquisition reported. */
  function AcquireStep(w: World, ctx: Context, credentials: Credentials): Step<()> {
    var a := PlanStep(w, ctx.acquirePlan, ctx.instanceId);
    if a.result.Err? then Caught(a)
    else
      var t := PlanStep(a.world, ctx.transferPlan(credentials, ctx.instanceId), ctx.instanceId);
      Caught(Step(t.result, t.world, a.events + t.events))
  }

  method RunAcquisition(env: Env, ctx: Context, credentials: Credentials) returns (r: Result<(), Fault>)
    modifies env
    ensures env.Performed(AcquireStep(old(env.w), ctx, credentials), r)
  {
    var status := RunPlan(env, ctx.acquirePlan, ctx.instanceId);
    if status.Err? {
      return if status.error == ClientError then Ok(()) else Err(status.error);
    }
    status := Ok("Success");
    if status.value == "Success" {
      var transferPlan := ctx.transferPlan(credentials, ctx.instanceId);
      var transferred := RunPlan(env, transferPlan, ctx.instanceId);
      if transferred.Err? {
        return if transferred.error == ClientError then Ok(()) else Err(transferred.error);
      }
    }
    r := Ok(());
  }

  /** `--build` and `--interrogate`: a plan and its wait, outside any `try`; whether the final
      status is "Success" decides only which message is logged. */
  function ReportStep(w: World, commands: seq<string>, instanceId: string): Step<bool> {
    var p := PlanStep(w, commands, instanceId);
    Step(if p.result.Err? then Err(p.result.error) else Ok(p.result.value == "Success"), p.world, p.events)
  }

  method RunReport(env: Env, commands: seq<string>, instanceId: string) returns (r: Result<bool, Fault>)
    modifies env
    ensures env.Performed(ReportStep(old(env.w), commands, instanceId), r)
  {
    var status := RunPlan(env, commands, instanceId);
    if status.Err? {
      return Err(status.error);
    }
    r := Ok(status.value == "Success");
  }
  /** The result of a mode, without its value. */
  function Unit<T>(s: Step<T>): Step<()> {
    Step(if s.result.Err? then Err(s.result.error) else Ok(()), s.world, s.events)
  }

  // ---------------------------------------------------------------------------------------------
  // `main`

  /** A mode run only under its flag. */
  function AcquireIf(enabled: bool, w: World, ctx: Context, credentials: Credentials): Step<()> {
    if enabled then AcquireStep(w, ctx, credentials) else Step(Ok(()), w, [])
  }

  function ReportIf(enabled: bool, w: World, commands: seq<string>, instanceId: string): Step<()> {
    if enabled then Unit(ReportStep(w, commands, instanceId)) else Step(Ok(()), w, [])
  }

  /** The modes that run remote commands, in the order `main` tests their flags: acquire (with
      the transfer), build, interrogate; then `return 0`. */
  function CommandsStep(w: World, ctx: Context, flags: Flags, credentials: Credentials): Step<int> {
    var id := ctx.instanceId;
    var a := AcquireIf(flags.acquire, w, ctx, credentials);
    if a.result.Err? then Step(Err(a.result.error), a.world, a.events)
    else
      var b := ReportIf(flags.build, a.world, ctx.buildPlan(credentials, id), id);
      if b.result.Err? then Step(Err(b.result.error), b.world, a.events + b.events)
      else
        var i := ReportIf(flags.interrogate, b.world, ctx.interrogatePlan(credentials, id), id);
        if i.result.Err? then Step(Err(i.result.error), i.world, a.events + b.events + i.events)
        else Step(Ok(0), i.world, a.events + b.events + i.events)
  }

  /** `main`: with none of the four flags nothing happens and 0 is returned; otherwise setup, then
      the analysis when asked for, then the command modes. An exception that escapes a mode ends
      the run with that exception. */
  function MainStep(w: World, ctx: Context, flags: Flags): Step<int> {
    if !NeedsCredentials(flags) then Step(Ok(0), w, [])
    else
      var s := SetupStep(w, ctx);
      if s.result.Err? then Step(Err(s.result.error), s.world, s.events)
      else
        var credentials := s.result.value;
        var a := if flags.analyze then AnalysisStep(s.world, ctx, credentials) else Step(Ok(()), s.world, []);
        if a.result.Err? then Step(Err(a.result.error), a.world, s.events + a.events)
        else
          var c := CommandsStep(a.world, ctx, flags, credentials);
          Step(c.result, c.world, s.events + a.events + c.events)
  }

  /** `main`: the flag-guarded blocks in source order; `deploy` is never read. */
  method RunMain(env: Env, ctx: Context, flags: Flags) returns (r: Result<int, Fault>)
    modifies env
    ensures env.Performed(MainStep(old(env.w), ctx, flags), r)
  {
    ghost var t0 := env.trace;
    if !NeedsCredentials(flags) {
      // every block below needs one of these flags
      AppendEmpty(t0);
      return Ok(0);
    }
    ghost var s := SetupStep(env.w, ctx);
    var credentials := Setup(env, ctx);
    if credentials.Err? {
      return Err(credentials.error);
    }
    ghost var a := if flags.analyze then AnalysisStep(s.world, ctx, credentials.value) else Step(Ok(()), s.world, []);
    if flags.analyze {
      var analyzed := RunAnalysis(env, ctx, credentials.value);
      AppendAssoc(t0, s.events, a.events);
      if analyzed.Err? {
        return Err(analyzed.error);
      }
    } else {
      AppendEmpty(s.events);
    }
    ghost var c := CommandsStep(a.world, ctx, flags, credentials.value);
    r := RunCommands(env, ctx, flags, credentials.value);
    AppendAssoc(t0, s.events + a.events, c.events);
  }

  /** The acquire, build and interrogate blocks of `main`, and its `return 0`. */
  method RunCommands(env: Env, ctx: Context, flags: Flags, credentials: Credentials) returns (r: Result<int, Fault>)
    modifies env
    ensures env.Performed(CommandsStep(old(env.w), ctx, flags, credentials), r)
  {
    var id := ctx.instanceId;
    ghost var w0, t0 := env.w, env.trace;
    ghost var a := AcquireIf(flags.acquire, w0, ctx, credentials);
    if flags.acquire {
      var acquired := RunAcquisition(env, ctx, credentials);
      if acquired.Err? {
        return Err(acquired.error);
      }
    } else {
      AppendEmpty(t0);
    }
    ghost var b := ReportIf(flags.build, a.world, ctx.buildPlan(credentials, id), id);
    if flags.build {
      var built := RunReport(env, ctx.buildPlan(credentials, id), id);
      AppendAssoc(t0, a.events, b.events);
      if built.Err? {
        return Err(built.error);
      }
    } else {
      AppendEmpty(a.events);
    }
    ghost var i := ReportIf(flags.interrogate, b.world, ctx.interrogatePlan(credentials, id), id);
    if flags.interrogate {
      var interrogated := RunReport(env, ctx.interrogatePlan(credentials, id), id);
      AppendAssoc(t0, a.events + b.events, i.events);
      if interrogated.Err? {
        return Err(interrogated.error);
      }
    } else {
      AppendEmpty(a.events + b.events);
    }
    r := Ok(0);
  }
  // ---------------------------------------------------------------------------------------------
  // Properties of the modes

  /** How a plan ends, read off the replies: it succeeds exactly when the dispatch is accepted and
      some poll reports a status that ends the wait, and then answers that status; a dispatch that
      is rejected or never answered ends it at once. */
  lemma PlanOutcome(w: World, commands: seq<string>, instanceId: string)
    ensures var p := PlanStep(w, commands, instanceId);
            var n := FirstStop(w.polls);
            && (p.result.Ok? <==> w.dispatches != [] && w.dispatches[0].Accepted? && n < |w.polls| && w.polls[n].Reported?)
            && (p.result.Ok? ==> p.result.value == w.polls[n].status && Terminal(StatusResult(p.result.value)))
            && (w.dispatches == [] ==> p.result == Err(NoReply) && p.events == [Dispatch(commands, instanceId)])
            && (w.dispatches != [] && w.dispatches[0].DispatchDenied? ==>
                  p.result == Err(ClientError) && p.events == [Dispatch(commands, instanceId)])
  {
    var d := RunCommandStep(w, commands, instanceId);
    if d.result.Ok? {
      AwaitPolls(d.world, d.result.value, instanceId);
    }
  }

  /** `--build` and `--interrogate` report success exactly when the status that ends the wait is
      "Success"; any other final status is a reported failure, not an exception. */
  lemma ReportOutcome(w: World, commands: seq<string>, instanceId: string)
    ensures var r := ReportStep(w, commands, instanceId);
            var n := FirstStop(w.polls);
            var accepted := w.dispatches != [] && w.dispatches[0].Accepted?;
            && (r.result == Ok(true) <==> accepted && n < |w.polls| && w.polls[n] == Reported("Success"))
            && (r.result == Ok(false) <==> accepted && n < |w.polls| && w.polls[n].Reported? && w.polls[n].status != "Success")
            && Filter(r.events, IsDispatch) == [Dispatch(commands, instanceId)]
  {
    PlanOutcome(w, commands, instanceId);
    PlanEvents(w, commands, instanceId);
  }

  /** `--acquire`: the acquire plan is dispatched first; the transfer plan is dispatched after it
      exactly when the acquisition's wait ended with an answered status, whatever that status was;
      nothing else is dispatched; and a ClientError never escapes the mode. */
  lemma AcquireDispatches(w: World, ctx: Context, credentials: Credentials)
    ensures var a := PlanStep(w, ctx.acquirePlan, ctx.instanceId);
            var q := AcquireStep(w, ctx, credentials);
            && Filter(q.events, IsDispatch) ==
                 [Dispatch(ctx.acquirePlan, ctx.instanceId)]
                 + (if a.result.Ok? then [Dispatch(ctx.transferPlan(credentials, ctx.instanceId), ctx.instanceId)] else [])
            && (q.result.Err? ==> q.result.error != ClientError)
            && (a.result.Err? && a.result.error == ClientError ==> q.result == Ok(()))
            && (forall e :: e in q.events ==> IsSsmCall(e))
  {
    var a := PlanStep(w, ctx.acquirePlan, ctx.instanceId);
    PlanEvents(w, ctx.acquirePlan, ctx.instanceId);
    if a.result.Ok? {
      var transfer := ctx.transferPlan(credentials, ctx.instanceId);
      var t := PlanStep(a.world, transfer, ctx.instanceId);
      PlanEvents(a.world, transfer, ctx.instanceId);
      FilterConcat(a.events, t.events, IsDispatch);
    }
  }

  /** An optional plan mode dispatches its plan once when enabled and nothing otherwise, and makes
      only remote-command calls. */
  lemma ReportIfDispatches(enabled: bool, w: World, commands: seq<string>, instanceId: string)
    ensures var b := ReportIf(enabled, w, commands, instanceId);
            && Filter(b.events, IsDispatch) == (if enabled then [Dispatch(commands, instanceId)] else [])
            && (forall e :: e in b.events ==> IsSsmCall(e))
  {
    PlanEvents(w, commands, instanceId);
  }

  /** The remote-command modes make only remote-command calls. */
  lemma CommandEvents(w: World, ctx: Context, flags: Flags, credentials: Credentials)
    ensures forall e :: e in CommandsStep(w, ctx, flags, credentials).events ==> IsSsmCall(e)
  {
    var id := ctx.instanceId;
    var c := CommandsStep(w, ctx, flags, credentials);
    var a := AcquireIf(flags.acquire, w, ctx, credentials);
    AcquireDispatches(w, ctx, credentials);
    assert forall e :: e in a.events ==> IsSsmCall(e);
    if a.result.Ok? {
      var b := ReportIf(flags.build, a.world, ctx.buildPlan(credentials, id), id);
      ReportIfDispatches(flags.build, a.world, ctx.buildPlan(credentials, id), id);
      if b.result.Ok? {
        var i := ReportIf(flags.interrogate, b.world, ctx.interrogatePlan(credentials, id), id);
        ReportIfDispatches(flags.interrogate, b.world, ctx.interrogatePlan(credentials, id), id);
        assert c.events == a.events + b.events + i.events;
      } else {
        assert c.events == a.events + b.events;
      }
    }
  }

  /** When none of the remote-command modes fails, they dispatch the plans in the order acquire,
      transfer, build, interrogate, each at most once and each only under its flag, and `main`
      returns 0. */
  lemma CommandDispatches(w: World, ctx: Context, flags: Flags, credentials: Credentials)
    requires CommandsStep(w, ctx, flags, credentials).result.Ok?
    ensures var c := CommandsStep(w, ctx, flags, credentials);
            var id := ctx.instanceId;
            && c.result.value == 0
            && Filter(c.events, IsDispatch) ==
                 (if flags.acquire then [Dispatch(ctx.acquirePlan, id)] else [])
                 + (if flags.acquire && PlanStep(w, ctx.acquirePlan, id).result.Ok?
                    then [Dispatch(ctx.transferPlan(credentials, id), id)] else [])
                 + (if flags.build then [Dispatch(ctx.buildPlan(credentials, id), id)] else [])
                 + (if flags.interrogate then [Dispatch(ctx.interrogatePlan(credentials, id), id)] else [])
  {
    var id := ctx.instanceId;
    var c := CommandsStep(w, ctx, flags, credentials);
    var a := AcquireIf(flags.acquire, w, ctx, credentials);
    var b := ReportIf(flags.build, a.world, ctx.buildPlan(credentials, id), id);
    var i := ReportIf(flags.interrogate, b.world, ctx.interrogatePlan(credentials, id), id);
    assert a.result.Ok? && b.result.Ok? && i.result.Ok?;
    assert c.events == a.events + b.events + i.events;
    AcquireDispatches(w, ctx, credentials);
    assert Filter(a.events, IsDispatch) ==
      (if flags.acquire then [Dispatch(ctx.acquirePlan, id)] else [])
      + (if flags.acquire && PlanStep(w, ctx.acquirePlan, id).result.Ok? then [Dispatch(ctx.transferPlan(credentials, id), id)] else []);
    ReportIfDispatches(flags.build, a.world, ctx.buildPlan(credentials, id), id);
    ReportIfDispatches(flags.interrogate, b.world, ctx.interrogatePlan(credentials, id), id);
    FilterConcat(a.events, b.events, IsDispatch);
    FilterConcat(a.events + b.events, i.events, IsDispatch);
  }
  // ---------------------------------------------------------------------------------------------
  // Properties of `main`

  /** The calls setup makes: the MFA prompt, STS, and creating the SSM client. */
  predicate IsSetupEvent(e: Event) {
    e.Prompted? || IsStsCall(e) || e.SsmClientCreated?
  }

  /** Setup calls, then analysis calls, then remote commands. */
  function Phase(e: Event): nat {
    if IsSetupEvent(e) then 0 else if IsAnalysisEvent(e) then 1 else 2
  }

  predicate InPhaseOrder(events: seq<Event>) {
    forall i, j :: 0 <= i < j < |events| ==> Phase(events[i]) <= Phase(events[j])
  }

  lemma PhasesInOrder(s: seq<Event>, a: seq<Event>, c: seq<Event>)
    requires forall e :: e in s ==> IsSetupEvent(e)
    requires forall e :: e in a ==> IsAnalysisEvent(e)
    requires forall e :: e in c ==> IsSsmCall(e)
    ensures InPhaseOrder(s + a + c)
  {
    var x := s + a + c;
    forall i, j | 0 <= i < j < |x| ensures Phase(x[i]) <= Phase(x[j]) {
      assert x[i] in s || x[i] in a || x[i] in c;
      assert x[j] in s || x[j] in a || x[j] in c;
      if i < |s| {
        assert x[i] == s[i];
      } else if i < |s| + |a| {
        assert x[i] == a[i - |s|];
        assert j >= |s| && (j < |s| + |a| ==> x[j] == a[j - |s|]) && (j >= |s| + |a| ==> x[j] == c[j - |s| - |a|]);
      } else {
        assert x[i] == c[i - |s| - |a|] && x[j] == c[j - |s| - |a|];
      }
    }
  }

  /** Any concatenation of setup calls (at most one of them to STS), analysis calls and remote
      commands is in phase order and requests credentials at most once. */
  lemma SequencedRun(s: seq<Event>, a: seq<Event>, c: seq<Event>)
    requires forall e :: e in s ==> IsSetupEvent(e)
    requires forall e :: e in a ==> IsAnalysisEvent(e)
    requires forall e :: e in c ==> IsSsmCall(e)
    requires |Filter(s, IsStsCall)| <= 1
    ensures forall e :: e in s + a + c ==> IsSetupEvent(e) || IsAnalysisEvent(e) || IsSsmCall(e)
    ensures InPhaseOrder(s + a + c)
    ensures |Filter(s + a + c, IsStsCall)| <= 1
    ensures a == [] ==> forall e :: e in s + a + c ==> !IsAnalysisEvent(e)
  {
    PhasesInOrder(s, a, c);
    NoneKept(a, IsStsCall);
    NoneKept(c, IsStsCall);
    FilterConcat(s, a, IsStsCall);
    FilterConcat(s + a, c, IsStsCall);
    if a == [] {
      AppendEmpty(s);
      NoAnalysisCalls(s, c);
    }
  }

  /** Setup calls and remote commands are not analysis calls. */
  lemma NoAnalysisCalls(s: seq<Event>, c: seq<Event>)
    requires forall e :: e in s ==> IsSetupEvent(e)
    requires forall e :: e in c ==> IsSsmCall(e)
    ensures forall e :: e in s + c ==> !IsAnalysisEvent(e)
  {
  }

  /** The events of `main` split into its setup, analysis and command phases, the analysis phase
      empty without `--analyze`. */
  lemma MainPhases(w: World, ctx: Context, flags: Flags) returns (s: seq<Event>, a: seq<Event>, c: seq<Event>)
    ensures MainStep(w, ctx, flags).events == s + a + c
    ensures forall e :: e in s ==> IsSetupEvent(e)
    ensures forall e :: e in a ==> IsAnalysisEvent(e)
    ensures forall e :: e in c ==> IsSsmCall(e)
    ensures |Filter(s, IsStsCall)| <= 1
    ensures !flags.analyze ==> a == []
  {
    if !NeedsCredentials(flags) {
      s, a, c := [], [], [];
      return;
    }
    var st := SetupStep(w, ctx);
    SetupEvents(w, ctx);
    s := st.events;
    if st.result.Err? {
      a, c := [], [];
      AppendEmpty(s);
      return;
    }
    var credentials := st.result.value;
    var an := if flags.analyze then AnalysisStep(st.world, ctx, credentials) else Step(Ok(()), st.world, []);
    AnalysisEvents(st.world, ctx, credentials);
    a := an.events;
    if an.result.Err? {
      c := [];
      AppendEmpty(s + a);
      return;
    }
    CommandEvents(an.world, ctx, flags, credentials);
    c := CommandsStep(an.world, ctx, flags, credentials).events;
  }

  /** `main` without any of the four flags does nothing and returns 0; a run that completes
      returns 0 as well. */
  lemma MainOutcome(w: World, ctx: Context, flags: Flags)
    ensures var m := MainStep(w, ctx, flags);
            && (!NeedsCredentials(flags) ==> m == Step(Ok(0), w, []))
            && (m.result.Ok? ==> m.result.value == 0)
  {
  }

  /** A run of `main`: every call is a setup, analysis or remote-command call, setup calls come
      first, then the analysis, then the remote commands; credentials are requested at most once;
      and no analysis call is made without `--analyze`. */
  lemma MainRun(w: World, ctx: Context, flags: Flags)
    ensures var m := MainStep(w, ctx, flags);
            && (forall e :: e in m.events ==> IsSetupEvent(e) || IsAnalysisEvent(e) || IsSsmCall(e))
            && InPhaseOrder(m.events)
            && |Filter(m.events, IsStsCall)| <= 1
            && (!flags.analyze ==> forall e :: e in m.events ==> !IsAnalysisEvent(e))
  {
    var s, a, c := MainPhases(w, ctx, flags);
    SequencedRun(s, a, c);
  }
}
