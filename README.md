# ssm-acquire, modelled in Dafny

ssm-acquire is a rapid evidence-preservation tool for Amazon EC2. Given an instance id it
scopes an IAM policy to that instance (`get_limited_policy`), obtains short-lived credentials
from STS by one of four paths (`StsManager.auth`), and then runs the modes named on its command
line, always in the same order:

1. `--analyze` downloads the instance's artifacts from the asset bucket and runs five rekall
   plugins, plus an optional yara scan, in Docker containers. It then uploads their outputs.
2. `--acquire` runs the memory-acquisition command plan on the instance through SSM, waits for
   it, then runs the transfer plan.
3. `--build` builds a rekall profile remotely.
4. `--interrogate` runs the osquery interrogation remotely.

The model is written in the source's own form:

- **Environment.** Every external system (STS, SSM, S3, Docker, the local file system, the
  terminal prompt) is one method of an `Env` object (module `Environment`). Its non-ghost
  `World` holds the answers the services will give, in order, and the local state. Each call
  appends what it did to a ghost `trace` of events.
- **Orchestrators.** Each orchestrating function of the source is an imperative method:
  `GetLimitedPolicy` over an array, `S3Manager` and `RekallManager` as classes with their
  fields, and the `while not status` loops of `main`. Each method's postcondition ties its
  result, its new world and the events it appended to a pure step function of the old world
  (`env.Performed(XStep(old(env.w), ...), r)`).
- **Properties.** What the source promises is stated and proved as lemmas about those step
  functions: orderings of events, counts, exact strings, the decision tables and the outcomes
  of each mode.

Modules, in dependency order:

- `Wrappers`: `Option` and `Result`.
- `Strings`: the Python string operations used, over `seq<char>`.
- `Environment`: the outside world.
- `Common`: common.py.
- `Credential`: credential.py.
- `Analyze`: analyze.py.
- `Cli`: cli.py.

Modelling conventions:

- A service that has no answer left yields the fault `NoReply`. The real call would block, or
  its loop would poll for ever.
- Python exceptions are the `Fault` values, e.g. `ClientError`, `IndexError`, `KeyError("Sid")`,
  the `TypeError`s `MissingArgument` and `NotIterable`, and `NoneHasNoSplit` for `None.split`.
  Apart from `create_instance_directory`'s `FileExistsError`, which leaves everything as it was,
  only `main`'s acquire block catches one (`ClientError`); everything else propagates and ends
  the run.
- The configuration is an explicit record (`Config`); an unset option is `None`.
- The command plans are given to `main` in a `Context`. The acquire plan is a fixed list. The
  transfer, build and interrogate plans are functions of the credentials and the instance id,
  as the templates are rendered from them.

Behaviours of the code worth knowing, which the model keeps:

- The acquire status is overwritten with `'Success'` before the transfer is gated on it, so the
  transfer plan is dispatched even after an acquisition that ended `Failed`, `Cancelled` or
  `TimedOut`.
- `create_instance_directory` catches only FileExistsError. When `/tmp/<id>`'s parent does not
  exist (an id such as `a/b` without `/tmp/a`), `os.mkdir` raises FileNotFoundError and the
  download ends there, before the bucket is listed.
- An instance with no objects in the bucket makes `list_objects` return no `Contents`, so
  `get_files(None)` raises TypeError (`NotIterable`) instead of yielding nothing.
- `run_yara_scan` builds a command for every rule file but runs one container, after the loop,
  with the last rule file's command, not one container per rule file.
- Objects are written to `/tmp/` followed by the raw object key. The listing prefix is the bare
  instance id, so it also matches keys outside `<instance id>/`: `i-abc123.log` is written to
  `/tmp/i-abc123.log`, outside the working area, and `i-abc1234/x` names a directory that was
  never made. Only keys `<instance id>/<name>` appear in the working area's listing
  (`Analyze.DownloadListing`).
- The branch with neither MFA nor a role calls `get_session_token()` without its `client`
  argument. That raises TypeError before any request, so that branch never yields credentials.
- A status of `""` is falsy, so `while not status` keeps polling on an empty status string as on
  the four in-flight statuses.
- `get_limited_policy` finds each statement to patch with `list.index`, which returns the first
  EQUAL statement. The model proves the result is still the position-by-position rewrite for
  every template, with no precondition that statements be distinct. An earlier equal statement
  has already been rewritten, and the rewrite is idempotent on it.

## Model

| member | source | states |
|---|---|---|
| Strings.BeforeFirst | ssm_acquire/analyze.py:152 | `s.split(sep)[0]`: a prefix of `s` containing no occurrence of `sep`, followed in `s` by `sep` unless it is all of `s` |
| Strings.Split | ssm_acquire/analyze.py:60-61 | `s.split(d)` has at least one piece and no piece contains `d` |
| Environment.ParentAndName | ssm_acquire/analyze.py:53 | a path is its directory, `/`, and a name without `/`; a path without `/` has no directory |
| Environment.ParentAndNameOf | ssm_acquire/analyze.py:53 | a name without `/` written under a directory is found in that directory |
| Environment.EnteredListing | ssm_acquire/analyze.py:41-55 | creating an entry adds its name to its directory's listing and changes no other listing |
| Environment.BodyStored | ssm_acquire/analyze.py:50-52 | `get_object` finds a body only for an object the bucket holds under that key |
| Environment.Listing | ssm_acquire/analyze.py:31-37 | `list_objects` with a prefix lists only keys starting with that prefix, and every stored key starting with it |
| Common.GenerateArnForInstance | ssm_acquire/common.py:102-103 | the ARN is `arn:aws:ec2:*:*:instance/` followed by the instance id; the region is not used |
| Common.InstanceArnDeterminesId | ssm_acquire/common.py:102-103 | two instance ARNs are equal exactly when the instance ids are, whatever the regions |
| Common.Scope | ssm_acquire/common.py:111-126 | a statement keeps its Sid, its Actions and its number of Resources. An `s3:PutObject` statement gets the object and `/*` ARNs in Resource 0 and 1. An `ssm:Send*` statement gets the instance ARN in Resource 1, with Resource 0 untouched. A `STMT4` statement matching neither gets the bucket and bucket `/*` ARNs. Any other statement is unchanged. Rules are tried in that order. An empty Action list or a short Resource list raises IndexError, and a missing Sid raises KeyError |
| Common.ScopeIdempotent | ssm_acquire/common.py:111-126 | rewriting an already rewritten statement changes nothing |
| Common.ScopeAll | ssm_acquire/common.py:111-126 | the rewritten list has the same length and order, each position rewritten by itself; a failure is the exception of the first statement that cannot be rewritten |
| Common.ScopeAllFailsIff | ssm_acquire/common.py:111-126 | the rewrite of the list fails exactly when some statement cannot be rewritten |
| Common.IndexOf | ssm_acquire/common.py:115 | `list.index`: the first position holding an equal value |
| Common.GetLimitedPolicy | ssm_acquire/common.py:106-129 | the in-place patching loop over the loaded template, with `list.index` lookups, returns exactly the position-by-position rewrite, with no distinctness precondition; an unset `asset_bucket` raises before the loop |
| Common.NoEarlierFailure | ssm_acquire/common.py:111-126 | if statement `i` is the first that cannot be rewritten, the whole rewrite fails with its exception |
| Common.AllScoped | ssm_acquire/common.py:111-126 | if every statement rewrites to the matching entry of `out`, the rewrite yields `out` |
| Common.RunCommand | ssm_acquire/common.py:132-143 | one `send_command` to `[instance_id]` with `AWS-RunShellScript`, the fixed comment and the commands unchanged |
| Common.StatusResult | ssm_acquire/common.py:153-161 | no result exactly for Pending, InProgress, Delayed and Cancelling; any other status is returned unchanged |
| Common.CheckStatus | ssm_acquire/common.py:146-161 | one `get_command_invocation` for the command and instance, then the mapping above; a rejected call raises |
| Credential.ShouldMfa | ssm_acquire/credential.py:51-55 | true exactly when `mfa_serial_number` is set and differs from the string `'None'` |
| Credential.ShouldAssumeRole | ssm_acquire/credential.py:57-61 | true exactly when `ssm_acquire_role_arn` is set and differs from `'None'` |
| Credential.PathTable | ssm_acquire/credential.py:20-49 | each of the four combinations of the two tests selects its own branch of `auth` |
| Credential.StsManager.constructor | ssm_acquire/credential.py:14-17 | the manager keeps the region, an STS client for it and the scoped policy |
| Credential.StsManager.Auth | ssm_acquire/credential.py:19-49 | `auth` performs exactly the selected branch, and the neither-configured branch raises TypeError with no request |
| Credential.StsManager.GetSessionTokenWithMfa | ssm_acquire/credential.py:63-70 | prompt, then `get_session_token` with the configured duration, the serial and the typed code |
| Credential.StsManager.GetSessionToken | ssm_acquire/credential.py:72-76 | `get_session_token` with the configured duration only |
| Credential.StsManager.AssumeRole | ssm_acquire/credential.py:78-85 | `assume_role` with the role, `ssm-acquire`, 3600 and the scoped policy |
| Credential.StsManager.AssumeRoleWithMfa | ssm_acquire/credential.py:87-97 | prompt, then `assume_role` with the serial and the typed code as well |
| Credential.AuthCallsOnePrimitive | ssm_acquire/credential.py:19-49 | the neither branch makes no STS call and raises. Every other branch makes exactly one STS call, unless the prompt gets no answer. That call is `assume_role` exactly when a role is configured, and carries MFA exactly when a serial is configured. At most one STS call is ever made, and only prompts and STS calls happen |
| Credential.MfaPromptsOnceFirst | ssm_acquire/credential.py:63-97 | the MFA paths prompt exactly once, first, and send the typed code with the configured serial; the other paths never prompt |
| Credential.AuthRequestArguments | ssm_acquire/credential.py:63-97 | role requests carry the configured role, `ssm-acquire`, 3600 and the scoped policy; session-token requests carry the configured duration (default `'3600'`) and no policy |
| Analyze.PluginCommand | ssm_acquire/analyze.py:167-173 | the plugin command ends with `--output=/files/<plugin>-<id>-output.json` |
| Analyze.FetchEventsInOrder | ssm_acquire/analyze.py:47-55 | one `get_object` per key, each followed by the write of `/tmp/<key>`, in key order |
| Analyze.S3Manager.constructor | ssm_acquire/analyze.py:16-19 | credentials and bucket kept, no client yet |
| Analyze.S3Manager.Connect | ssm_acquire/analyze.py:21-29 | a client is created only when there is none; an existing one stays in place, with no event |
| Analyze.S3Manager.ListObjectsForKey | ssm_acquire/analyze.py:31-37 | connect, then one `list_objects` with the key as prefix; a rejected request raises ClientError; `Contents` absent when nothing matches |
| Analyze.S3Manager.CreateInstanceDirectory | ssm_acquire/analyze.py:39-43 | performs one `os.mkdir /tmp/<id>` with FileExistsError caught, leaving the result, world and trace the directory step gives |
| Analyze.CreateDirOutcome | ssm_acquire/analyze.py:39-43 | the `mkdir` fails exactly when neither `/tmp/<id>` nor its parent exists, then with FileNotFoundError and nothing changed; an existing entry is tolerated and left as it was; otherwise the new directory starts empty, files and objects untouched |
| Analyze.S3Manager.GetFiles | ssm_acquire/analyze.py:45-55 | connect, then the download loop: each key fetched and its body written to `/tmp/<key>`, which then shows in its directory's listing; a missing key stops the loop; iterating over no listing raises TypeError |
| Analyze.S3Manager.PutFile | ssm_acquire/analyze.py:58-63 | uploads to `<id>/<fourth '/'-piece of the path>`, or raises IndexError when the path has fewer pieces |
| Analyze.FirstZip | ssm_acquire/analyze.py:95-98 | None exactly when no entry ends in `.zip`; otherwise an entry ending in `.zip` |
| Analyze.FirstZipAt | ssm_acquire/analyze.py:95-98 | the answer is the first entry ending in `.zip` |
| Analyze.OutputKey | ssm_acquire/analyze.py:197-199 | the key the output of a plugin is uploaded under is what `put_file` computes for the line-198 path |
| Analyze.OutputPathPieces | ssm_acquire/analyze.py:198 | for ids and plugin names without `/`, the output path splits into `""`, `tmp`, the id and the file name |
| Analyze.UploadKeyOfOutput | ssm_acquire/analyze.py:58-63 | `put_file` on a line-198 path never raises IndexError, and the key is `<id>/<plugin>-<id>-output.json` when the names contain no `/` |
| Analyze.UploadKeys | ssm_acquire/analyze.py:195-199 | each of the five plugins' outputs is uploaded under `<id>/<plugin>-<id>-output.json` |
| Analyze.RekallManager.constructor | ssm_acquire/analyze.py:66-80 | keeps the instance, credentials, bucket and configuration, and connects to Docker |
| Analyze.RekallManager.DownloadIncidentData | ssm_acquire/analyze.py:82-93 | performs the skip-if-populated download, leaving the files and listings the download step gives; an error from `mkdir` ends it before the bucket is listed |
| Analyze.RekallManager.FetchAll | ssm_acquire/analyze.py:91-92 | with a storage manager not yet connected, performs the listing and the download, leaving what the fetch step gives |
| Analyze.RekallManager.GetRekallProfileName | ssm_acquire/analyze.py:95-98 | the first `.zip` entry of the working area; no working area raises |
| Analyze.RekallManager.RunAContainer | ssm_acquire/analyze.py:100-110 | one detached container run of the rekall image with the command and volumes |
| Analyze.RekallManager.BuildYaraCommand | ssm_acquire/analyze.py:119-129 | the loop leaves the command for the LAST rule file; no profile name raises `None.split` |
| Analyze.RekallManager.RunScanContainer | ssm_acquire/analyze.py:130-141 | the scan container is started with both volumes, waited on (600 s), its logs read, removed |
| Analyze.RekallManager.RunYaraScan | ssm_acquire/analyze.py:115-143 | performs the yara step: lookup, skip on a missing or empty rule directory, otherwise one container |
| Analyze.RekallManager.LaunchPlugins | ssm_acquire/analyze.py:164-183 | one container per plugin, in plugin order, with consecutive handles, pairing each plugin with its container |
| Analyze.RekallManager.ReapPlugins | ssm_acquire/analyze.py:185-193 | each container in turn waited on, its logs kept, removed; the logs in container order |
| Analyze.RekallManager.UploadOutputs | ssm_acquire/analyze.py:186-199 | a fresh storage client, then one upload per plugin output in plugin order |
| Analyze.RekallManager.ConvertProfile | ssm_acquire/analyze.py:149-160 | the conversion container gets the next handle and is run, stopped and removed, in that order |
| Analyze.RekallManager.ConvertAndRunPlugins | ssm_acquire/analyze.py:150-201 | the conversion container, then the launches, results and uploads, returning the plugin logs in plugin order |
| Analyze.RekallManager.RunRekallPlugins | ssm_acquire/analyze.py:145-204 | performs the whole plugin step, the yara scan included |
| Analyze.YaraAfterProfile | ssm_acquire/analyze.py:115-119 | once the plugin run found a profile name, the yara scan's own lookup finds it too, so the scan raises nothing |
| Analyze.ListedKeysStored | ssm_acquire/analyze.py:88-92 | every listed key is in the bucket, so the download never asks for a missing key |
| Analyze.FetchFirst | ssm_acquire/analyze.py:47-55 | one round of the loop: the first key is fetched and written, then the rest of the keys follow |
| Analyze.FetchStored | ssm_acquire/analyze.py:45-55 | downloading stored keys completes, with one fetch and one write per key, in order |
| Analyze.StoredFiles | ssm_acquire/analyze.py:53-55 | after the writes each key's body is at `/tmp/<key>`, every other file is unchanged, and only files and listings have changed |
| Analyze.StoredListing | ssm_acquire/analyze.py:53-55 | after the writes an existing directory lists what it did before plus the name of every downloaded file directly in it |
| Analyze.WorkingAreaEntry | ssm_acquire/analyze.py:53 | `/tmp/<key>` is directly in `/tmp/<id>` exactly when the key is `<id>/<name>` with no `/` in the name |
| Analyze.DownloadOutcome | ssm_acquire/analyze.py:82-93 | a populated working area is returned as listed with no call. A working area whose parent is missing raises FileNotFoundError at `mkdir`, before any storage call. Otherwise the directory is made and the bucket listed with the id as prefix. A rejected listing raises ClientError; no objects raises TypeError. Otherwise there is exactly one `get_object` per listed key, in order, each body is stored at `/tmp/<key>`, and the result is None; objects and container handles are untouched |
| Analyze.DownloadFetches | ssm_acquire/analyze.py:88-92 | a working area that exists or can be made and a listed bucket with keys for the instance: every key is in the bucket, fetched and stored, after the `mkdir`, in listing order |
| Analyze.FetchAllStored | ssm_acquire/analyze.py:91-92 | listing a bucket that has keys for the instance connects once, lists once, and fetches and stores every key in listing order |
| Analyze.DownloadListing | ssm_acquire/analyze.py:82-96 | after a download into an empty working area, or a new one whose parent exists, the area lists exactly the names of the keys `<id>/<name>`, which is what the profile lookup then searches |
| Analyze.PluginEventsInOrder | ssm_acquire/analyze.py:158-199 | the conversion container is run, stopped and removed first. Then the five plugin containers are launched, then each is waited on (600 s), has its logs read and is removed, in plugin order. Then one storage client, then one upload per plugin |
| Analyze.PluginRunOrder | ssm_acquire/analyze.py:145-204 | once a profile is found, the run succeeds, the logs are those of the five plugin containers in plugin order, and the yara scan's events follow |
| Analyze.LaunchesPrecedeWaits | ssm_acquire/analyze.py:164-193 | no plugin container is started after any container has been waited on |
| Analyze.EventPositions | ssm_acquire/analyze.py:158-193 | the plugin containers start at positions 3 to 7 and no wait comes before position 8 |
| Analyze.ReapKinds | ssm_acquire/analyze.py:188-193 | the result loop only waits on, reads and removes the plugin containers |
| Analyze.ReapCount | ssm_acquire/analyze.py:188-193 | each plugin container is waited on, has its logs read and is removed exactly once |
| Analyze.YaraHandles | ssm_acquire/analyze.py:130-136 | the yara scan starts no container other than the next fresh one |
| Analyze.YaraStartsAtMostOne | ssm_acquire/analyze.py:118-143 | zero containers when the rule directory is missing or empty, else exactly one, built from the last rule file listed |
| Analyze.OutputCrossesMount | ssm_acquire/analyze.py:167-198 | the path a plugin writes inside its container is the uploaded host path seen through the `/files` mount |
| Analyze.YaraVolumesCollapse | ssm_acquire/analyze.py:132-135 | the yara volume mapping has one entry when the rule directory is the working area and two otherwise |
| Analyze.FetchEventKinds | ssm_acquire/analyze.py:47-55 | the download loop only fetches objects and writes files |
| Analyze.DownloadEventKinds | ssm_acquire/analyze.py:82-93 | the download only talks to storage and the local file system |
| Analyze.PluginsEventKinds | ssm_acquire/analyze.py:145-204 | the plugin run only talks to Docker, storage and the local file system |
| Cli.FirstStop | ssm_acquire/cli.py:70 | the position of the first poll reply that ends the wait, no earlier reply ending it |
| Cli.AwaitPolls | ssm_acquire/cli.py:68-75 | the wait makes one poll per reply up to and including the first that ends it, consuming exactly those. It ends with that status, or with the ClientError of a rejected poll. In-flight and empty statuses never end it |
| Cli.AwaitStatus | ssm_acquire/cli.py:68-75 | the `while not status` loop performs exactly the wait above |
| Cli.RunPlan | ssm_acquire/cli.py:66-75 | `run_command`, then the wait for that command |
| Cli.PlanEvents | ssm_acquire/cli.py:66-75 | a plan is dispatched exactly once, first, and everything else is a poll; only SSM calls |
| Cli.PlanOutcome | ssm_acquire/cli.py:66-75 | a plan succeeds exactly when its dispatch is accepted and a poll reports a status that ends the wait, and then answers that status; a rejected or unanswered dispatch ends it at once |
| Cli.Setup | ssm_acquire/cli.py:36-47 | scope the policy, `auth` with it, then create the SSM client from the credentials |
| Cli.SetupEvents | ssm_acquire/cli.py:36-47 | setup asks STS at most once and only prompts, calls STS and creates the SSM client, the client last |
| Cli.RunAnalysis | ssm_acquire/cli.py:51-60 | `RekallManager(...)`, `download_incident_data`, `run_rekall_plugins`; an unset `asset_bucket` raises first |
| Cli.FirstDownloadFindsProfile | ssm_acquire/analyze.py:82-98 | with `/tmp` present, an id without `/`, no working area yet, a bucket that can be listed and an object `<id>/<name>.zip`, the download succeeds without starting a container and the profile lookup then finds a `.zip` name supplied by one of the instance's objects |
| Cli.FirstAnalysisRuns | ssm_acquire/cli.py:51-60 | with `/tmp` present, an id without `/`, no working area yet, a bucket that can be listed and an object `<id>/<name>.zip` in it, the downloaded profile is found, the conversion container is started on a downloaded `.zip` file, and the analysis completes |
| Cli.AnalysisEvents | ssm_acquire/cli.py:51-60 | the analysis only talks to Docker, storage and the local file system |
| Cli.RunAcquisition | ssm_acquire/cli.py:62-97 | the acquire plan and its wait, the status overwritten with `'Success'`, then the transfer plan and its wait; a ClientError is caught |
| Cli.AcquireDispatches | ssm_acquire/cli.py:62-97 | the acquire plan is dispatched first, and the transfer plan after it exactly when the acquisition's wait ended with any answered status. Nothing else is dispatched. A ClientError never escapes the mode |
| Cli.RunReport | ssm_acquire/cli.py:99-119 | a plan and its wait, answering whether the final status is `'Success'` |
| Cli.ReportOutcome | ssm_acquire/cli.py:99-119 | build and interrogate report success exactly when the status ending the wait is `'Success'` and a failure for any other final status; one dispatch, no follow-up |
| Cli.ReportIfDispatches | ssm_acquire/cli.py:99-144 | an optional mode dispatches its plan once when enabled and nothing otherwise |
| Cli.RunCommands | ssm_acquire/cli.py:62-146 | the acquire, build and interrogate blocks in that order, each under its flag, then `return 0` |
| Cli.CommandEvents | ssm_acquire/cli.py:62-144 | the remote-command modes only make SSM calls |
| Cli.CommandDispatches | ssm_acquire/cli.py:62-146 | when they complete, the modes dispatch acquire, transfer, build, interrogate in that order, each only under its flag; transfer goes whenever the acquisition's wait was answered; `main` returns 0 |
| Cli.RunMain | ssm_acquire/cli.py:32-146 | `main` performs setup under any of the four flags, then analyze, acquire, build and interrogate blocks in that order |
| Cli.MainPhases | ssm_acquire/cli.py:32-146 | a run of `main` is its setup calls, then its analysis calls (none without `--analyze`), then its remote commands |
| Cli.MainOutcome | ssm_acquire/cli.py:36-146 | without any of the four flags `main` makes no call and returns 0; a run that completes returns 0 |
| Cli.MainRun | ssm_acquire/cli.py:32-146 | every call of `main` is a setup, analysis or remote-command call, in that phase order; credentials are requested at most once; no analysis call is made without `--analyze` |

## Left out

- Logging, the spinner, stdout writes and `time.sleep`: presentation and timing only.
- Configuration loading through everett: the options are an explicit `Config` record.
- YAML loading and Jinja2 rendering of the policy template and the command plans: the template
  is a given list of statements, and the plans are given lists or functions of the credentials
  and instance id.
- The `asset_bucket` lookups inside `load_transfer`, `load_build` and `load_interrogate`: they
  are part of plan rendering, which is not modelled.
- Common.GetLimitedPolicy: stops at the patched statement list; the `json.dumps` of the policy
  document is not modelled.
- Credential.StsManager.Auth: the STS response is reduced to its `Credentials` part, and a
  rejected request is a single `ClientError`.
- Reading `['Credentials'][...]` from the response is not modelled. A response without those
  fields cannot occur in the model.
- Cli.AwaitStatus: when the service has no reply left the model ends the wait with `NoReply`; the
  real loop would poll for ever.
- Failures of Docker, S3 `get_object` of an existing key, file opens and uploads: these calls
  always succeed in the model. Two storage failures are modelled: `get_object` of a missing key,
  and a `list_objects` the service rejects (`World.listingDenied`, for a missing bucket or denied
  access), both raising ClientError. Of `os.mkdir`'s failures only FileExistsError and
  FileNotFoundError (a missing parent) are modelled; a permission error is not.
- Credential.StsManager.GetSessionToken: the configured duration is passed on as the string it is
  in the configuration (default `'3600'`); botocore's client-side parameter validation happens
  inside the STS service, which the model abstracts to its oracle answers.
- Container timeouts and the concurrency of containers inside Docker: only the order of the
  orchestrator's run, stop, wait, logs and remove calls is modelled.
- Listing truncation at 1000 keys by `list_objects`.
- GetFiles: a key the instance-id prefix matches whose directory was never made (`i-abc1234/x`)
  makes the source's `open` raise FileNotFoundError; the model writes the file and lists it in no
  directory. A write to a path that names a directory (a folder-marker key `<id>/`) would raise
  IsADirectoryError; the model stores it as a file and lists no name.
- Path normalisation: `/tmp/<id>` is used as written. The ids `""` and `".."` give `/tmp/` and
  `/tmp/..`, which the operating system resolves to existing directories (so `os.mkdir` raises
  FileExistsError); the model treats them as new paths. Ids containing `/` are handled: `mkdir`
  under a missing directory raises FileNotFoundError.
- The order of `os.listdir` is unspecified; the model lists entries in the order they were made.
- Environment.Statement: keeps only `Sid`, `Action` and `Resource`, the fields `get_limited_policy`
  reads or rewrites. Other statement fields (such as `Effect`) and top-level document fields (such
  as `Version`) are not modelled; the source leaves them as loaded.
- `pull_rekall_image`, which nothing calls, and the `NativeRekall` stub.
- The tilde in the default yara directory `~/.yarafiles` is kept as a literal string, as
  `os.path.isdir` does not expand it. The file system is a map from paths to listings.
- Argument parsing by click: the flags are a `Flags` record, and `--instance_id` and `--region`
  are plain strings.
- The `deploy` flag is accepted and has no effect, as in the source.
