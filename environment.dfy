/** The outside world as the orchestrator sees it: AWS (STS, SSM, S3), the Docker daemon, the local
    file system and the operator's terminal. Each call into it is one method of `Env`; what the call
    answers is drawn from the `World` (the answers the services will give, in order, and the local
    state), and what the call does is appended to the ghost `trace`. */
module Environment {
  import opened Wrappers
  import opened Strings

  newtype byte = b: int | 0 <= b < 256

  /** One statement of an IAM policy document (fields `Sid`, `Action`, `Resource`). */
  datatype Statement = Statement(sid: Option<string>, action: seq<string>, resource: seq<string>)

  /** The `Credentials` part of an STS response. */
  datatype Credentials = Credentials(accessKeyId: string, secretAccessKey: string, sessionToken: string)

  /** The options of the `ssm_acquire` configuration namespace; `None` when the option is unset. */
  datatype Config = Config(
    assetBucket: Option<string>,
    ssmAcquireRoleArn: Option<string>,
    mfaSerialNumber: Option<string>,
    assumeRoleSessionDuration: Option<string>,
    yaraFileDir: Option<string>)

  /** A configuration lookup with a default. */
  function Lookup(option: Option<string>, default: string): string {
    if option.Some? then option.value else default
  }

  /** Exceptions that end an operation (and, unless caught, the whole run). */
  datatype Fault =
    | ClientError                   // botocore rejected an AWS request
    | ConfigurationMissing(key: string)  // a required option without a default is unset
    | IndexError                    // a policy list or a path split too short
    | KeyError(key: string)         // a policy statement without the field read
    | MissingArgument               // TypeError: a required positional argument not passed
    | NotIterable                   // TypeError: iterating over None
    | NoneHasNoSplit                // AttributeError: None.split
    | NoSuchDirectory(path: string) // FileNotFoundError: os.listdir of a missing directory, os.mkdir under one
    | FileExists(path: string)      // FileExistsError from os.mkdir
    | NoReply                       // the service never answers: the real call blocks or polls forever

  datatype Mfa = Mfa(serialNumber: string, tokenCode: string)

  /** One entry of a Docker volume mapping: where the host path appears in the container. */
  datatype Bind = Bind(bind: string, mode: string)

  /** What `container.logs()` returned for the container with this handle. */
  datatype LogBlob = LogsOf(container: nat)

  datatype S3Client = S3Client(credentials: Credentials)
  datatype S3Object = S3Object(key: string, body: seq<byte>)

  /** Everything the orchestrator does to the outside world, in the order it does it. */
  datatype Event =
    | Prompted(message: string)
    | SessionTokenRequested(configuredDuration: string, mfa: Option<Mfa>)
    | AssumeRoleRequested(roleArn: string, roleSessionName: string, durationSeconds: int,
                          policy: seq<Statement>, mfa: Option<Mfa>)
    | SsmClientCreated(credentials: Credentials)
    | CommandSent(instanceIds: seq<string>, documentName: string, comment: string, commands: seq<string>)
    | InvocationPolled(commandId: string, instanceId: string)
    | S3ClientCreated(credentials: Credentials)
    | ObjectsListed(bucket: string, prefix: string)
    | ObjectFetched(bucket: string, key: string)
    | FileUploaded(path: string, bucket: string, key: string)
    | DirectoryMade(path: string)   // os.mkdir called, whatever it answered
    | FileWritten(path: string)
    | DockerConnected
    | ContainerStarted(container: nat, image: string, command: string, volumes: map<string, Bind>)
    | ContainerStopped(container: nat)
    | ContainerWaited(container: nat, timeout: int)
    | LogsFetched(container: nat)
    | ContainerRemoved(container: nat)

  /** Calls to the credential service. */
  predicate IsStsCall(e: Event) {
    e.SessionTokenRequested? || e.AssumeRoleRequested?
  }

  /** Calls to the remote command service. */
  predicate IsSsmCall(e: Event) {
    e.CommandSent? || e.InvocationPolled?
  }

  /** Calls to object storage. */
  predicate IsStorageCall(e: Event) {
    e.S3ClientCreated? || e.ObjectsListed? || e.ObjectFetched? || e.FileUploaded?
  }

  /** The events satisfying `keep`, in order. */
  function Filter(events: seq<Event>, keep: Event -> bool): (r: seq<Event>)
    ensures |r| <= |events|
    ensures forall e :: e in r <==> e in events && keep(e)
  {
    if events == [] then []
    else (if keep(events[0]) then [events[0]] else []) + Filter(events[1..], keep)
  }

  /** Filtering distributes over concatenation. */
  lemma {:induction false} FilterConcat(a: seq<Event>, b: seq<Event>, keep: Event -> bool)
    ensures Filter(a + b, keep) == Filter(a, keep) + Filter(b, keep)
    decreases |a|
  {
    if a == [] {
      assert a + b == b;
    } else {
      var head := if keep(a[0]) then [a[0]] else [];
      assert (a + b)[0] == a[0] && (a + b)[1..] == a[1..] + b;
      FilterConcat(a[1..], b, keep);
      calc {
        Filter(a + b, keep);
        head + Filter(a[1..] + b, keep);
        head + (Filter(a[1..], keep) + Filter(b, keep));
        (head + Filter(a[1..], keep)) + Filter(b, keep);
        Filter(a, keep) + Filter(b, keep);
      }
    }
  }

  /** Concatenation is associative; stated once so that callers need not re-derive it pointwise. */
  lemma AppendAssoc(a: seq<Event>, b: seq<Event>, c: seq<Event>)
    ensures a + (b + c) == (a + b) + c
  {
  }

  /** The empty sequence is a unit of concatenation. */
  lemma AppendEmpty(a: seq<Event>)
    ensures a + [] == a && [] + a == a
  {
  }

  datatype StsReply = Granted(credentials: Credentials) | StsDenied
  datatype DispatchReply = Accepted(commandId: string) | DispatchDenied
  datatype PollReply = Reported(status: string) | PollDenied

  /** The answers the services are going to give, and the local state.
      `objects` is the bucket's content in the order `list_objects` reports it;
      `dirs` maps each local directory to its `os.listdir` listing;
      `listingDenied` says the service rejects `list_objects` (no such bucket, or access denied). */
  datatype World = World(
    typed: seq<string>,
    sts: seq<StsReply>,
    dispatches: seq<DispatchReply>,
    polls: seq<PollReply>,
    objects: seq<S3Object>,
    listingDenied: bool,
    dirs: map<string, seq<string>>,
    files: map<string, seq<byte>>,
    nextContainer: nat)

  /** The outcome of an operation: its result, the world afterwards and the events it emitted. */
  datatype Step<T> = Step(result: Result<T, Fault>, world: World, events: seq<Event>)

  function PromptStep(w: World, message: string): Step<string> {
    if w.typed == [] then Step(Err(NoReply), w, [Prompted(message)])
    else Step(Ok(w.typed[0]), w.(typed := w.typed[1..]), [Prompted(message)])
  }

  function StsStep(w: World, request: Event): Step<Credentials>
    requires IsStsCall(request)
  {
    if w.sts == [] then Step(Err(NoReply), w, [request])
    else
      var answer := match w.sts[0] case Granted(c) => Ok(c) case StsDenied => Err(ClientError);
      Step(answer, w.(sts := w.sts[1..]), [request])
  }

  function SendStep(w: World, instanceIds: seq<string>, documentName: string, comment: string,
                    commands: seq<string>): Step<string>
  {
    var ev := [CommandSent(instanceIds, documentName, comment, commands)];
    if w.dispatches == [] then Step(Err(NoReply), w, ev)
    else
      var answer := match w.dispatches[0] case Accepted(id) => Ok(id) case DispatchDenied => Err(ClientError);
      Step(answer, w.(dispatches := w.dispatches[1..]), ev)
  }

  function PollStep(w: World, commandId: string, instanceId: string): Step<string> {
    var ev := [InvocationPolled(commandId, instanceId)];
    if w.polls == [] then Step(Err(NoReply), w, ev)
    else
      var answer := match w.polls[0] case Reported(s) => Ok(s) case PollDenied => Err(ClientError);
      Step(answer, w.(polls := w.polls[1..]), ev)
  }

  /** The keys of the objects whose key starts with `prefix`, in listing order. */
  function Listing(objects: seq<S3Object>, prefix: string): (keys: seq<string>)
    ensures |keys| <= |objects|
    ensures forall k :: k in keys ==> StartsWith(k, prefix)
    ensures forall o :: o in objects && StartsWith(o.key, prefix) ==> o.key in keys
  {
    if objects == [] then []
    else (if StartsWith(objects[0].key, prefix) then [objects[0].key] else []) + Listing(objects[1..], prefix)
  }

  /** `list_objects(...).get('Contents')`: a rejected request raises ClientError; `Contents` is
      absent (None) when no key matches. */
  function ListStep(w: World, bucket: string, prefix: string): Step<Option<seq<string>>> {
    var keys := Listing(w.objects, prefix);
    Step(if w.listingDenied then Err(ClientError) else Ok(if keys == [] then None else Some(keys)), w,
         [ObjectsListed(bucket, prefix)])
  }

  /** The body of the first object stored under `key`. */
  function Body(objects: seq<S3Object>, key: string): Option<seq<byte>> {
    if objects == [] then None
    else if objects[0].key == key then Some(objects[0].body)
    else Body(objects[1..], key)
  }

  /** A body is found only for an object the bucket holds under that key. */
  lemma {:induction false} BodyStored(objects: seq<S3Object>, key: string)
    ensures Body(objects, key).Some? ==> S3Object(key, Body(objects, key).value) in objects
  {
    if objects != [] && objects[0].key != key {
      BodyStored(objects[1..], key);
    }
  }

  /** `get_object`: a key not in the bucket is rejected. */
  function GetObjectStep(w: World, bucket: string, key: string): Step<seq<byte>> {
    var body := Body(w.objects, key);
    Step(if body.Some? then Ok(body.value) else Err(ClientError), w, [ObjectFetched(bucket, key)])
  }

  /** The directory a path is in and the path's name there: everything before and after the last '/'. */
  function ParentAndName(path: string): (r: (string, string))
    ensures '/' !in r.1
    ensures '/' in path ==> path == r.0 + "/" + r.1
    ensures '/' !in path ==> r == ("", path)
    decreases |path|
  {
    if path == [] then ("", [])
    else if path[|path| - 1] == '/' then (path[..|path| - 1], [])
    else
      var (parent, name) := ParentAndName(path[..|path| - 1]);
      assert path == path[..|path| - 1] + [path[|path| - 1]];
      (parent, name + [path[|path| - 1]])
  }

  /** A name without '/' put under a directory is found there again. */
  lemma {:induction false} ParentAndNameOf(parent: string, name: string)
    requires '/' !in name
    ensures ParentAndName(parent + "/" + name) == (parent, name)
    decreases |name|
  {
    var path := parent + "/" + name;
    if name != [] {
      var shorter := name[..|name| - 1];
      assert path[..|path| - 1] == parent + "/" + shorter;
      ParentAndNameOf(parent, shorter);
      assert name == shorter + [name[|name| - 1]];
    } else {
      assert path[..|path| - 1] == parent;
    }
  }

  /**
   * The listings after an entry is created at `path`: its name is added at the end of its directory's
   * listing when that directory exists and does not list it yet.
   */
  function Entered(dirs: map<string, seq<string>>, path: string): map<string, seq<string>> {
    var (parent, name) := ParentAndName(path);
    if parent in dirs && name != "" && name !in dirs[parent] then dirs[parent := dirs[parent] + [name]] else dirs
  }

  /** No directory appears or disappears, and each lists what it listed before plus, for the
      directory `path` is in, the name of `path`. */
  lemma EnteredListing(dirs: map<string, seq<string>>, path: string)
    ensures var r := Entered(dirs, path);
            && r.Keys == dirs.Keys
            && forall d :: d in dirs ==> forall n :: n in r[d] <==> n in dirs[d] || (ParentAndName(path) == (d, n) && n != "")
  {
  }

  /** `os.mkdir`: an existing entry raises FileExistsError and a missing parent directory
      FileNotFoundError, each leaving everything as it was; otherwise a new empty directory is
      listed in its parent. */
  function MkdirStep(w: World, path: string): Step<()> {
    var parent := ParentAndName(path).0;
    if path in w.dirs || path in w.files then Step(Err(FileExists(path)), w, [DirectoryMade(path)])
    else if parent !in w.dirs then Step(Err(NoSuchDirectory(parent)), w, [DirectoryMade(path)])
    else Step(Ok(()), w.(dirs := Entered(w.dirs, path)[path := []]), [DirectoryMade(path)])
  }

  /** `open(path, 'wb').write(data)`: the file holds `data` and is listed in its directory. */
  function WriteStep(w: World, path: string, data: seq<byte>): World {
    w.(files := w.files[path := data], dirs := Entered(w.dirs, path))
  }

  /** `containers.run(..., detach=True)`: handles are handed out in increasing order. */
  function StartStep(w: World, image: string, command: string, volumes: map<string, Bind>): Step<nat> {
    Step(Ok(w.nextContainer), w.(nextContainer := w.nextContainer + 1),
         [ContainerStarted(w.nextContainer, image, command, volumes)])
  }

  class Env {
    var w: World
    ghost var trace: seq<Event>

    constructor (w0: World)
      ensures w == w0 && trace == []
    {
      w := w0;
      trace := [];
    }

    /** The call went as `s` says: result, new world, events appended. */
    twostate predicate Performed<T>(new s: Step<T>, new r: Result<T, Fault>)
      reads this
    {
      r == s.result && w == s.world && trace == old(trace) + s.events
    }

    /** The call changed no answers or local state and appended exactly `events`. */
    twostate predicate Emitted(events: seq<Event>)
      reads this
    {
      w == old(w) && trace == old(trace) + events
    }

    /** `prompt(message)` */
    method Prompt(message: string) returns (r: Result<string, Fault>)
      modifies this
      ensures Performed(PromptStep(old(w), message), r)
    {
      var s := PromptStep(w, message);
      r, w, trace := s.result, s.world, trace + s.events;
    }

    /** `sts_client.get_session_token(...)` or `sts_client.assume_role(...)` */
    method Sts(request: Event) returns (r: Result<Credentials, Fault>)
      requires IsStsCall(request)
      modifies this
      ensures Performed(StsStep(old(w), request), r)
    {
      var s := StsStep(w, request);
      r, w, trace := s.result, s.world, trace + s.events;
    }

    /** `boto3.client('ssm', ...)` */
    method CreateSsmClient(credentials: Credentials)
      modifies this
      ensures Emitted([SsmClientCreated(credentials)])
    {
      trace := trace + [SsmClientCreated(credentials)];
    }

    /** `ssm_client.send_command(...)`, answering the command id. */
    method SendCommand(instanceIds: seq<string>, documentName: string, comment: string, commands: seq<string>)
      returns (r: Result<string, Fault>)
      modifies this
      ensures Performed(SendStep(old(w), instanceIds, documentName, comment, commands), r)
    {
      var s := SendStep(w, instanceIds, documentName, comment, commands);
      r, w, trace := s.result, s.world, trace + s.events;
    }

    /** `ssm_client.get_command_invocation(...)`, answering the invocation's `Status`. */
    method GetCommandInvocation(commandId: string, instanceId: string) returns (r: Result<string, Fault>)
      modifies this
      ensures Performed(PollStep(old(w), commandId, instanceId), r)
    {
      var s := PollStep(w, commandId, instanceId);
      r, w, trace := s.result, s.world, trace + s.events;
    }

    /** `boto3.client('s3', ...)` */
    method CreateS3Client(credentials: Credentials) returns (client: S3Client)
      modifies this
      ensures client == S3Client(credentials)
      ensures Emitted([S3ClientCreated(credentials)])
    {
      client := S3Client(credentials);
      trace := trace + [S3ClientCreated(credentials)];
    }

    /** `s3_client.list_objects(Bucket=bucket, Prefix=prefix).get('Contents')`, as keys. */
    method ListObjects(bucket: string, prefix: string) returns (r: Result<Option<seq<string>>, Fault>)
      modifies this
      ensures Performed(ListStep(old(w), bucket, prefix), r)
    {
      var s := ListStep(w, bucket, prefix);
      r, w, trace := s.result, s.world, trace + s.events;
    }

    /** `s3_client.get_object(Bucket=bucket, Key=key)['Body'].read()` */
    method GetObject(bucket: string, key: string) returns (r: Result<seq<byte>, Fault>)
      modifies this
      ensures Performed(GetObjectStep(old(w), bucket, key), r)
    {
      var s := GetObjectStep(w, bucket, key);
      r, w, trace := s.result, s.world, trace + s.events;
    }

    /** `s3_client.upload_fileobj(open(path, 'rb'), bucket, key)` */
    method Upload(path: string, bucket: string, key: string)
      modifies this
      ensures Emitted([FileUploaded(path, bucket, key)])
    {
      trace := trace + [FileUploaded(path, bucket, key)];
    }

    /** `os.path.isdir(path)` and `os.listdir(path)`: the listing, or None when not a directory. */
    method ListDir(path: string) returns (listing: Option<seq<string>>)
      ensures listing == if path in w.dirs then Some(w.dirs[path]) else None
    {
      listing := if path in w.dirs then Some(w.dirs[path]) else None;
    }

    /** `os.mkdir(path)` */
    method Mkdir(path: string) returns (r: Result<(), Fault>)
      modifies this
      ensures Performed(MkdirStep(old(w), path), r)
    {
      var s := MkdirStep(w, path);
      r, w, trace := s.result, s.world, trace + s.events;
    }

    /** `open(path, 'wb').write(data)` */
    method WriteFile(path: string, data: seq<byte>)
      modifies this
      ensures w == WriteStep(old(w), path, data) && trace == old(trace) + [FileWritten(path)]
    {
      w := WriteStep(w, path, data);
      trace := trace + [FileWritten(path)];
    }

    /** `docker.from_env()` */
    method ConnectDocker()
      modifies this
      ensures Emitted([DockerConnected])
    {
      trace := trace + [DockerConnected];
    }

    /** `client.containers.run(image=image, command=command, detach=True, volumes=volumes)` */
    method RunContainer(image: string, command: string, volumes: map<string, Bind>) returns (handle: nat)
      modifies this
      ensures Performed(StartStep(old(w), image, command, volumes), Ok(handle))
    {
      var s := StartStep(w, image, command, volumes);
      handle, w, trace := s.result.value, s.world, trace + s.events;
    }

    /** `container.stop()` */
    method StopContainer(handle: nat)
      modifies this
      ensures Emitted([ContainerStopped(handle)])
    {
      trace := trace + [ContainerStopped(handle)];
    }

    /** `container.wait(timeout=timeout)` */
    method WaitContainer(handle: nat, timeout: int)
      modifies this
      ensures Emitted([ContainerWaited(handle, timeout)])
    {
      trace := trace + [ContainerWaited(handle, timeout)];
    }

    /** `container.logs()` */
    method ContainerLogs(handle: nat) returns (logs: LogBlob)
      modifies this
      ensures logs == LogsOf(handle)
      ensures Emitted([LogsFetched(handle)])
    {
      logs := LogsOf(handle);
      trace := trace + [LogsFetched(handle)];
    }

    /** `container.remove()` */
    method RemoveContainer(handle: nat)
      modifies this
      ensures Emitted([ContainerRemoved(handle)])
    {
      trace := trace + [ContainerRemoved(handle)];
    }
  }
}
