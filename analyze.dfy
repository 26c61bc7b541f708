/** ssm_acquire/analyze.py: fetching an instance's artifacts from the asset bucket into its local
    working area, running the rekall plugins in Docker containers over the memory capture,
    uploading their outputs, and the optional yara scan. */
module Analyze {
  import opened Wrappers
  import opened Strings
  import opened Environment

  const DockerImage := "threatresponse/rekall:latest"
  const RekallPlugins := ["psaux", "pstree", "netstat", "ifconfig", "pidhashtable"]
  const WaitTimeout := 600
  const DefaultYaraFileDir := "~/.yarafiles"

  /** The local working area of an instance. */
  function TempDir(instanceId: string): string { "/tmp/" + instanceId }

  /** `create_instance_directory`: `os.mkdir` of the working area with FileExistsError caught; a
      missing parent directory still raises. */
  function CreateDirStep(w: World, instanceId: string): Step<()> {
    var m := MkdirStep(w, TempDir(instanceId));
    if m.result.Err? && m.result.error.FileExists? then Step(Ok(()), m.world, m.events) else m
  }

  /** `create_instance_directory` fails exactly when neither the working area nor its parent
      exists, and then with FileNotFoundError and nothing changed; an existing path is left as it
      was; otherwise the area is made, empty. */
  lemma CreateDirOutcome(w: World, instanceId: string)
    ensures var c := CreateDirStep(w, instanceId);
            var dir := TempDir(instanceId);
            var parent := ParentAndName(dir).0;
            && c.events == [DirectoryMade(dir)]
            && (c.result.Err? <==> dir !in w.dirs && dir !in w.files && parent !in w.dirs)
            && (c.result.Err? ==> c.result.error == NoSuchDirectory(parent) && c.world == w)
            && (dir in w.dirs || dir in w.files ==> c.world == w)
            && (c.result.Ok? && dir !in w.dirs && dir !in w.files ==>
                  && dir in c.world.dirs && c.world.dirs[dir] == []
                  && c.world.files == w.files && c.world.objects == w.objects)
  {
  }

  /** Where `get_files` writes an object: `/tmp/` followed by the raw key. */
  function LocalPath(key: string): string { "/tmp/" + key }

  function OutputName(plugin: string, instanceId: string): string { plugin + "-" + instanceId + "-output.json" }

  /** The file a plugin writes, as seen from the host (line 198). */
  function OutputPath(instanceId: string, plugin: string): string { TempDir(instanceId) + "/" + OutputName(plugin, instanceId) }

  /** The working area mounted read-write at /files. */
  function FilesVolume(instanceId: string): map<string, Bind> { map[TempDir(instanceId) := Bind("/files", "rw")] }

  /** The working area at /files and the rule directory at /opt/yarascan (a dict literal: the
      second entry wins if both paths are the same). */
  function YaraVolumes(instanceId: string, yaraFileDir: string): map<string, Bind> {
    map[TempDir(instanceId) := Bind("/files", "rw")][yaraFileDir := Bind("/opt/yarascan", "rw")]
  }

  function Spaces(n: nat): string { seq(n, _ => ' ') }

  /** `rekall_profile_name.split('zip')[0]` */
  function ProfileStem(profileName: string): string { BeforeFirst(profileName, "zip") }

  // The fixed parts of the container commands.
  const ConvertPrefix := "rekall convert_profile "
  const CapturePrefix := "rekall -f /files/capture.aff4 --profile /files/"
  const PluginFormat := Spaces(20) + "--format=json "
  const YaraRuleDir := "json yarascan --yara_file /opt/yarascan/"
  const YaraFormat := " " + Spaces(24) + "--format=json --output=/files/yara-scan-"

  function ConvertCommand(profileName: string): string {
    ConvertPrefix + profileName + " " + ProfileStem(profileName) + "json"
  }

  /** The file a plugin writes, as seen inside its container. */
  function ContainerOutputPath(plugin: string, instanceId: string): string { "/files/" + OutputName(plugin, instanceId) }

  /** The plugin command; the backslash-newline inside the literal keeps the next line's 20 spaces. */
  function PluginCommand(stem: string, plugin: string, instanceId: string): (command: string)
    ensures EndsWith(command, "--output=" + ContainerOutputPath(plugin, instanceId))
  {
    var tail := "--output=" + ContainerOutputPath(plugin, instanceId);
    var head := CapturePrefix + stem + "json " + plugin + " " + PluginFormat;
    assert (head + tail)[|head + tail| - |tail|..] == tail;
    head + tail
  }

  /** The yara command for one rule file (24 spaces kept from the continuation line). */
  function YaraCommand(stem: string, yaraFile: string, instanceId: string): string {
    CapturePrefix + stem + YaraRuleDir + yaraFile + YaraFormat + yaraFile + "-" + instanceId + "-output.json"
  }

  // ---------------------------------------------------------------------------------------------
  // Object storage (`S3Manager`)

  /** `_connect` creates a client only when there is none. */
  function ConnectEvents(client: Option<S3Client>, credentials: Credentials): seq<Event> {
    if client.None? then [S3ClientCreated(credentials)] else []
  }

  function ConnectedClient(client: Option<S3Client>, credentials: Credentials): S3Client {
    if client.Some? then client.value else S3Client(credentials)
  }

  /** The `get_object` and file write of each key, in order. */
  function FetchEvents(bucket: string, keys: seq<string>): (events: seq<Event>)
    ensures |events| == 2 * |keys|
  {
    if keys == [] then []
    else [ObjectFetched(bucket, keys[0]), FileWritten(LocalPath(keys[0]))] + FetchEvents(bucket, keys[1..])
  }

  /** One `get_object` per key, each followed by the write of its file, in key order. */
  lemma {:induction false} FetchEventsInOrder(bucket: string, keys: seq<string>)
    ensures var events := FetchEvents(bucket, keys);
            forall i :: 0 <= i < |keys| ==>
              events[2 * i] == ObjectFetched(bucket, keys[i]) && events[2 * i + 1] == FileWritten(LocalPath(keys[i]))
  {
    if keys != [] {
      FetchEventsInOrder(bucket, keys[1..]);
      var events := FetchEvents(bucket, keys);
      forall i | 1 <= i < |keys|
        ensures events[2 * i] == ObjectFetched(bucket, keys[i]) && events[2 * i + 1] == FileWritten(LocalPath(keys[i]))
      {
        assert keys[i] == keys[1..][i - 1];
        assert events[2 * i] == FetchEvents(bucket, keys[1..])[2 * (i - 1)];
        assert events[2 * i + 1] == FetchEvents(bucket, keys[1..])[2 * (i - 1) + 1];
      }
    }
  }

  /** The download loop of `get_files`: fetch each key and write it to `/tmp/<key>`; a key not
      in the bucket stops it. */
  function FetchStep(w: World, bucket: string, keys: seq<string>): Step<()>
    decreases |keys|
  {
    if keys == [] then Step(Ok(()), w, [])
    else
      var g := GetObjectStep(w, bucket, keys[0]);
      if g.result.Err? then Step(Err(g.result.error), g.world, g.events)
      else
        var rest := FetchStep(WriteStep(g.world, LocalPath(keys[0]), g.result.value), bucket, keys[1..]);
        Step(rest.result, rest.world, g.events + [FileWritten(LocalPath(keys[0]))] + rest.events)
  }

  /** One round of the download loop: the first key is fetched and written, then the rest follow. */
  lemma FetchFirst(w: World, bucket: string, keys: seq<string>)
    requires keys != [] && Body(w.objects, keys[0]).Some?
    ensures var rest := FetchStep(WriteStep(w, LocalPath(keys[0]), Body(w.objects, keys[0]).value), bucket, keys[1..]);
            FetchStep(w, bucket, keys)
            == Step(rest.result, rest.world, [ObjectFetched(bucket, keys[0]), FileWritten(LocalPath(keys[0]))] + rest.events)
  {
    assert [ObjectFetched(bucket, keys[0])] + [FileWritten(LocalPath(keys[0]))]
        == [ObjectFetched(bucket, keys[0]), FileWritten(LocalPath(keys[0]))];
  }

  /** `get_files` after `_connect`: iterating over None (an empty listing) raises TypeError. */
  function GetFilesStep(w: World, bucket: string, objectKeys: Option<seq<string>>): Step<()> {
    if objectKeys.None? then Step(Err(NotIterable), w, []) else FetchStep(w, bucket, objectKeys.value)
  }

  /** The key `put_file` uploads to: the instance id and the fourth '/'-separated piece of the path. */
  function UploadKey(filePath: string, instanceId: string): Result<string, Fault> {
    var parts := Split(filePath, '/');
    if |parts| < 4 then Err(IndexError) else Ok(instanceId + "/" + parts[3])
  }

  class S3Manager {
    const credentials: Credentials
    const bucketName: string
    var s3Client: Option<S3Client>

    constructor (credentials: Credentials, bucketName: string)
      ensures this.credentials == credentials && this.bucketName == bucketName && s3Client == None
    {
      this.credentials := credentials;
      this.bucketName := bucketName;
      s3Client := None;
    }

    method Connect(env: Env)
      modifies this`s3Client, env
      ensures s3Client == Some(ConnectedClient(old(s3Client), credentials))
      ensures env.Emitted(ConnectEvents(old(s3Client), credentials))
    {
      if s3Client.None? {
        var client := env.CreateS3Client(credentials);
        s3Client := Some(client);
      }
    }

    method ListObjectsForKey(env: Env, objectKey: string) returns (r: Result<Option<seq<string>>, Fault>)
      modifies this`s3Client, env
      ensures s3Client == Some(ConnectedClient(old(s3Client), credentials))
      ensures var s := ListStep(old(env.w), bucketName, objectKey);
              r == s.result && env.w == s.world && env.trace == old(env.trace) + ConnectEvents(old(s3Client), credentials) + s.events
    {
      Connect(env);
      r := env.ListObjects(bucketName, objectKey);
    }

    method CreateInstanceDirectory(env: Env, instanceId: string) returns (r: Result<(), Fault>)
      modifies env
      ensures env.Performed(CreateDirStep(old(env.w), instanceId), r)
    {
      r := env.Mkdir(TempDir(instanceId));
      if r.Err? && r.error.FileExists? {
        r := Ok(());
      }
    }

    method GetFiles(env: Env, objectKeys: Option<seq<string>>) returns (r: Result<(), Fault>)
      modifies this`s3Client, env
      ensures s3Client == Some(ConnectedClient(old(s3Client), credentials))
      ensures var s := GetFilesStep(old(env.w), bucketName, objectKeys);
              r == s.result && env.w == s.world && env.trace == old(env.trace) + ConnectEvents(old(s3Client), credentials) + s.events
    {
      Connect(env);
      if objectKeys.None? {
        return Err(NotIterable);
      }
      var keys := objectKeys.value;
      ghost var whole := FetchStep(env.w, bucketName, keys);
      ghost var start := env.trace;
      for i := 0 to |keys|
        invariant s3Client == Some(ConnectedClient(old(s3Client), credentials))
        invariant var rest := FetchStep(env.w, bucketName, keys[i..]);
                  whole.result == rest.result && whole.world == rest.world && start + whole.events == env.trace + rest.events
      {
        ghost var before := env.w;
        ghost var trace0 := env.trace;
        var response := env.GetObject(bucketName, keys[i]);
        assert keys[i..][0] == keys[i] && keys[i..][1..] == keys[i + 1..];
        if response.Err? {
          return Err(response.error);
        }
        env.WriteFile(LocalPath(keys[i]), response.value);
        ghost var events := [ObjectFetched(bucketName, keys[i]), FileWritten(LocalPath(keys[i]))];
        assert env.w == WriteStep(before, LocalPath(keys[i]), response.value) && env.trace == trace0 + events;
        FetchFirst(before, bucketName, keys[i..]);
        AppendAssoc(trace0, events, FetchStep(env.w, bucketName, keys[i + 1..]).events);
      }
      r := Ok(());
    }

    method PutFile(env: Env, filePath: string, instanceId: string) returns (r: Result<(), Fault>)
      modifies this`s3Client, env
      ensures s3Client == Some(ConnectedClient(old(s3Client), credentials))
      ensures var key := UploadKey(filePath, instanceId);
              && r == (if key.Err? then Err(key.error) else Ok(()))
              && env.w == old(env.w)
              && env.trace == old(env.trace) + ConnectEvents(old(s3Client), credentials)
                              + (if key.Err? then [] else [FileUploaded(filePath, bucketName, key.value)])
    {
      Connect(env);
      var parts := Split(filePath, '/');
      if |parts| < 4 {
        return Err(IndexError);
      }
      var objectKey := instanceId + "/" + parts[3];
      env.Upload(filePath, bucketName, objectKey);
      r := Ok(());
    }
  }

  // ---------------------------------------------------------------------------------------------
  // Analysis (`RekallManager`)

  /** `download_incident_data`: a populated working area is returned as listed, with no storage
      call; otherwise the directory is made (a missing parent raises FileNotFoundError) and the
      bucket's objects are fetched into it (`FetchAllStep`). */
  function DownloadStep(w: World, instanceId: string, credentials: Credentials, bucket: string)
    : Step<Option<seq<string>>>
  {
    var dir := TempDir(instanceId);
    if dir in w.dirs && |w.dirs[dir]| != 0 then Step(Ok(Some(w.dirs[dir])), w, [])
    else
      var c := CreateDirStep(w, instanceId);
      if c.result.Err? then Step(Err(c.result.error), c.world, [DirectoryMade(dir)])
      else
        var f := FetchAllStep(c.world, instanceId, credentials, bucket);
        Step(f.result, f.world, [DirectoryMade(dir)] + f.events)
  }

  /** The rest of `download_incident_data` once the directory is there: a storage client is made,
      the bucket is listed with the instance id as prefix (a rejected listing raises ClientError)
      and every listed key is downloaded; the result is None (what `get_files` returns). */
  function FetchAllStep(w: World, instanceId: string, credentials: Credentials, bucket: string)
    : Step<Option<seq<string>>>
  {
    var l := ListStep(w, bucket, instanceId);
    var prelude := [S3ClientCreated(credentials)] + l.events;
    if l.result.Err? then Step(Err(l.result.error), l.world, prelude)
    else
      var g := GetFilesStep(l.world, bucket, l.result.value);
      Step(if g.result.Err? then Err(g.result.error) else Ok(None), g.world, prelude + g.events)
  }

  /** The first entry ending in `.zip`, in listing order. */
  function FirstZip(names: seq<string>): (r: Option<string>)
    ensures r.None? <==> forall k :: 0 <= k < |names| ==> !EndsWith(names[k], ".zip")
    ensures r.Some? ==> exists i :: && 0 <= i < |names| && names[i] == r.value && EndsWith(r.value, ".zip")
                                    && forall k :: 0 <= k < i ==> !EndsWith(names[k], ".zip")
  {
    if names == [] then None
    else if EndsWith(names[0], ".zip") then Some(names[0])
    else
      var rest := FirstZip(names[1..]);
      assert forall k :: 1 <= k < |names| ==> names[k] == names[1..][k - 1];
      if rest.Some? then
        ghost var i :| && 0 <= i < |names[1..]| && names[1..][i] == rest.value
                       && forall k :: 0 <= k < i ==> !EndsWith(names[1..][k], ".zip");
        assert names[i + 1] == rest.value;
        rest
      else rest
  }

  /** `_get_rekall_profile_name`: listing a missing working area raises. */
  function ProfileName(w: World, instanceId: string): Result<Option<string>, Fault> {
    var dir := TempDir(instanceId);
    if dir !in w.dirs then Err(NoSuchDirectory(dir)) else Ok(FirstZip(w.dirs[dir]))
  }

  function LaunchEvents(first: nat, stem: string, instanceId: string, plugins: seq<string>): (events: seq<Event>)
    ensures |events| == |plugins|
  {
    seq(|plugins|, i requires 0 <= i < |plugins| =>
      ContainerStarted(first + i, DockerImage, PluginCommand(stem, plugins[i], instanceId), FilesVolume(instanceId)))
  }

  /** Wait, logs and remove for the containers `first`, ..., `first + n - 1`, in that order. */
  function ReapEvents(first: nat, n: nat): (events: seq<Event>)
    ensures |events| == 3 * n
  {
    if n == 0 then []
    else ReapEvents(first, n - 1) + [ContainerWaited(first + n - 1, WaitTimeout), LogsFetched(first + n - 1),
                                     ContainerRemoved(first + n - 1)]
  }

  /** The key a plugin's output is uploaded under. */
  function OutputKey(instanceId: string, plugin: string): (key: string)
    ensures UploadKey(OutputPath(instanceId, plugin), instanceId) == Ok(key)
  {
    UploadKeyOfOutput(instanceId, plugin);
    UploadKey(OutputPath(instanceId, plugin), instanceId).value
  }

  function UploadEvents(instanceId: string, bucket: string, plugins: seq<string>): (events: seq<Event>)
    ensures |events| == |plugins|
  {
    seq(|plugins|, i requires 0 <= i < |plugins| =>
      FileUploaded(OutputPath(instanceId, plugins[i]), bucket, OutputKey(instanceId, plugins[i])))
  }

  function LogList(first: nat, n: nat): (logs: seq<LogBlob>)
    ensures |logs| == n
  {
    seq(n, i requires 0 <= i < n => LogsOf(first + i))
  }

  /** The output path splits into "", "tmp", the instance id and the output file name. */
  lemma {:induction false} OutputPathPieces(instanceId: string, plugin: string)
    requires '/' !in instanceId && '/' !in plugin
    ensures Split(OutputPath(instanceId, plugin), '/') == ["", "tmp", instanceId, OutputName(plugin, instanceId)]
  {
    var name := OutputName(plugin, instanceId);
    assert '/' !in name by {
      assert name == plugin + "-" + instanceId + "-output.json";
    }
    assert OutputPath(instanceId, plugin) == "" + ['/'] + ("tmp" + ['/'] + (instanceId + ['/'] + name));
    SplitAfterPiece("", '/', "tmp" + ['/'] + (instanceId + ['/'] + name));
    SplitAfterPiece("tmp", '/', instanceId + ['/'] + name);
    SplitAfterPiece(instanceId, '/', name);
    SplitWithout(name, '/');
  }

  /** Whatever the instance id, the upload path has at least four pieces, so `put_file` never
      raises for it; when the id has no '/', the key is `<id>/<plugin>-<id>-output.json`. */
  lemma {:induction false} UploadKeyOfOutput(instanceId: string, plugin: string)
    ensures UploadKey(OutputPath(instanceId, plugin), instanceId).Ok?
    ensures '/' !in instanceId && '/' !in plugin ==>
      UploadKey(OutputPath(instanceId, plugin), instanceId) == Ok(instanceId + "/" + plugin + "-" + instanceId + "-output.json")
  {
    var rest := instanceId + ['/'] + OutputName(plugin, instanceId);
    assert OutputPath(instanceId, plugin) == "" + ['/'] + ("tmp" + ['/'] + rest);
    SplitAfterPiece("", '/', "tmp" + ['/'] + rest);
    SplitAfterPiece("tmp", '/', rest);
    SplitLength(instanceId, '/', OutputName(plugin, instanceId));
    if '/' !in instanceId && '/' !in plugin {
      OutputPathPieces(instanceId, plugin);
      assert instanceId + "/" + OutputName(plugin, instanceId) == instanceId + "/" + plugin + "-" + instanceId + "-output.json";
    }
  }

  /** Splitting `a + "/" + b` gives at least two pieces. */
  lemma {:induction false} SplitLength(a: string, d: char, b: string)
    ensures |Split(a + [d] + b, d)| >= 2
    decreases |a|
  {
    if a == [] {
      assert a + [d] + b == [d] + b && ([d] + b)[1..] == b;
    } else {
      assert (a + [d] + b)[1..] == a[1..] + [d] + b;
      SplitLength(a[1..], d, b);
    }
  }

  /** `run_yara_scan`: the profile name is looked up first; with a missing or empty rule directory
      nothing else happens; otherwise a command is built per rule file, but the container is run
      once, after the loop, with the last file's command, then waited on, its logs read, removed. */
  function YaraStep(w: World, instanceId: string, config: Config): Step<()> {
    var yaraFileDir := Lookup(config.yaraFileDir, DefaultYaraFileDir);
    var profile := ProfileName(w, instanceId);
    if profile.Err? then Step(Err(profile.error), w, [])
    else if yaraFileDir in w.dirs && |w.dirs[yaraFileDir]| != 0 then
      if profile.value.None? then Step(Err(NoneHasNoSplit), w, [])
      else
        var files := w.dirs[yaraFileDir];
        var command := YaraCommand(ProfileStem(profile.value.value), files[|files| - 1], instanceId);
        var h := w.nextContainer;
        Step(Ok(()), w.(nextContainer := h + 1),
             [ContainerStarted(h, DockerImage, command, YaraVolumes(instanceId, yaraFileDir)),
              ContainerWaited(h, WaitTimeout), LogsFetched(h), ContainerRemoved(h)])
    else Step(Ok(()), w, [])
  }

  /** Everything `run_rekall_plugins` does before the yara scan, with the conversion container `h`. */
  function PluginEvents(h: nat, profileName: string, instanceId: string, credentials: Credentials, bucket: string)
    : seq<Event>
  {
    [ContainerStarted(h, DockerImage, ConvertCommand(profileName), FilesVolume(instanceId)), ContainerStopped(h), ContainerRemoved(h)]
    + LaunchEvents(h + 1, ProfileStem(profileName), instanceId, RekallPlugins)
    + ReapEvents(h + 1, |RekallPlugins|)
    + ([S3ClientCreated(credentials)] + UploadEvents(instanceId, bucket, RekallPlugins))
  }

  /** The yara scan's own profile lookup sees the listing the plugin run saw, so once a profile
      name was found the scan cannot fail, whatever containers have been started meanwhile. */
  lemma YaraAfterProfile(w: World, instanceId: string, config: Config, next: nat)
    requires ProfileName(w, instanceId).Ok? && ProfileName(w, instanceId).value.Some?
    ensures YaraStep(w.(nextContainer := next), instanceId, config).result == Ok(())
  {
  }

  /** `run_rekall_plugins`: convert the profile in a container that is run, stopped and removed;
      then launch one container per plugin; then wait on, read and remove each; then upload each
      plugin's output; then the yara scan, whose error would propagate (`YaraAfterProfile`: there is
      none once a profile name was found). The result is the plugins' logs in plugin order. */
  function PluginsStep(w: World, instanceId: string, credentials: Credentials, bucket: string, config: Config)
    : Step<seq<LogBlob>>
  {
    var profile := ProfileName(w, instanceId);
    if profile.Err? then Step(Err(profile.error), w, [])
    else if profile.value.None? then Step(Err(NoneHasNoSplit), w, [])
    else
      var h := w.nextContainer;
      var n := |RekallPlugins|;
      var y := YaraStep(w.(nextContainer := h + 1 + n), instanceId, config);
      Step(if y.result.Err? then Err(y.result.error) else Ok(LogList(h + 1, n)), y.world,
           PluginEvents(h, profile.value.value, instanceId, credentials, bucket) + y.events)
  }

  class RekallManager {
    const instanceId: string
    const credentials: Credentials
    const bucketName: string
    const config: Config
    const dockerImage: string := DockerImage
    const rekallPlugins: seq<string> := RekallPlugins

    /** The bucket is the `asset_bucket` option, read by the caller. */
    constructor (env: Env, instanceId: string, credentials: Credentials, bucketName: string, config: Config)
      modifies env
      ensures this.instanceId == instanceId && this.credentials == credentials
      ensures this.bucketName == bucketName && this.config == config
      ensures env.Emitted([DockerConnected])
    {
      this.instanceId := instanceId;
      this.credentials := credentials;
      this.bucketName := bucketName;
      this.config := config;
      env.ConnectDocker();
    }

    method DownloadIncidentData(env: Env) returns (r: Result<Option<seq<string>>, Fault>)
      modifies env
      ensures env.Performed(DownloadStep(old(env.w), instanceId, credentials, bucketName), r)
    {
      var tempDir := TempDir(instanceId);
      var listing := env.ListDir(tempDir);
      if listing.Some? && |listing.value| != 0 {
        r := Ok(listing);
        assert DownloadStep(old(env.w), instanceId, credentials, bucketName) == Step(r, env.w, []);
      } else {
        ghost var c := CreateDirStep(env.w, instanceId);
        ghost var start := env.trace;
        var s3Manager := new S3Manager(credentials, bucketName);
        var made := s3Manager.CreateInstanceDirectory(env, instanceId);
        assert made == c.result && env.w == c.world && env.trace == start + [DirectoryMade(tempDir)];
        if made.Err? {
          // Only FileExistsError is caught around os.mkdir; anything else stops the download.
          r := Err(made.error);
          assert DownloadStep(old(env.w), instanceId, credentials, bucketName) == Step(r, c.world, [DirectoryMade(tempDir)]);
        } else {
          ghost var f := FetchAllStep(c.world, instanceId, credentials, bucketName);
          assert DownloadStep(old(env.w), instanceId, credentials, bucketName)
                 == Step(f.result, f.world, [DirectoryMade(tempDir)] + f.events);
          r := FetchAll(env, s3Manager);
          AppendAssoc(start, [DirectoryMade(tempDir)], f.events);
        }
      }
    }

    /** Lines 91-92 of `download_incident_data`: the listing and the download, made with a storage
        manager that has not connected yet. */
    method FetchAll(env: Env, s3Manager: S3Manager) returns (r: Result<Option<seq<string>>, Fault>)
      requires s3Manager.credentials == credentials && s3Manager.bucketName == bucketName && s3Manager.s3Client == None
      modifies env, s3Manager`s3Client
      ensures env.Performed(FetchAllStep(old(env.w), instanceId, credentials, bucketName), r)
    {
      ghost var start := env.trace;
      ghost var l := ListStep(env.w, bucketName, instanceId);
      var keys := s3Manager.ListObjectsForKey(env, instanceId);
      ghost var prelude := [S3ClientCreated(credentials)] + l.events;
      assert env.w == l.world && keys == l.result && env.trace == start + prelude;
      if keys.Err? {
        r := Err(keys.error);
        assert FetchAllStep(old(env.w), instanceId, credentials, bucketName) == Step(r, l.world, prelude);
      } else {
        ghost var g := GetFilesStep(l.world, bucketName, l.result.value);
        var result := s3Manager.GetFiles(env, keys.value);
        AppendAssoc(start, prelude, g.events);
        r := if result.Err? then Err(result.error) else Ok(None);
        assert FetchAllStep(old(env.w), instanceId, credentials, bucketName) == Step(r, g.world, prelude + g.events);
      }
    }

    method GetRekallProfileName(env: Env) returns (r: Result<Option<string>, Fault>)
      ensures r == ProfileName(env.w, instanceId)
    {
      var listing := env.ListDir(TempDir(instanceId));
      if listing.None? {
        return Err(NoSuchDirectory(TempDir(instanceId)));
      }
      var names := listing.value;
      for i := 0 to |names|
        invariant forall k :: 0 <= k < i ==> !EndsWith(names[k], ".zip")
      {
        if EndsWith(names[i], ".zip") {
          FirstZipAt(names, i);
          return Ok(Some(names[i]));
        }
      }
      r := Ok(None);
    }

    method RunAContainer(env: Env, command: string, volumes: map<string, Bind>) returns (container: nat)
      modifies env
      ensures env.Performed(StartStep(old(env.w), dockerImage, command, volumes), Ok(container))
    {
      container := env.RunContainer(dockerImage, command, volumes);
    }

    /** The rule-file loop (lines 119-129): a command is built for each file in turn and only the
        last one is kept; splitting a missing profile name raises on the first file. */
    method BuildYaraCommand(profileName: Option<string>, files: seq<string>) returns (r: Result<string, Fault>)
      requires |files| > 0
      ensures profileName.None? ==> r == Err(NoneHasNoSplit)
      ensures profileName.Some? ==> r == Ok(YaraCommand(ProfileStem(profileName.value), files[|files| - 1], instanceId))
    {
      var command := "";
      for i := 0 to |files|
        invariant i > 0 ==> profileName.Some? && command == YaraCommand(ProfileStem(profileName.value), files[i - 1], instanceId)
      {
        if profileName.None? {
          return Err(NoneHasNoSplit);
        }
        command := YaraCommand(ProfileStem(profileName.value), files[i], instanceId);
      }
      r := Ok(command);
    }

    /** Lines 130-141: run the scan, wait for it, read its logs, remove it. */
    method RunScanContainer(env: Env, command: string, yaraFileDir: string)
      modifies env
      ensures var h := old(env.w.nextContainer);
              && env.w == old(env.w).(nextContainer := h + 1)
              && env.trace == old(env.trace) + [ContainerStarted(h, DockerImage, command, YaraVolumes(instanceId, yaraFileDir)),
                                                ContainerWaited(h, WaitTimeout), LogsFetched(h), ContainerRemoved(h)]
    {
      var container := RunAContainer(env, command, YaraVolumes(instanceId, yaraFileDir));
      env.WaitContainer(container, WaitTimeout);
      var logs := env.ContainerLogs(container);
      env.RemoveContainer(container);
    }

    method RunYaraScan(env: Env) returns (r: Result<(), Fault>)
      modifies env
      ensures env.Performed(YaraStep(old(env.w), instanceId, config), r)
    {
      var yaraFileDir := Lookup(config.yaraFileDir, DefaultYaraFileDir);
      var rekallProfileName := GetRekallProfileName(env);
      if rekallProfileName.Err? {
        return Err(rekallProfileName.error);
      }
      var listing := env.ListDir(yaraFileDir);
      if listing.Some? && |listing.value| != 0 {
        var command := BuildYaraCommand(rekallProfileName.value, listing.value);
        if command.Err? {
          return Err(command.error);
        }
        RunScanContainer(env, command.value, yaraFileDir);
      }
      r := Ok(());
    }

    /** The launch loop (lines 165-183): one container per plugin, in plugin order. */
    method LaunchPlugins(env: Env, stem: string) returns (pluginContainers: seq<(string, nat)>)
      modifies env
      ensures |pluginContainers| == |rekallPlugins|
      ensures forall k :: 0 <= k < |pluginContainers| ==>
        pluginContainers[k] == (rekallPlugins[k], old(env.w.nextContainer) + k)
      ensures env.w == old(env.w).(nextContainer := old(env.w.nextContainer) + |rekallPlugins|)
      ensures env.trace == old(env.trace) + LaunchEvents(old(env.w.nextContainer), stem, instanceId, rekallPlugins)
    {
      ghost var first := env.w.nextContainer;
      pluginContainers := [];
      for i := 0 to |rekallPlugins|
        invariant |pluginContainers| == i
        invariant forall k :: 0 <= k < i ==> pluginContainers[k] == (rekallPlugins[k], first + k)
        invariant env.w == old(env.w).(nextContainer := first + i)
        invariant env.trace == old(env.trace) + LaunchEvents(first, stem, instanceId, rekallPlugins[..i])
      {
        var plugin := rekallPlugins[i];
        var handle := RunAContainer(env, PluginCommand(stem, plugin, instanceId), FilesVolume(instanceId));
        pluginContainers := pluginContainers + [(plugin, handle)];
        assert LaunchEvents(first, stem, instanceId, rekallPlugins[..i + 1])
            == LaunchEvents(first, stem, instanceId, rekallPlugins[..i])
               + [ContainerStarted(first + i, DockerImage, PluginCommand(stem, plugin, instanceId), FilesVolume(instanceId))];
      }
      assert rekallPlugins[..|rekallPlugins|] == rekallPlugins;
    }

    /** The result loop (lines 188-193): wait on each container, keep its logs, remove it. */
    method ReapPlugins(env: Env, pluginContainers: seq<(string, nat)>, ghost first: nat) returns (logs: seq<LogBlob>)
      requires forall k :: 0 <= k < |pluginContainers| ==> pluginContainers[k].1 == first + k
      modifies env
      ensures logs == LogList(first, |pluginContainers|)
      ensures env.Emitted(ReapEvents(first, |pluginContainers|))
    {
      logs := [];
      for i := 0 to |pluginContainers|
        invariant logs == LogList(first, i)
        invariant env.w == old(env.w)
        invariant env.trace == old(env.trace) + ReapEvents(first, i)
      {
        var handle := pluginContainers[i].1;
        env.WaitContainer(handle, WaitTimeout);
        var output := env.ContainerLogs(handle);
        logs := logs + [output];
        env.RemoveContainer(handle);
      }
    }

    /** The upload loop (lines 195-199), with the storage manager made at line 186: one `put_file` per
        plugin output. */
    method UploadOutputs(env: Env)
      modifies env
      ensures env.Emitted([S3ClientCreated(credentials)] + UploadEvents(instanceId, bucketName, rekallPlugins))
    {
      var s3Manager := new S3Manager(credentials, bucketName);
      for i := 0 to |rekallPlugins|
        invariant s3Manager.s3Client == (if i == 0 then None else Some(S3Client(credentials)))
        invariant env.w == old(env.w)
        invariant env.trace == old(env.trace) + (if i == 0 then [] else [S3ClientCreated(credentials)])
                               + UploadEvents(instanceId, bucketName, rekallPlugins[..i])
      {
        var uploaded := s3Manager.PutFile(env, OutputPath(instanceId, rekallPlugins[i]), instanceId);
        assert UploadEvents(instanceId, bucketName, rekallPlugins[..i + 1])
            == UploadEvents(instanceId, bucketName, rekallPlugins[..i])
               + [FileUploaded(OutputPath(instanceId, rekallPlugins[i]), bucketName, OutputKey(instanceId, rekallPlugins[i]))];
      }
      assert rekallPlugins[..|rekallPlugins|] == rekallPlugins;
    }

    /** Lines 149-160: the profile conversion container is run, stopped and removed. */
    method ConvertProfile(env: Env, name: string) returns (container: nat)
      modifies env
      ensures container == old(env.w.nextContainer)
      ensures env.w == old(env.w).(nextContainer := container + 1)
      ensures env.trace == old(env.trace) + [ContainerStarted(container, DockerImage, ConvertCommand(name), FilesVolume(instanceId)),
                                             ContainerStopped(container), ContainerRemoved(container)]
    {
      container := RunAContainer(env, ConvertCommand(name), FilesVolume(instanceId));
      env.StopContainer(container);
      env.RemoveContainer(container);
    }

    /** Lines 149-199 once the profile name is known: conversion, launches, results, uploads. */
    method ConvertAndRunPlugins(env: Env, name: string) returns (logs: seq<LogBlob>)
      modifies env
      ensures logs == LogList(old(env.w.nextContainer) + 1, |RekallPlugins|)
      ensures env.w == old(env.w).(nextContainer := old(env.w.nextContainer) + 1 + |RekallPlugins|)
      ensures env.trace == old(env.trace) + PluginEvents(old(env.w.nextContainer), name, instanceId, credentials, bucketName)
    {
      ghost var t0 := env.trace;
      var container := ConvertProfile(env, name);
      ghost var convert := env.trace[|t0|..];
      var pluginContainers := LaunchPlugins(env, ProfileStem(name));
      ghost var launches := LaunchEvents(container + 1, ProfileStem(name), instanceId, RekallPlugins);
      logs := ReapPlugins(env, pluginContainers, container + 1);
      ghost var reaps := ReapEvents(container + 1, |RekallPlugins|);
      UploadOutputs(env);
      ghost var uploads := [S3ClientCreated(credentials)] + UploadEvents(instanceId, bucketName, RekallPlugins);
      assert env.trace == t0 + convert + launches + reaps + uploads;
      assert PluginEvents(container, name, instanceId, credentials, bucketName) == convert + launches + reaps + uploads;
      AppendAssoc(t0, convert + launches + reaps, uploads);
      AppendAssoc(t0, convert + launches, reaps);
      AppendAssoc(t0, convert, launches);
    }

    method RunRekallPlugins(env: Env) returns (r: Result<seq<LogBlob>, Fault>)
      modifies env
      ensures env.Performed(PluginsStep(old(env.w), instanceId, credentials, bucketName, config), r)
    {
      var rekallProfileName := GetRekallProfileName(env);
      if rekallProfileName.Err? {
        return Err(rekallProfileName.error);
      }
      if rekallProfileName.value.None? {
        return Err(NoneHasNoSplit);
      }
      var logs := ConvertAndRunPlugins(env, rekallProfileName.value.value);
      var yara := RunYaraScan(env);
      // The scan's error would propagate, but it has none here (`YaraAfterProfile`).
      r := Ok(logs);
    }
  }

  lemma FirstZipAt(names: seq<string>, i: nat)
    requires i < |names| && EndsWith(names[i], ".zip")
    requires forall k :: 0 <= k < i ==> !EndsWith(names[k], ".zip")
    ensures FirstZip(names) == Some(names[i])
  {
    var r := FirstZip(names);
    assert r.Some?;
    ghost var j :| && 0 <= j < |names| && names[j] == r.value && EndsWith(r.value, ".zip")
                   && forall k :: 0 <= k < j ==> !EndsWith(names[k], ".zip");
    assert j == i;
  }
  // ---------------------------------------------------------------------------------------------
  // Properties

  /** Every listed key is stored in the bucket, so downloading a listing never hits a missing key. */
  lemma {:induction false} ListedKeysStored(objects: seq<S3Object>, prefix: string)
    ensures forall k :: k in Listing(objects, prefix) ==> Body(objects, k).Some?
  {
    if objects != [] {
      ListedKeysStored(objects[1..], prefix);
      forall k | k in Listing(objects, prefix) ensures Body(objects, k).Some? {
        if objects[0].key != k {
          assert k in Listing(objects[1..], prefix);
        }
      }
    }
  }

  function LocalPaths(keys: seq<string>): set<string> {
    set k | k in keys :: LocalPath(k)
  }

  lemma LocalPathInjective(a: string, b: string)
    requires LocalPath(a) == LocalPath(b)
    ensures a == b
  {
    assert a == LocalPath(a)[5..] && b == LocalPath(b)[5..];
  }

  /** The world after writing each key's body at `/tmp/<key>`, in order. */
  function StoredWorld(w: World, keys: seq<string>): World
    requires forall k :: k in keys ==> Body(w.objects, k).Some?
    decreases |keys|
  {
    if keys == [] then w
    else StoredWorld(WriteStep(w, LocalPath(keys[0]), Body(w.objects, keys[0]).value), keys[1..])
  }

  /** Downloading keys that are all in the bucket completes, with one `get_object` and one file
      write per key, in order. */
  lemma {:induction false} FetchStored(w: World, bucket: string, keys: seq<string>)
    requires forall k :: k in keys ==> Body(w.objects, k).Some?
    ensures FetchStep(w, bucket, keys) == Step(Ok(()), StoredWorld(w, keys), FetchEvents(bucket, keys))
    decreases |keys|
  {
    if keys != [] {
      var body := Body(w.objects, keys[0]).value;
      assert GetObjectStep(w, bucket, keys[0]) == Step(Ok(body), w, [ObjectFetched(bucket, keys[0])]);
      FetchStored(WriteStep(w, LocalPath(keys[0]), body), bucket, keys[1..]);
      assert [ObjectFetched(bucket, keys[0])] + [FileWritten(LocalPath(keys[0]))]
          == [ObjectFetched(bucket, keys[0]), FileWritten(LocalPath(keys[0]))];
    }
  }

  /** After the writes every key's body is at `/tmp/<key>` (a key listed twice is written twice with
      the same body), every other file is as before, and nothing but the files and the directory
      listings has changed. */
  lemma {:induction false} StoredFiles(w: World, keys: seq<string>)
    requires forall k :: k in keys ==> Body(w.objects, k).Some?
    ensures var r := StoredWorld(w, keys);
            && r.(files := w.files, dirs := w.dirs) == w
            && r.files.Keys == w.files.Keys + LocalPaths(keys)
            && (forall k :: k in keys ==> r.files[LocalPath(k)] == Body(w.objects, k).value)
            && (forall p :: p in w.files && p !in LocalPaths(keys) ==> r.files[p] == w.files[p])
    decreases |keys|
  {
    if keys != [] {
      var k0 := keys[0];
      var w1 := WriteStep(w, LocalPath(k0), Body(w.objects, k0).value);
      StoredFiles(w1, keys[1..]);
      var r := StoredWorld(w, keys);
      assert LocalPaths(keys) == {LocalPath(k0)} + LocalPaths(keys[1..]) by {
        assert forall k :: k in keys <==> k == k0 || k in keys[1..];
      }
      forall k | k in keys ensures r.files[LocalPath(k)] == Body(w.objects, k).value {
        if k !in keys[1..] {
          if LocalPath(k) in LocalPaths(keys[1..]) {
            var k' :| k' in keys[1..] && LocalPath(k') == LocalPath(k);
            LocalPathInjective(k', k);
          }
        }
      }
    }
  }

  /** After the writes an existing directory lists what it listed before and the name of every
      downloaded file that is directly in it. */
  lemma {:induction false} StoredListing(w: World, keys: seq<string>, dir: string)
    requires forall k :: k in keys ==> Body(w.objects, k).Some?
    requires dir in w.dirs
    ensures var r := StoredWorld(w, keys);
            && dir in r.dirs
            && forall n :: n in r.dirs[dir] <==>
                 n in w.dirs[dir] || (n != "" && exists k :: k in keys && ParentAndName(LocalPath(k)) == (dir, n))
    decreases |keys|
  {
    if keys != [] {
      var k0 := keys[0];
      var w1 := WriteStep(w, LocalPath(k0), Body(w.objects, k0).value);
      EnteredListing(w.dirs, LocalPath(k0));
      StoredListing(w1, keys[1..], dir);
      var r := StoredWorld(w, keys);
      forall n ensures n in r.dirs[dir] <==>
                 n in w.dirs[dir] || (n != "" && exists k :: k in keys && ParentAndName(LocalPath(k)) == (dir, n))
      {
        if n != "" && exists k :: k in keys && ParentAndName(LocalPath(k)) == (dir, n) {
          var k :| k in keys && ParentAndName(LocalPath(k)) == (dir, n);
          if k != k0 {
            assert k in keys[1..];
          }
        }
        if n != "" && exists k :: k in keys[1..] && ParentAndName(LocalPath(k)) == (dir, n) {
          var k :| k in keys[1..] && ParentAndName(LocalPath(k)) == (dir, n);
          assert k in keys;
        }
      }
    }
  }

  /** A downloaded file is directly in an instance's working area exactly when its key is the
      instance id, '/', and a name without '/'. */
  lemma WorkingAreaEntry(instanceId: string, key: string, name: string)
    ensures ParentAndName(LocalPath(key)) == (TempDir(instanceId), name) <==> '/' !in name && key == instanceId + "/" + name
  {
    if '/' !in name && key == instanceId + "/" + name {
      assert LocalPath(key) == TempDir(instanceId) + "/" + name;
      ParentAndNameOf(TempDir(instanceId), name);
    }
    if ParentAndName(LocalPath(key)) == (TempDir(instanceId), name) {
      assert '/' in LocalPath(key) by { assert LocalPath(key)[0] == '/'; }
      assert LocalPath(key) == "/tmp/" + (instanceId + "/" + name);
      LocalPathInjective(key, instanceId + "/" + name);
    }
  }

  /** `download_incident_data`, case by case: a populated working area is used without touching the
      bucket; a working area whose parent directory is missing stops the download at `os.mkdir` with
      FileNotFoundError, before the bucket is touched; a rejected listing ends in ClientError and an instance with no objects in TypeError,
      each after the listing; otherwise exactly one `get_object` per listed key, in listing order,
      and each key's body is stored at `/tmp/<key>`. */
  lemma DownloadOutcome(w: World, instanceId: string, credentials: Credentials, bucket: string)
    ensures var s := DownloadStep(w, instanceId, credentials, bucket);
            var dir := TempDir(instanceId);
            var keys := Listing(w.objects, instanceId);
            var parent := ParentAndName(dir).0;
            var made := CreateDirStep(w, instanceId).world;
            var prelude := [DirectoryMade(dir), S3ClientCreated(credentials), ObjectsListed(bucket, instanceId)];
            if dir in w.dirs && |w.dirs[dir]| != 0 then
              s == Step(Ok(Some(w.dirs[dir])), w, [])
            else if dir !in w.dirs && dir !in w.files && parent !in w.dirs then
              s == Step(Err(NoSuchDirectory(parent)), w, [DirectoryMade(dir)])
            else if w.listingDenied then
              s == Step(Err(ClientError), made, prelude)
            else if keys == [] then
              s == Step(Err(NotIterable), made, prelude)
            else
              && s.result == Ok(None)
              && s.events == prelude + FetchEvents(bucket, keys)
              && s.world.objects == w.objects && s.world.nextContainer == w.nextContainer
              && (forall k :: k in keys ==>
                    && LocalPath(k) in s.world.files && Body(w.objects, k).Some?
                    && s.world.files[LocalPath(k)] == Body(w.objects, k).value)
  {
    var dir := TempDir(instanceId);
    var keys := Listing(w.objects, instanceId);
    var parent := ParentAndName(dir).0;
    if dir in w.dirs && |w.dirs[dir]| != 0 {
    } else if dir !in w.dirs && dir !in w.files && parent !in w.dirs {
      assert CreateDirStep(w, instanceId) == Step(Err(NoSuchDirectory(parent)), w, [DirectoryMade(dir)]);
    } else {
      var c := CreateDirStep(w, instanceId);
      assert c.result == Ok(()) && c.world.objects == w.objects && c.world.listingDenied == w.listingDenied;
      var f := FetchAllStep(c.world, instanceId, credentials, bucket);
      assert DownloadStep(w, instanceId, credentials, bucket) == Step(f.result, f.world, [DirectoryMade(dir)] + f.events);
      var rest := [S3ClientCreated(credentials), ObjectsListed(bucket, instanceId)];
      assert [DirectoryMade(dir)] + rest == [DirectoryMade(dir), S3ClientCreated(credentials), ObjectsListed(bucket, instanceId)];
      if w.listingDenied {
        assert f == Step(Err(ClientError), c.world, rest);
      } else if keys == [] {
        assert f == Step(Err(NotIterable), c.world, rest);
      } else {
        DownloadFetches(w, instanceId, credentials, bucket);
        StoredFiles(c.world, keys);
      }
    }
  }

  /** The download proper: once the working area exists or can be made, and the bucket is listed
      and has keys for the instance, every key is fetched and stored in the world `mkdir` left. */
  lemma DownloadFetches(w: World, instanceId: string, credentials: Credentials, bucket: string)
    requires !(TempDir(instanceId) in w.dirs && |w.dirs[TempDir(instanceId)]| != 0)
    requires var dir := TempDir(instanceId); dir in w.dirs || dir in w.files || ParentAndName(dir).0 in w.dirs
    requires !w.listingDenied && Listing(w.objects, instanceId) != []
    ensures var dir := TempDir(instanceId);
            var keys := Listing(w.objects, instanceId);
            && (forall k :: k in keys ==> Body(w.objects, k).Some?)
            && DownloadStep(w, instanceId, credentials, bucket)
               == Step(Ok(None), StoredWorld(CreateDirStep(w, instanceId).world, keys),
                       [DirectoryMade(dir), S3ClientCreated(credentials), ObjectsListed(bucket, instanceId)]
                       + FetchEvents(bucket, keys))
  {
    var dir := TempDir(instanceId);
    var keys := Listing(w.objects, instanceId);
    var c := CreateDirStep(w, instanceId);
    assert c.result == Ok(()) && c.world.objects == w.objects && !c.world.listingDenied;
    ListedKeysStored(w.objects, instanceId);
    FetchAllStored(c.world, instanceId, credentials, bucket);
    var f := FetchAllStep(c.world, instanceId, credentials, bucket);
    assert DownloadStep(w, instanceId, credentials, bucket) == Step(f.result, f.world, [DirectoryMade(dir)] + f.events);
    var rest := [S3ClientCreated(credentials), ObjectsListed(bucket, instanceId)];
    AppendAssoc([DirectoryMade(dir)], rest, FetchEvents(bucket, keys));
    assert [DirectoryMade(dir)] + rest == [DirectoryMade(dir), S3ClientCreated(credentials), ObjectsListed(bucket, instanceId)];
    assert f.result == Ok(None);
    assert f.world == StoredWorld(CreateDirStep(w, instanceId).world, keys);
    assert [DirectoryMade(dir)] + f.events == [DirectoryMade(dir), S3ClientCreated(credentials), ObjectsListed(bucket, instanceId)] + FetchEvents(bucket, keys);
  }

  /** Listing a bucket that has keys for the instance and fetching them all. */
  lemma FetchAllStored(w: World, instanceId: string, credentials: Credentials, bucket: string)
    requires !w.listingDenied && Listing(w.objects, instanceId) != []
    ensures var keys := Listing(w.objects, instanceId);
            && (forall k :: k in keys ==> Body(w.objects, k).Some?)
            && FetchAllStep(w, instanceId, credentials, bucket)
            == Step(Ok(None), StoredWorld(w, keys), [S3ClientCreated(credentials), ObjectsListed(bucket, instanceId)] + FetchEvents(bucket, keys))
  {
    var keys := Listing(w.objects, instanceId);
    var l := ListStep(w, bucket, instanceId);
    assert l.result == Ok(Some(keys)) && l.world == w;
    ListedKeysStored(w.objects, instanceId);
    FetchStored(w, bucket, keys);
    assert [S3ClientCreated(credentials)] + l.events == [S3ClientCreated(credentials), ObjectsListed(bucket, instanceId)];
  }

  /** After a download into an empty working area, or a new one whose parent exists (one not blocked
      by a plain file), the area
      lists the names of exactly the keys `<instance id>/<name>`; a key the prefix matches that is
      not of that form (`<instance id>.log`, `<instance id>0/x`) is not listed there. */
  lemma DownloadListing(w: World, instanceId: string, credentials: Credentials, bucket: string)
    ensures var s := DownloadStep(w, instanceId, credentials, bucket);
            var dir := TempDir(instanceId);
            var keys := Listing(w.objects, instanceId);
            && !(dir in w.dirs && |w.dirs[dir]| != 0) && !w.listingDenied && keys != []
            && (dir in w.dirs || (dir !in w.files && ParentAndName(dir).0 in w.dirs)) ==>
              && dir in s.world.dirs
              && forall n :: n in s.world.dirs[dir] <==> n != "" && '/' !in n && instanceId + "/" + n in keys
  {
    var dir := TempDir(instanceId);
    var keys := Listing(w.objects, instanceId);
    if && !(dir in w.dirs && |w.dirs[dir]| != 0) && !w.listingDenied && keys != []
       && (dir in w.dirs || (dir !in w.files && ParentAndName(dir).0 in w.dirs)) {
      var w1 := CreateDirStep(w, instanceId).world;
      DownloadFetches(w, instanceId, credentials, bucket);
      var r := StoredWorld(w1, keys);
      assert dir in w1.dirs && w1.dirs[dir] == [];
      StoredListing(w1, keys, dir);
      forall n ensures n in r.dirs[dir] <==> n != "" && '/' !in n && instanceId + "/" + n in keys {
        if n != "" && exists k :: k in keys && ParentAndName(LocalPath(k)) == (dir, n) {
          var k :| k in keys && ParentAndName(LocalPath(k)) == (dir, n);
          WorkingAreaEntry(instanceId, k, n);
        }
        if n != "" && '/' !in n && instanceId + "/" + n in keys {
          WorkingAreaEntry(instanceId, instanceId + "/" + n, n);
        }
      }
    }
  }

  /** The events of `run_rekall_plugins` before the yara scan, phase by phase: the conversion
      container is run, stopped and removed first; then the five plugin containers are launched,
      in plugin order, with the next handles; then each is waited on with the 600-second timeout,
      its logs read and removed, in the same order; then one storage client and one upload per
      plugin output, in plugin order. */
  lemma PluginEventsInOrder(h: nat, name: string, instanceId: string, credentials: Credentials, bucket: string)
    ensures var e := PluginEvents(h, name, instanceId, credentials, bucket);
            && |e| == 29
            && e[..3] == [ContainerStarted(h, DockerImage, ConvertCommand(name), FilesVolume(instanceId)),
                          ContainerStopped(h), ContainerRemoved(h)]
            && e[3..8] == LaunchEvents(h + 1, ProfileStem(name), instanceId, RekallPlugins)
            && e[8..23] == ReapEvents(h + 1, 5)
            && e[23] == S3ClientCreated(credentials)
            && e[24..] == UploadEvents(instanceId, bucket, RekallPlugins)
  {
    var convert := [ContainerStarted(h, DockerImage, ConvertCommand(name), FilesVolume(instanceId)), ContainerStopped(h), ContainerRemoved(h)];
    var launches := LaunchEvents(h + 1, ProfileStem(name), instanceId, RekallPlugins);
    var reaps := ReapEvents(h + 1, 5);
    var uploads := UploadEvents(instanceId, bucket, RekallPlugins);
    var e := PluginEvents(h, name, instanceId, credentials, bucket);
    assert e == convert + launches + reaps + ([S3ClientCreated(credentials)] + uploads);
  }

  /** All of `run_rekall_plugins` once a profile name is found: the events above, then the yara
      scan's; the logs returned are those of the plugin containers, in plugin order. */
  lemma PluginRunOrder(w: World, instanceId: string, credentials: Credentials, bucket: string, config: Config)
    requires ProfileName(w, instanceId).Ok? && ProfileName(w, instanceId).value.Some?
    ensures var s := PluginsStep(w, instanceId, credentials, bucket, config);
            var h := w.nextContainer;
            && s.result.Ok? && |s.result.value| == |RekallPlugins|
            && (forall i :: 0 <= i < |RekallPlugins| ==> s.result.value[i] == LogsOf(h + 1 + i))
            && s.events == PluginEvents(h, ProfileName(w, instanceId).value.value, instanceId, credentials, bucket)
                           + YaraStep(w.(nextContainer := h + 6), instanceId, config).events
  {
  }

  predicate IsContainerStart(e: Event) { e.ContainerStarted? }

  predicate IsContainerWait(e: Event) { e.ContainerWaited? }

  /** No plugin container is launched after any container has been waited on: all five are
      running before the first wait. */
  lemma LaunchesPrecedeWaits(w: World, instanceId: string, credentials: Credentials, bucket: string, config: Config)
    requires ProfileName(w, instanceId).Ok? && ProfileName(w, instanceId).value.Some?
    ensures var e := PluginsStep(w, instanceId, credentials, bucket, config).events;
            var h := w.nextContainer;
            forall a, b :: (0 <= a < |e| && 0 <= b < |e| && IsContainerWait(e[a]) && IsContainerStart(e[b])
                            && h < e[b].container <= h + |RekallPlugins|) ==> b < a
  {
    PluginRunOrder(w, instanceId, credentials, bucket, config);
    EventPositions(w.nextContainer, ProfileName(w, instanceId).value.value, instanceId, credentials, bucket,
                   YaraStep(w.(nextContainer := w.nextContainer + 6), instanceId, config).events);
  }

  /** In the plugin events followed by the yara scan's, the plugin containers are started at
      positions 3 to 7 and nothing is waited on before position 8. */
  lemma EventPositions(h: nat, name: string, instanceId: string, credentials: Credentials, bucket: string, y: seq<Event>)
    requires forall i :: 0 <= i < |y| && IsContainerStart(y[i]) ==> y[i].container == h + 6
    ensures var e := PluginEvents(h, name, instanceId, credentials, bucket) + y;
            && (forall b :: 0 <= b < |e| && IsContainerStart(e[b]) && h < e[b].container <= h + 5 ==> 3 <= b < 8)
            && (forall a :: 0 <= a < |e| && IsContainerWait(e[a]) ==> 8 <= a)
  {
    PluginEventsInOrder(h, name, instanceId, credentials, bucket);
    ReapKinds(h + 1, 5);
  }

  /** The reaping events are waits, log reads and removals only. */
  lemma {:induction false} ReapKinds(first: nat, n: nat)
    ensures forall i :: 0 <= i < |ReapEvents(first, n)| ==> IsReapOf(ReapEvents(first, n)[i], first, n)
  {
    if n > 0 {
      ReapKinds(first, n - 1);
      var last := [ContainerWaited(first + n - 1, WaitTimeout), LogsFetched(first + n - 1), ContainerRemoved(first + n - 1)];
      assert ReapEvents(first, n) == ReapEvents(first, n - 1) + last;
    }
  }

  /** The yara scan only ever starts its one container, with the next fresh handle. */
  lemma YaraHandles(w: World, instanceId: string, config: Config)
    ensures var e := YaraStep(w, instanceId, config).events;
            forall i :: 0 <= i < |e| && IsContainerStart(e[i]) ==> e[i].container == w.nextContainer
  {
  }

  /** How many times `x` occurs in `events`. */
  function Count(events: seq<Event>, x: Event): nat {
    if events == [] then 0 else Count(events[..|events| - 1], x) + (if events[|events| - 1] == x then 1 else 0)
  }

  lemma {:induction false} CountConcat(a: seq<Event>, b: seq<Event>, x: Event)
    ensures Count(a + b, x) == Count(a, x) + Count(b, x)
    decreases |b|
  {
    if b == [] {
      assert a + b == a;
    } else {
      assert (a + b)[..|a + b| - 1] == a + b[..|b| - 1];
      CountConcat(a, b[..|b| - 1], x);
    }
  }

  lemma {:induction false} CountAbsent(events: seq<Event>, x: Event)
    requires x !in events
    ensures Count(events, x) == 0
    decreases |events|
  {
    if events != [] {
      assert x !in events[..|events| - 1];
      CountAbsent(events[..|events| - 1], x);
    }
  }

  /** `x` is the wait (with the 600-second timeout), the logs or the removal of one of the
      containers `first`, ..., `first + n - 1`. */
  predicate IsReapOf(x: Event, first: nat, n: nat) {
    && ((x.ContainerWaited? && x.timeout == WaitTimeout) || x.LogsFetched? || x.ContainerRemoved?)
    && first <= x.container < first + n
  }

  lemma Count3(a: Event, b: Event, c: Event, x: Event)
    ensures Count([a, b, c], x) == (if a == x then 1 else 0) + (if b == x then 1 else 0) + (if c == x then 1 else 0)
  {
    assert [a, b, c][..2] == [a, b] && [a, b][..1] == [a] && [a][..0] == [];
    assert Count([a], x) == (if a == x then 1 else 0);
    assert Count([a, b], x) == Count([a], x) + (if b == x then 1 else 0);
  }

  /** Each plugin container is waited on, has its logs read and is removed exactly once, and
      nothing else happens while the results are collected. */
  lemma {:induction false} ReapCount(first: nat, n: nat, x: Event)
    ensures Count(ReapEvents(first, n), x) == if IsReapOf(x, first, n) then 1 else 0
  {
    if n > 0 {
      var h := first + n - 1;
      var last := [ContainerWaited(h, WaitTimeout), LogsFetched(h), ContainerRemoved(h)];
      assert ReapEvents(first, n) == ReapEvents(first, n - 1) + last;
      CountConcat(ReapEvents(first, n - 1), last, x);
      ReapCount(first, n - 1, x);
      Count3(last[0], last[1], last[2], x);
    }
  }

  /** `put_file` uploads each plugin's output under `<id>/<plugin>-<id>-output.json` when the
      instance id contains no '/'. */
  lemma UploadKeys(instanceId: string)
    requires '/' !in instanceId
    ensures forall i :: 0 <= i < |RekallPlugins| ==>
      OutputKey(instanceId, RekallPlugins[i]) == instanceId + "/" + RekallPlugins[i] + "-" + instanceId + "-output.json"
  {
    forall i | 0 <= i < |RekallPlugins|
      ensures OutputKey(instanceId, RekallPlugins[i]) == instanceId + "/" + RekallPlugins[i] + "-" + instanceId + "-output.json"
    {
      assert '/' !in RekallPlugins[i] by {
        assert RekallPlugins[i] in {"psaux", "pstree", "netstat", "ifconfig", "pidhashtable"};
      }
      UploadKeyOfOutput(instanceId, RekallPlugins[i]);
    }
  }

  /** What a plugin container writes is the host file that is uploaded: the command's output path
      is the output name under the mount point of the working area, and the upload path is the
      same name under the working area itself. */
  lemma OutputCrossesMount(stem: string, plugin: string, instanceId: string)
    ensures var mount := FilesVolume(instanceId)[TempDir(instanceId)];
            && EndsWith(PluginCommand(stem, plugin, instanceId), "--output=" + ContainerOutputPath(plugin, instanceId))
            && ContainerOutputPath(plugin, instanceId) == mount.bind + "/" + OutputName(plugin, instanceId)
            && OutputPath(instanceId, plugin) == TempDir(instanceId) + "/" + OutputName(plugin, instanceId)
  {
    assert "/files/" + OutputName(plugin, instanceId) == "/files" + "/" + OutputName(plugin, instanceId);
  }

  function Starts(events: seq<Event>): seq<Event> { Filter(events, IsContainerStart) }

  /** The yara scan starts no container when the rule directory is missing or empty, and exactly
      one however many rule files there are, built from the last one listed, otherwise. */
  lemma YaraStartsAtMostOne(w: World, instanceId: string, config: Config)
    requires ProfileName(w, instanceId).Ok?
    ensures var s := YaraStep(w, instanceId, config);
            var dir := Lookup(config.yaraFileDir, DefaultYaraFileDir);
            var profile := ProfileName(w, instanceId).value;
            if dir in w.dirs && |w.dirs[dir]| != 0 && profile.Some? then
              var files := w.dirs[dir];
              Starts(s.events) == [ContainerStarted(w.nextContainer, DockerImage,
                                                    YaraCommand(ProfileStem(profile.value), files[|files| - 1], instanceId),
                                                    YaraVolumes(instanceId, dir))]
            else Starts(s.events) == []
  {
    var e := YaraStep(w, instanceId, config).events;
    if e != [] {
      assert Starts(e) == [e[0]] + Starts(e[1..]);
      NoStarts(e[1..]);
    }
  }

  lemma {:induction false} NoStarts(events: seq<Event>)
    requires forall i :: 0 <= i < |events| ==> !IsContainerStart(events[i])
    ensures Starts(events) == []
  {
    if events != [] {
      NoStarts(events[1..]);
    }
  }

  /** The two volumes of the yara container are one when the rule directory is the working area. */
  lemma YaraVolumesCollapse(instanceId: string, yaraFileDir: string)
    ensures |YaraVolumes(instanceId, yaraFileDir).Keys| == (if yaraFileDir == TempDir(instanceId) then 1 else 2)
  {
    var m := YaraVolumes(instanceId, yaraFileDir);
    if yaraFileDir == TempDir(instanceId) {
      assert m.Keys == {yaraFileDir};
    } else {
      assert m.Keys == {TempDir(instanceId), yaraFileDir};
    }
  }
  /** The kinds of event the analysis stage emits: object storage, local files, Docker. */
  predicate IsAnalysisEvent(e: Event) {
    || IsStorageCall(e) || e.DirectoryMade? || e.FileWritten? || e.DockerConnected?
    || e.ContainerStarted? || e.ContainerStopped? || e.ContainerWaited? || e.LogsFetched? || e.ContainerRemoved?
  }

  lemma {:induction false} FetchEventKinds(w: World, bucket: string, keys: seq<string>)
    ensures forall e :: e in FetchStep(w, bucket, keys).events ==> e.ObjectFetched? || e.FileWritten?
    decreases |keys|
  {
    if keys != [] {
      var g := GetObjectStep(w, bucket, keys[0]);
      if g.result.Ok? {
        FetchEventKinds(WriteStep(g.world, LocalPath(keys[0]), g.result.value), bucket, keys[1..]);
      }
    }
  }

  /** `download_incident_data` only talks to object storage and the local file system. */
  lemma DownloadEventKinds(w: World, instanceId: string, credentials: Credentials, bucket: string)
    ensures forall e :: e in DownloadStep(w, instanceId, credentials, bucket).events ==> IsAnalysisEvent(e)
  {
    var c := CreateDirStep(w, instanceId);
    var l := ListStep(c.world, bucket, instanceId);
    if c.result.Ok? && l.result.Ok? && l.result.value.Some? {
      FetchEventKinds(l.world, bucket, l.result.value.value);
    }
  }

  /** `run_rekall_plugins` only talks to Docker, object storage and the local file system. */
  lemma PluginsEventKinds(w: World, instanceId: string, credentials: Credentials, bucket: string, config: Config)
    ensures forall e :: e in PluginsStep(w, instanceId, credentials, bucket, config).events ==> IsAnalysisEvent(e)
  {
    var profile := ProfileName(w, instanceId);
    if profile.Ok? && profile.value.Some? {
      var h := w.nextContainer;
      var name := profile.value.value;
      ReapKinds(h + 1, |RekallPlugins|);
      var launches := LaunchEvents(h + 1, ProfileStem(name), instanceId, RekallPlugins);
      var uploads := UploadEvents(instanceId, bucket, RekallPlugins);
      assert forall e :: e in launches ==> e.ContainerStarted?;
      assert forall e :: e in uploads ==> e.FileUploaded?;
    }
  }
}
