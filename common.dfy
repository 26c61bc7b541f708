/** ssm_acquire/common.py: the instance-scoped policy, the instance ARN, and the two remote-command
    primitives (dispatch a command plan, read its status once). */
module Common {
  import opened Wrappers
  import opened Strings
  import opened Environment

  const InstanceArnPrefix := "arn:aws:ec2:*:*:instance/"

  /** `generate_arn_for_instance`: the region is accepted and not used. */
  function GenerateArnForInstance(region: string, instanceId: string): (arn: string)
    ensures StartsWith(arn, InstanceArnPrefix) && arn[|InstanceArnPrefix|..] == instanceId
  {
    InstanceArnPrefix + instanceId
  }

  /** The ARN depends on the instance id alone, and different ids give different ARNs. */
  lemma InstanceArnDeterminesId(region1: string, id1: string, region2: string, id2: string)
    ensures GenerateArnForInstance(region1, id1) == GenerateArnForInstance(region2, id2) <==> id1 == id2
  {
    var a1, a2 := GenerateArnForInstance(region1, id1), GenerateArnForInstance(region2, id2);
    if a1 == a2 {
      assert id1 == a1[|InstanceArnPrefix|..] == a2[|InstanceArnPrefix|..] == id2;
    }
  }

  // ---------------------------------------------------------------------------------------------
  // The policy scoper (`get_limited_policy`)

  const PutObjectAction := "s3:PutObject"
  const SendActionPrefix := "ssm:Send"
  const BucketWideSid := "STMT4"

  function ObjectArn(bucket: string, instanceId: string): string { "arn:aws:s3:::" + bucket + "/" + instanceId }
  function ObjectKeysArn(bucket: string, instanceId: string): string { "arn:aws:s3:::" + bucket + "/" + instanceId + "/*" }
  function BucketArn(bucket: string): string { "arn:aws:s3:::" + bucket }
  function BucketKeysArn(bucket: string): string { "arn:aws:s3:::" + bucket + "/*" }

  /** The three rewrites, and "leave the statement alone". */
  datatype Rule = ObjectWrite | CommandSend | BucketWide | NoRule

  /** Which rewrite a statement gets, testing the conditions in the loop's order: first `Action`
      is `s3:PutObject`, else first `Action` starts with `ssm:Send`, else `Sid` is `STMT4`.
      An empty `Action` list raises IndexError; reading the absent `Sid` raises KeyError. */
  function RuleOf(st: Statement): Result<Rule, Fault> {
    if st.action == [] then Err(IndexError)
    else if st.action[0] == PutObjectAction then Ok(ObjectWrite)
    else if StartsWith(st.action[0], SendActionPrefix) then Ok(CommandSend)
    else if st.sid.None? then Err(KeyError("Sid"))
    else if st.sid.value == BucketWideSid then Ok(BucketWide)
    else Ok(NoRule)
  }

  /** One statement as the loop leaves it. Assigning `Resource[0]` or `Resource[1]` of a shorter
      list raises IndexError. */
  function Scope(st: Statement, bucket: string, instanceId: string, instanceArn: string): (r: Result<Statement, Fault>)
    ensures r.Ok? <==> RuleOf(st).Ok? && (RuleOf(st).value != NoRule ==> |st.resource| >= 2)
    ensures r.Err? ==> r.error == if RuleOf(st).Err? then RuleOf(st).error else IndexError
    ensures r.Ok? ==> && r.value.sid == st.sid && r.value.action == st.action
                      && |r.value.resource| == |st.resource|
                      && forall k :: 2 <= k < |st.resource| ==> r.value.resource[k] == st.resource[k]
    ensures r.Ok? && RuleOf(st).value == ObjectWrite ==>
      r.value.resource[0] == ObjectArn(bucket, instanceId) && r.value.resource[1] == ObjectKeysArn(bucket, instanceId)
    ensures r.Ok? && RuleOf(st).value == CommandSend ==>
      r.value.resource[0] == st.resource[0] && r.value.resource[1] == instanceArn
    ensures r.Ok? && RuleOf(st).value == BucketWide ==>
      r.value.resource[0] == BucketArn(bucket) && r.value.resource[1] == BucketKeysArn(bucket)
    ensures r.Ok? && RuleOf(st).value == NoRule ==> r.value == st
  {
    match RuleOf(st)
    case Err(e) => Err(e)
    case Ok(rule) =>
      if rule == NoRule then Ok(st)
      else if |st.resource| < 2 then Err(IndexError)
      else if rule == ObjectWrite then
        Ok(st.(resource := st.resource[0 := ObjectArn(bucket, instanceId)][1 := ObjectKeysArn(bucket, instanceId)]))
      else if rule == CommandSend then
        Ok(st.(resource := st.resource[1 := instanceArn]))
      else
        Ok(st.(resource := st.resource[0 := BucketArn(bucket)][1 := BucketKeysArn(bucket)]))
  }

  /** A scoped statement is scoped already: its rule is unchanged and the slots hold the values the
      rule writes. */
  lemma ScopeIdempotent(st: Statement, bucket: string, instanceId: string, instanceArn: string)
    requires Scope(st, bucket, instanceId, instanceArn).Ok?
    ensures var s := Scope(st, bucket, instanceId, instanceArn).value;
            Scope(s, bucket, instanceId, instanceArn) == Ok(s)
  {
    var s := Scope(st, bucket, instanceId, instanceArn).value;
    assert RuleOf(s) == RuleOf(st);
    var t := Scope(s, bucket, instanceId, instanceArn).value;
    assert t.resource == s.resource;
  }

  /** The whole statement list: same length, same order, each position scoped by itself; the first
      statement the loop cannot handle decides the exception. */
  function ScopeAll(statements: seq<Statement>, bucket: string, instanceId: string, instanceArn: string)
    : (r: Result<seq<Statement>, Fault>)
    ensures r.Ok? ==> (|r.value| == |statements| &&
      forall i :: 0 <= i < |statements| ==> Scope(statements[i], bucket, instanceId, instanceArn) == Ok(r.value[i]))
    ensures r.Err? ==> exists i ::
      && 0 <= i < |statements|
      && (forall k :: 0 <= k < i ==> Scope(statements[k], bucket, instanceId, instanceArn).Ok?)
      && Scope(statements[i], bucket, instanceId, instanceArn) == Err(r.error)
  {
    if statements == [] then Ok([])
    else
      match Scope(statements[0], bucket, instanceId, instanceArn)
      case Err(e) => Err(e)
      case Ok(first) =>
        match ScopeAll(statements[1..], bucket, instanceId, instanceArn)
        case Err(e) =>
          ghost var i :| 0 <= i < |statements| - 1 &&
            (forall k :: 0 <= k < i ==> Scope(statements[1..][k], bucket, instanceId, instanceArn).Ok?) &&
            Scope(statements[1..][i], bucket, instanceId, instanceArn) == Err(e);
          assert Scope(statements[i + 1], bucket, instanceId, instanceArn) == Err(e);
          Err(e)
        case Ok(rest) => Ok([first] + rest)
  }

  /** Exactly the statements that cannot be scoped make the whole rewrite fail. */
  lemma ScopeAllFailsIff(statements: seq<Statement>, bucket: string, instanceId: string, instanceArn: string)
    ensures ScopeAll(statements, bucket, instanceId, instanceArn).Err? <==>
      exists i :: 0 <= i < |statements| && Scope(statements[i], bucket, instanceId, instanceArn).Err?
  {
    var r := ScopeAll(statements, bucket, instanceId, instanceArn);
    if r.Ok? {
      forall i | 0 <= i < |statements| ensures Scope(statements[i], bucket, instanceId, instanceArn).Ok? {
        assert Scope(statements[i], bucket, instanceId, instanceArn) == Ok(r.value[i]);
      }
    }
  }

  /** The policy `get_limited_policy` builds from the freshly loaded template: reading the unset
      `asset_bucket` option raises before the loop. */
  function LimitedPolicy(config: Config, region: string, instanceId: string, template: seq<Statement>)
    : Result<seq<Statement>, Fault>
  {
    if config.assetBucket.None? then Err(ConfigurationMissing("asset_bucket"))
    else ScopeAll(template, config.assetBucket.value, instanceId, GenerateArnForInstance(region, instanceId))
  }

  /** `list.index(x)`: the first position holding a value equal to `x`. */
  function IndexOf<T(==)>(s: seq<T>, x: T): (j: nat)
    requires x in s
    ensures j < |s| && s[j] == x && forall k :: 0 <= k < j ==> s[k] != x
  {
    if s[0] == x then 0 else 1 + IndexOf(s[1..], x)
  }

  /** `get_limited_policy` up to the patched statement list (its `json.dumps` is not modelled).
      The template is copied into a fresh array, as `yaml.safe_load` builds a fresh list; each
      statement is located again with `list.index`, which finds the first EQUAL statement. The
      result is nonetheless the position-by-position rewrite for every template, distinct
      statements or not: an earlier equal statement has been rewritten already, so it is a fixed
      point of the rewrite and the statement at hand was one too. */
  method GetLimitedPolicy(config: Config, region: string, instanceId: string, template: seq<Statement>)
    returns (r: Result<seq<Statement>, Fault>)
    ensures r == LimitedPolicy(config, region, instanceId, template)
  {
    var instanceArn := GenerateArnForInstance(region, instanceId);
    if config.assetBucket.None? {
      return Err(ConfigurationMissing("asset_bucket"));
    }
    var bucket := config.assetBucket.value;
    var statements := new Statement[|template|](k requires 0 <= k < |template| => template[k]);
    var i := 0;
    while i < statements.Length
      invariant 0 <= i <= statements.Length == |template|
      invariant forall k :: 0 <= k < i ==> Scope(template[k], bucket, instanceId, instanceArn) == Ok(statements[k])
      invariant forall k :: i <= k < statements.Length ==> statements[k] == template[k]
    {
      var permission := statements[i];
      var scoped := Scope(permission, bucket, instanceId, instanceArn);
      if permission.action == [] {
        NoEarlierFailure(template, bucket, instanceId, instanceArn, i);
        return Err(IndexError);
      }
      var patched := permission;
      if permission.action[0] == PutObjectAction {
        if |permission.resource| < 2 {
          NoEarlierFailure(template, bucket, instanceId, instanceArn, i);
          return Err(IndexError);
        }
        patched := permission.(resource := permission.resource[0 := ObjectArn(bucket, instanceId)]
                                                             [1 := ObjectKeysArn(bucket, instanceId)]);
      } else if StartsWith(permission.action[0], SendActionPrefix) {
        if |permission.resource| < 2 {
          NoEarlierFailure(template, bucket, instanceId, instanceArn, i);
          return Err(IndexError);
        }
        patched := permission.(resource := permission.resource[1 := instanceArn]);
      } else if permission.sid.None? {
        NoEarlierFailure(template, bucket, instanceId, instanceArn, i);
        return Err(KeyError("Sid"));
      } else if permission.sid.value == BucketWideSid {
        if |permission.resource| < 2 {
          NoEarlierFailure(template, bucket, instanceId, instanceArn, i);
          return Err(IndexError);
        }
        patched := permission.(resource := permission.resource[0 := BucketArn(bucket)][1 := BucketKeysArn(bucket)]);
      }
      assert scoped == Ok(patched);
      if RuleOf(permission).value != NoRule {
        var recordIndex := IndexOf(statements[..], permission);
        if recordIndex < i {
          // the equal statement found first is already rewritten, so this one is a fixed point
          ScopeIdempotent(template[recordIndex], bucket, instanceId, instanceArn);
          assert patched == permission;
        }
        statements[recordIndex] := patched;
      }
      i := i + 1;
    }
    AllScoped(template, bucket, instanceId, instanceArn, statements[..]);
    return Ok(statements[..]);
  }

  /** If each of the first `i` statements scopes and statement `i` does not, the whole rewrite
      fails with statement `i`'s exception. */
  lemma {:induction false} NoEarlierFailure(statements: seq<Statement>, bucket: string, instanceId: string,
                                            instanceArn: string, i: nat)
    requires i < |statements|
    requires forall k :: 0 <= k < i ==> Scope(statements[k], bucket, instanceId, instanceArn).Ok?
    requires Scope(statements[i], bucket, instanceId, instanceArn).Err?
    ensures ScopeAll(statements, bucket, instanceId, instanceArn) == Err(Scope(statements[i], bucket, instanceId, instanceArn).error)
    decreases i
  {
    if i > 0 {
      assert Scope(statements[0], bucket, instanceId, instanceArn).Ok?;
      forall k | 0 <= k < i - 1 ensures Scope(statements[1..][k], bucket, instanceId, instanceArn).Ok? {
        assert statements[1..][k] == statements[k + 1];
      }
      NoEarlierFailure(statements[1..], bucket, instanceId, instanceArn, i - 1);
    }
  }

  /** If every statement scopes to the corresponding entry of `out`, the rewrite succeeds with `out`. */
  lemma {:induction false} AllScoped(statements: seq<Statement>, bucket: string, instanceId: string,
                                     instanceArn: string, out: seq<Statement>)
    requires |out| == |statements|
    requires forall k :: 0 <= k < |statements| ==> Scope(statements[k], bucket, instanceId, instanceArn) == Ok(out[k])
    ensures ScopeAll(statements, bucket, instanceId, instanceArn) == Ok(out)
    decreases |statements|
  {
    if statements != [] {
      forall k | 0 <= k < |statements| - 1
        ensures Scope(statements[1..][k], bucket, instanceId, instanceArn) == Ok(out[1..][k])
      {
        assert statements[1..][k] == statements[k + 1] && out[1..][k] == out[k + 1];
      }
      AllScoped(statements[1..], bucket, instanceId, instanceArn, out[1..]);
      assert out == [out[0]] + out[1..];
    }
  }

  // ---------------------------------------------------------------------------------------------
  // Remote commands (`run_command`, `check_status`)

  const RunShellScript := "AWS-RunShellScript"

  function RunComment(instanceId: string): string {
    "Incident response step execution for: " + instanceId
  }

  /** `run_command`: one `send_command` to this instance alone, with the plan's commands as given. */
  function RunCommandStep(w: World, commands: seq<string>, instanceId: string): Step<string> {
    SendStep(w, [instanceId], RunShellScript, RunComment(instanceId), commands)
  }

  method RunCommand(env: Env, commands: seq<string>, instanceId: string) returns (r: Result<string, Fault>)
    modifies env
    ensures env.Performed(RunCommandStep(old(env.w), commands, instanceId), r)
  {
    r := env.SendCommand([instanceId], RunShellScript, RunComment(instanceId), commands);
  }

  /** The mapping at the end of `check_status`: the four in-flight statuses give None, every other
      status is handed back unchanged. */
  function StatusResult(status: string): (r: Option<string>)
    ensures r.None? <==> status in {"Pending", "InProgress", "Delayed", "Cancelling"}
    ensures r.Some? ==> r.value == status
  {
    if status == "Pending" then None
    else if status == "InProgress" then None
    else if status == "Delayed" then None
    else if status == "Cancelling" then None
    else Some(status)
  }

  /** `check_status`: one `get_command_invocation`, then the mapping above. */
  function CheckStep(w: World, commandId: string, instanceId: string): Step<Option<string>> {
    var s := PollStep(w, commandId, instanceId);
    Step(if s.result.Ok? then Ok(StatusResult(s.result.value)) else Err(s.result.error), s.world, s.events)
  }

  method CheckStatus(env: Env, commandId: string, instanceId: string) returns (r: Result<Option<string>, Fault>)
    modifies env
    ensures env.Performed(CheckStep(old(env.w), commandId, instanceId), r)
  {
    var status := env.GetCommandInvocation(commandId, instanceId);
    if status.Err? {
      return Err(status.error);
    }
    r := Ok(StatusResult(status.value));
  }
}
