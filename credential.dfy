/** ssm_acquire/credential.py: obtaining short-lived credentials from STS, by one of four paths
    chosen by whether an MFA serial number and a role ARN are configured. */
module Credential {
  import opened Wrappers
  import opened Environment

  const MfaPrompt := "Please enter your MFA Token: "
  const RoleSessionName := "ssm-acquire"
  const RoleDurationSeconds := 3600
  const DefaultSessionDuration := "3600"

  /** `_should_mfa`: `mfa_serial_number`, default `'None'`, compared with the string `'None'`. */
  function ShouldMfa(config: Config): (b: bool)
    ensures b <==> config.mfaSerialNumber.Some? && config.mfaSerialNumber.value != "None"
  {
    Lookup(config.mfaSerialNumber, "None") != "None"
  }

  /** `_should_assume_role`: the same test on `ssm_acquire_role_arn`. */
  function ShouldAssumeRole(config: Config): (b: bool)
    ensures b <==> config.ssmAcquireRoleArn.Some? && config.ssmAcquireRoleArn.value != "None"
  {
    Lookup(config.ssmAcquireRoleArn, "None") != "None"
  }

  /** The four branches of `auth`. */
  datatype AuthPath = RoleWithMfa | SessionWithMfa | RoleOnly | SessionOnly

  function PathOf(config: Config): AuthPath {
    if ShouldMfa(config) && ShouldAssumeRole(config) then RoleWithMfa
    else if ShouldMfa(config) && !ShouldAssumeRole(config) then SessionWithMfa
    else if ShouldAssumeRole(config) && !ShouldMfa(config) then RoleOnly
    else SessionOnly
  }

  /** The branch is a function of the two tests, and each of the four combinations has its own. */
  lemma PathTable(config: Config)
    ensures PathOf(config) == RoleWithMfa <==> ShouldMfa(config) && ShouldAssumeRole(config)
    ensures PathOf(config) == SessionWithMfa <==> ShouldMfa(config) && !ShouldAssumeRole(config)
    ensures PathOf(config) == RoleOnly <==> !ShouldMfa(config) && ShouldAssumeRole(config)
    ensures PathOf(config) == SessionOnly <==> !ShouldMfa(config) && !ShouldAssumeRole(config)
  {
  }

  /** A run of a prompt followed by an STS request built from the code typed. */
  function PromptThenSts(w: World, request: string -> Event): Step<Credentials>
    requires forall code :: IsStsCall(request(code))
  {
    var p := PromptStep(w, MfaPrompt);
    if p.result.Err? then Step(Err(p.result.error), p.world, p.events)
    else
      var s := StsStep(p.world, request(p.result.value));
      Step(s.result, s.world, p.events + s.events)
  }

  function ConfiguredDuration(config: Config): string {
    Lookup(config.assumeRoleSessionDuration, DefaultSessionDuration)
  }

  function ConfiguredSerial(config: Config): string {
    Lookup(config.mfaSerialNumber, "None")
  }

  /** `get_session_token_with_mfa`: prompt, then `get_session_token` with the configured duration
      (passed on as the configured string), serial number and the typed code. */
  function SessionTokenWithMfaStep(w: World, config: Config): Step<Credentials> {
    PromptThenSts(w, code => SessionTokenRequested(ConfiguredDuration(config), Some(Mfa(ConfiguredSerial(config), code))))
  }

  /** `get_session_token(client)`: the configured duration only. */
  function SessionTokenStep(w: World, config: Config): Step<Credentials> {
    StsStep(w, SessionTokenRequested(ConfiguredDuration(config), None))
  }

  /** `assume_role`: fixed session name and duration, the scoped policy. */
  function AssumeRoleStep(w: World, roleArn: string, policy: seq<Statement>): Step<Credentials> {
    StsStep(w, AssumeRoleRequested(roleArn, RoleSessionName, RoleDurationSeconds, policy, None))
  }

  /** `assume_role_with_mfa`: prompt, then `assume_role` with the serial number and the typed code. */
  function AssumeRoleWithMfaStep(w: World, config: Config, roleArn: string, policy: seq<Statement>): Step<Credentials> {
    PromptThenSts(w, code => AssumeRoleRequested(roleArn, RoleSessionName, RoleDurationSeconds, policy,
                                                 Some(Mfa(ConfiguredSerial(config), code))))
  }

  /** `auth`. In the branch where neither option is set the source calls `get_session_token()`
      without its `client` argument, which raises TypeError before any request is made. */
  function AuthStep(w: World, config: Config, policy: seq<Statement>): Step<Credentials> {
    match PathOf(config)
    case RoleWithMfa => AssumeRoleWithMfaStep(w, config, config.ssmAcquireRoleArn.value, policy)
    case SessionWithMfa => SessionTokenWithMfaStep(w, config)
    case RoleOnly => AssumeRoleStep(w, config.ssmAcquireRoleArn.value, policy)
    case SessionOnly => Step(Err(MissingArgument), w, [])
  }

  /** `boto_session.client('sts')` for the session's region; creating it makes no request. */
  datatype StsClient = StsClient(regionName: string)

  class StsManager {
    const regionName: string
    const stsClient: StsClient
    const limitedScopePolicy: seq<Statement>
    const config: Config

    constructor (regionName: string, limitedScopePolicy: seq<Statement>, config: Config)
      ensures this.regionName == regionName && stsClient == StsClient(regionName)
      ensures this.limitedScopePolicy == limitedScopePolicy && this.config == config
    {
      this.regionName := regionName;
      this.stsClient := StsClient(regionName);
      this.limitedScopePolicy := limitedScopePolicy;
      this.config := config;
    }

    method Auth(env: Env) returns (r: Result<Credentials, Fault>)
      modifies env
      ensures env.Performed(AuthStep(old(env.w), config, limitedScopePolicy), r)
    {
      if ShouldMfa(config) && ShouldAssumeRole(config) {
        r := AssumeRoleWithMfa(env, stsClient, config.ssmAcquireRoleArn.value);
      } else if ShouldMfa(config) && !ShouldAssumeRole(config) {
        r := GetSessionTokenWithMfa(env, stsClient);
      } else if ShouldAssumeRole(config) && !ShouldMfa(config) {
        r := AssumeRole(env, stsClient, config.ssmAcquireRoleArn.value);
      } else {
        // self.get_session_token(): the required `client` argument is missing
        r := Err(MissingArgument);
      }
    }

    method GetSessionTokenWithMfa(env: Env, client: StsClient) returns (r: Result<Credentials, Fault>)
      modifies env
      ensures env.Performed(SessionTokenWithMfaStep(old(env.w), config), r)
    {
      var tokenCode := env.Prompt(MfaPrompt);
      if tokenCode.Err? {
        return Err(tokenCode.error);
      }
      r := env.Sts(SessionTokenRequested(ConfiguredDuration(config), Some(Mfa(ConfiguredSerial(config), tokenCode.value))));
    }

    method GetSessionToken(env: Env, client: StsClient) returns (r: Result<Credentials, Fault>)
      modifies env
      ensures env.Performed(SessionTokenStep(old(env.w), config), r)
    {
      r := env.Sts(SessionTokenRequested(ConfiguredDuration(config), None));
    }

    method AssumeRole(env: Env, client: StsClient, roleArn: string) returns (r: Result<Credentials, Fault>)
      modifies env
      ensures env.Performed(AssumeRoleStep(old(env.w), roleArn, limitedScopePolicy), r)
    {
      r := env.Sts(AssumeRoleRequested(roleArn, RoleSessionName, RoleDurationSeconds, limitedScopePolicy, None));
    }

    method AssumeRoleWithMfa(env: Env, client: StsClient, roleArn: string) returns (r: Result<Credentials, Fault>)
      modifies env
      ensures env.Performed(AssumeRoleWithMfaStep(old(env.w), config, roleArn, limitedScopePolicy), r)
    {
      var tokenCode := env.Prompt(MfaPrompt);
      if tokenCode.Err? {
        return Err(tokenCode.error);
      }
      r := env.Sts(AssumeRoleRequested(roleArn, RoleSessionName, RoleDurationSeconds, limitedScopePolicy,
                                       Some(Mfa(ConfiguredSerial(config), tokenCode.value))));
    }
  }

  // ---------------------------------------------------------------------------------------------
  // Properties of the decision table

  /** Exactly one STS primitive per configured combination, and none when neither option is set:
      a role ARN selects `assume_role`, an MFA serial adds the second factor. */
  lemma AuthCallsOnePrimitive(w: World, config: Config, policy: seq<Statement>)
    ensures var s := AuthStep(w, config, policy);
            var calls := Filter(s.events, IsStsCall);
            && (PathOf(config) == SessionOnly ==> calls == [] && s.result == Err(MissingArgument) && s.world == w)
            && (PathOf(config) != SessionOnly && (ShouldMfa(config) ==> w.typed != []) ==>
                  && |calls| == 1
                  && IsStsCall(calls[0])
                  && (calls[0].AssumeRoleRequested? <==> ShouldAssumeRole(config))
                  && (calls[0].mfa.Some? <==> ShouldMfa(config)))
            && (ShouldMfa(config) && w.typed == [] ==> calls == [] && s.result == Err(NoReply))
            && |calls| <= 1
            && (forall e :: e in s.events ==> e.Prompted? || IsStsCall(e))
  {
    var s := AuthStep(w, config, policy);
    match PathOf(config)
    case SessionOnly =>
    case RoleOnly =>
      assert s.events == [AssumeRoleRequested(config.ssmAcquireRoleArn.value, RoleSessionName, RoleDurationSeconds, policy, None)];
    case RoleWithMfa =>
      if w.typed != [] {
        var code := w.typed[0];
        var call := AssumeRoleRequested(config.ssmAcquireRoleArn.value, RoleSessionName, RoleDurationSeconds, policy,
                                        Some(Mfa(ConfiguredSerial(config), code)));
        assert s.events == [Prompted(MfaPrompt)] + [call];
        FilterConcat([Prompted(MfaPrompt)], [call], IsStsCall);
      }
    case SessionWithMfa =>
      if w.typed != [] {
        var call := SessionTokenRequested(ConfiguredDuration(config), Some(Mfa(ConfiguredSerial(config), w.typed[0])));
        assert s.events == [Prompted(MfaPrompt)] + [call];
        FilterConcat([Prompted(MfaPrompt)], [call], IsStsCall);
      }
  }

  /** The MFA paths prompt exactly once, before the request, and send the typed code as
      `TokenCode` with the configured serial as `SerialNumber`; the other paths never prompt. */
  lemma MfaPromptsOnceFirst(w: World, config: Config, policy: seq<Statement>)
    ensures var s := AuthStep(w, config, policy);
            && (ShouldMfa(config) ==> |s.events| >= 1 && s.events[0] == Prompted(MfaPrompt))
            && (ShouldMfa(config) && w.typed != [] ==>
                  |s.events| == 2 && s.events[1].mfa == Some(Mfa(config.mfaSerialNumber.value, w.typed[0])))
            && (!ShouldMfa(config) ==> forall e :: e in s.events ==> !e.Prompted?)
  {
  }

  /** Both role paths send the fixed session name, the fixed 3600 seconds and the scoped policy;
      both session-token paths send the configured duration (default "3600") and no policy. */
  lemma AuthRequestArguments(w: World, config: Config, policy: seq<Statement>)
    ensures var s := AuthStep(w, config, policy);
            forall e :: e in s.events && IsStsCall(e) ==>
              && (e.AssumeRoleRequested? ==>
                    e.roleArn == config.ssmAcquireRoleArn.value && e.roleSessionName == "ssm-acquire" &&
                    e.durationSeconds == 3600 && e.policy == policy)
              && (e.SessionTokenRequested? ==> e.configuredDuration == Lookup(config.assumeRoleSessionDuration, "3600"))
  {
  }
}
