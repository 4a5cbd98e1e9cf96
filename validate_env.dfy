/** `src/lib/validate-env.ts`: six configuration checks run in a fixed
    order; each failing check either logs a warning or, in production,
    throws and ends the validation. */
module ValidateEnv {
  import opened Wrappers
  import opened Text
  import opened Seqs
  import opened ProcessEnv
  import ValidateEnvironment

  predicate IsDevelopment(env: Env) {
    HasValue(env, "NODE_ENV", "development")
  }

  predicate IsProduction(env: Env) {
    HasValue(env, "NODE_ENV", "production")
  }

  /** The checks, in the order they run. */
  datatype EnvCheck = MissingUrl | MissingAnonKey | MissingServiceKey | UrlFormat | AnonKeyFormat | ServiceKeyFormat

  function Message(c: EnvCheck): string {
    match c
    case MissingUrl => "Missing Supabase URL"
    case MissingAnonKey => "Missing Supabase anonymous key"
    case MissingServiceKey => "Missing Supabase service role key"
    case UrlFormat => "Invalid Supabase URL format"
    case AnonKeyFormat => "Invalid Supabase anonymous key format"
    case ServiceKeyFormat => "Invalid Supabase service role key format"
  }

  /** A key has the expected format when it starts like a JWT header and
      is at least 100 characters long. */
  predicate KeyFormatOk(key: string) {
    StartsWith(key, "eyJhbGc") && |key| >= 100
  }

  /** When a check fails. The format checks look only at values that are
      present and not empty. */
  predicate Fails(env: Env, c: EnvCheck) {
    match c
    case MissingUrl => !IsSet(env, SupabaseUrlVariable)
    case MissingAnonKey => !IsSet(env, SupabaseAnonKeyVariable)
    case MissingServiceKey => !IsSet(env, SupabaseServiceKeyVariable)
    case UrlFormat => IsSet(env, SupabaseUrlVariable) && !Contains(env[SupabaseUrlVariable], "supabase.co")
    case AnonKeyFormat => IsSet(env, SupabaseAnonKeyVariable) && !KeyFormatOk(env[SupabaseAnonKeyVariable])
    case ServiceKeyFormat => IsSet(env, SupabaseServiceKeyVariable) && !KeyFormatOk(env[SupabaseServiceKeyVariable])
  }

  const CheckCount := 6

  function CheckIndex(c: EnvCheck): int {
    match c
    case MissingUrl => 0
    case MissingAnonKey => 1
    case MissingServiceKey => 2
    case UrlFormat => 3
    case AnonKeyFormat => 4
    case ServiceKeyFormat => 5
  }

  function CheckAt(i: int): EnvCheck {
    match i
    case 0 => MissingUrl
    case 1 => MissingAnonKey
    case 2 => MissingServiceKey
    case 3 => UrlFormat
    case 4 => AnonKeyFormat
    case _ => ServiceKeyFormat
  }

  lemma CheckAtIndex(c: EnvCheck)
    ensures 0 <= CheckIndex(c) < CheckCount && CheckAt(CheckIndex(c)) == c
  {
  }

  lemma IndexCheckAt(i: nat)
    requires i < CheckCount
    ensures CheckIndex(CheckAt(i)) == i
  {
  }

  /** The failing checks among the first `k`, in order. */
  function FailingUpTo(env: Env, k: nat): (r: seq<EnvCheck>)
    requires k <= CheckCount
    ensures |r| <= k
  {
    if k == 0 then [] else FailingUpTo(env, k - 1) + When(Fails(env, CheckAt(k - 1)), CheckAt(k - 1))
  }

  function FailingChecks(env: Env): seq<EnvCheck> {
    FailingUpTo(env, CheckCount)
  }

  lemma {:induction false} FailingUpToMembership(env: Env, k: nat, c: EnvCheck)
    requires k <= CheckCount
    ensures c in FailingUpTo(env, k) <==> Fails(env, c) && CheckIndex(c) < k
  {
    if k > 0 {
      FailingUpToMembership(env, k - 1, c);
      IndexCheckAt(k - 1);
      CheckAtIndex(c);
    }
  }

  lemma {:induction false} FailingUpToOrdered(env: Env, k: nat)
    requires k <= CheckCount
    ensures IncreasingBy(FailingUpTo(env, k), CheckIndex)
    ensures AllBelow(FailingUpTo(env, k), k, CheckIndex)
  {
    if k > 0 {
      var prev := FailingUpTo(env, k - 1);
      var r := FailingUpTo(env, k);
      FailingUpToOrdered(env, k - 1);
      IndexCheckAt(k - 1);
      assert r == prev + When(Fails(env, CheckAt(k - 1)), CheckAt(k - 1));
      forall i, j | 0 <= i < j < |r| ensures CheckIndex(r[i]) < CheckIndex(r[j]) {
        if j >= |prev| {
          assert r[j] == CheckAt(k - 1) && r[i] == prev[i];
        } else {
          assert r[i] == prev[i] && r[j] == prev[j];
        }
      }
      forall i | 0 <= i < |r| ensures CheckIndex(r[i]) < k {
        if i < |prev| {
          assert r[i] == prev[i];
        }
      }
    }
  }

  lemma {:induction false} FailingUpToPrefix(env: Env, k: nat, m: nat)
    requires k <= m <= CheckCount
    ensures FailingUpTo(env, k) <= FailingUpTo(env, m)
    decreases m - k
  {
    if k < m {
      FailingUpToPrefix(env, k, m - 1);
    }
  }

  /** A check is reported exactly when it fails. */
  lemma FailingChecksExactly(env: Env, c: EnvCheck)
    ensures c in FailingChecks(env) <==> Fails(env, c)
  {
    FailingUpToMembership(env, CheckCount, c);
  }

  /** The failing checks are reported in the order the checks run. */
  lemma FailingChecksInOrder(env: Env)
    ensures IncreasingBy(FailingChecks(env), CheckIndex)
  {
    FailingUpToOrdered(env, CheckCount);
  }

  /** The text of the error thrown for a failing check. */
  function ErrorText(c: EnvCheck): string {
    "Environment Error: " + Message(c)
  }

  /** The text of the warning logged for a failing check. */
  function WarningText(c: EnvCheck): string {
    "Environment Warning: " + Message(c)
  }

  /** What a validation does: it throws for a check (with that check's
      `ErrorText`), or it completes having logged the warnings of a list
      of checks (each with its `WarningText`) and, possibly, the success
      line. */
  datatype Outcome = Thrown(check: EnvCheck) | Completed(warnings: seq<EnvCheck>, passedLogged: bool)

  /** In production the first failing check throws; otherwise nothing
      throws and every failing check logs its warning, in order. The
      success line is logged in development whenever the three values are
      present, whatever their format. */
  function Validation(env: Env): (v: Outcome)
    ensures v.Thrown? <==> IsProduction(env) && FailingChecks(env) != []
    ensures v.Thrown? ==> v.check == FailingChecks(env)[0]
    ensures v.Completed? ==> v.warnings == FailingChecks(env)
    ensures v.Completed? && v.passedLogged ==> !IsProduction(env)
    ensures v.Completed? ==>
      (v.passedLogged <==>
        IsDevelopment(env) && IsSet(env, SupabaseUrlVariable)
        && IsSet(env, SupabaseAnonKeyVariable) && IsSet(env, SupabaseServiceKeyVariable))
  {
    var failing := FailingChecks(env);
    if IsProduction(env) && failing != [] then
      Thrown(failing[0])
    else
      Completed(failing,
        IsDevelopment(env) && IsSet(env, SupabaseUrlVariable) && IsSet(env, SupabaseAnonKeyVariable) && IsSet(env, SupabaseServiceKeyVariable))
  }

  /** `logOrThrow`: throw for the check, or log its warning. */
  method LogOrThrow(check: EnvCheck, shouldThrow: bool, warnings: seq<EnvCheck>)
    returns (logged: seq<EnvCheck>, thrown: Option<EnvCheck>)
    ensures shouldThrow ==> thrown == Some(check) && logged == warnings
    ensures !shouldThrow ==> thrown == None && logged == warnings + [check]
  {
    if shouldThrow {
      return warnings, Some(check);
    } else {
      return warnings + [check], None;
    }
  }

  /** A check that fails after `k` passing ones in production is the
      first failing check. */
  lemma FirstFailure(env: Env, k: nat)
    requires k < CheckCount && FailingUpTo(env, k) == [] && Fails(env, CheckAt(k))
    ensures FailingChecks(env) != [] && FailingChecks(env)[0] == CheckAt(k)
  {
    FailingUpToPrefix(env, k + 1, CheckCount);
  }

  /** `validateEnvironmentVariables`. */
  method ValidateEnvironmentVariables(env: Env) returns (v: Outcome)
    ensures v == Validation(env)
  {
    var isDev := HasValue(env, "NODE_ENV", "development");
    var isProd := HasValue(env, "NODE_ENV", "production");
    var warnings: seq<EnvCheck> := [];
    var thrown: Option<EnvCheck>;
    if Fails(env, MissingUrl) {
      warnings, thrown := LogOrThrow(MissingUrl, isProd, warnings);
      if thrown.Some? {
        FirstFailure(env, 0);
        return Thrown(thrown.value);
      }
    }
    assert warnings == FailingUpTo(env, 1);
    if Fails(env, MissingAnonKey) {
      warnings, thrown := LogOrThrow(MissingAnonKey, isProd, warnings);
      if thrown.Some? {
        FirstFailure(env, 1);
        return Thrown(thrown.value);
      }
    }
    assert warnings == FailingUpTo(env, 2);
    if Fails(env, MissingServiceKey) {
      warnings, thrown := LogOrThrow(MissingServiceKey, isProd, warnings);
      if thrown.Some? {
        FirstFailure(env, 2);
        return Thrown(thrown.value);
      }
    }
    assert warnings == FailingUpTo(env, 3);
    if Fails(env, UrlFormat) {
      warnings, thrown := LogOrThrow(UrlFormat, isProd, warnings);
      if thrown.Some? {
        FirstFailure(env, 3);
        return Thrown(thrown.value);
      }
    }
    assert warnings == FailingUpTo(env, 4);
    if Fails(env, AnonKeyFormat) {
      warnings, thrown := LogOrThrow(AnonKeyFormat, isProd, warnings);
      if thrown.Some? {
        FirstFailure(env, 4);
        return Thrown(thrown.value);
      }
    }
    assert warnings == FailingUpTo(env, 5);
    if Fails(env, ServiceKeyFormat) {
      warnings, thrown := LogOrThrow(ServiceKeyFormat, isProd, warnings);
      if thrown.Some? {
        FirstFailure(env, 5);
        return Thrown(thrown.value);
      }
    }
    assert warnings == FailingUpTo(env, 6);
    var passedLogged := isDev && IsSet(env, SupabaseUrlVariable) && IsSet(env, SupabaseAnonKeyVariable) && IsSet(env, SupabaseServiceKeyVariable);
    return Completed(warnings, passedLogged);
  }


  /** A badly formatted URL does not stop the success line in
      development. */
  lemma SuccessLineDespiteBadFormat(env: Env)
    requires IsDevelopment(env)
    requires IsSet(env, SupabaseUrlVariable) && IsSet(env, SupabaseAnonKeyVariable) && IsSet(env, SupabaseServiceKeyVariable)
    requires !Contains(env[SupabaseUrlVariable], "supabase.co")
    ensures Validation(env).Completed? && Validation(env).passedLogged
    ensures UrlFormat in Validation(env).warnings
  {
    FailingChecksExactly(env, UrlFormat);
  }

  /** A production configuration that passes this validation also passes
      the required-variables check of `validateEnvironment.ts`. */
  lemma ProductionPassImpliesRequired(env: Env)
    requires IsProduction(env) && Validation(env).Completed?
    ensures ValidateEnvironment.ValidateEnvironmentVariables(env).None?
  {
    FailingChecksExactly(env, MissingUrl);
    FailingChecksExactly(env, MissingAnonKey);
  }
}
