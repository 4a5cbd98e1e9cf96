/** `process.env`, as a map from variable names to values, and the two
    helpers of `src/lib/validateEnvironment.ts`: the check that the
    required variables are present and the lookup with a default. */
module ProcessEnv {

  type Env = map<string, string>

  const SupabaseUrlVariable := "NEXT_PUBLIC_SUPABASE_URL"
  const SupabaseAnonKeyVariable := "NEXT_PUBLIC_SUPABASE_ANON_KEY"
  const SupabaseServiceKeyVariable := "SUPABASE_SERVICE_ROLE_KEY"

  /** `process.env[key]` used as a condition: present and not empty. */
  predicate IsSet(env: Env, key: string) {
    key in env && env[key] != ""
  }

  /** `process.env[key] === value`. */
  predicate HasValue(env: Env, key: string, value: string) {
    key in env && env[key] == value
  }
}

module ValidateEnvironment {
  import opened Wrappers
  import opened Text
  import opened Seqs
  import opened ProcessEnv

  /** The variables that must be present, in declared order. */
  function RequiredVariables(): (names: seq<string>)
    ensures |names| == 2
  {
    [SupabaseUrlVariable, SupabaseAnonKeyVariable]
  }

  /** The required variables that are missing or empty, in declared order. */
  function MissingVariables(env: Env): (missing: seq<string>)
    ensures missing == When(!IsSet(env, SupabaseUrlVariable), SupabaseUrlVariable)
      + When(!IsSet(env, SupabaseAnonKeyVariable), SupabaseAnonKeyVariable)
  {
    var required := RequiredVariables();
    var unset := (name: string) => !IsSet(env, name);
    assert required[1..][1..] == [];
    assert Filter(required[1..], unset) == When(unset(required[1]), required[1]);
    Filter(required, unset)
  }

  /** The message of the error, naming the missing variables joined by
      ", ". */
  function MissingMessage(missing: seq<string>): string {
    "Missing required environment variables: " + Join(missing, ", ") + "\n"
      + "Please add these variables to your .env.local file for local development or to your Vercel project settings for deployment."
  }

  /** What `validateEnvironmentVariables` throws: the missing variables,
      whose message is `MissingMessage(missing)`; `None` when it returns
      normally. It throws exactly when a required variable is missing. */
  function ValidateEnvironmentVariables(env: Env): (thrown: Option<seq<string>>)
    ensures thrown.None? <==> IsSet(env, SupabaseUrlVariable) && IsSet(env, SupabaseAnonKeyVariable)
    ensures thrown.Some? ==> thrown.value == MissingVariables(env) && |thrown.value| > 0
  {
    var missing := MissingVariables(env);
    if |missing| > 0 then Some(missing) else None
  }

  /** `getEnvVariable(key, defaultValue)`: the value when it is present and
      not empty, the default otherwise; it fails only when the value is
      unusable and no default was given. */
  function GetEnvVariable(env: Env, key: string, defaultValue: Option<string>): (r: Result<string>)
    ensures IsSet(env, key) ==> r == Success(env[key])
    ensures !IsSet(env, key) && defaultValue.Some? ==> r == Success(defaultValue.value)
    ensures r.Failure? <==> !IsSet(env, key) && defaultValue.None?
    ensures r.Failure? ==> r.error == "Environment variable " + key + " is not set"
  {
    if IsSet(env, key) then Success(env[key])
    else if defaultValue.Some? then Success(defaultValue.value)
    else Failure("Environment variable " + key + " is not set")
  }

  /** `||` skips an empty value, so an empty default is what comes back
      for an unusable value. */
  lemma EmptyDefaultIsReturned(env: Env, key: string)
    requires !IsSet(env, key)
    ensures GetEnvVariable(env, key, Some("")) == Success("")
  {
  }
}
