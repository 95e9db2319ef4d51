/** `lib/env.ts`: the variables the application needs, the check that they
    are set, and the application URL with its default. */
module Env {
  import opened Common
  import opened Strings

  const RequiredVars: seq<string> :=
    ["NEXT_PUBLIC_SUPABASE_URL", "NEXT_PUBLIC_SUPABASE_ANON_KEY", "GEMINI_API_KEY", "RESEND_API_KEY"]

  const DefaultAppUrl := "http://localhost:3000"

  /** `a` is `b` with some elements left out, the rest in the same order. */
  predicate IsSublist(a: seq<string>, b: seq<string>)
  {
    if a == [] then true
    else if b == [] then false
    else if a[0] == b[0] then IsSublist(a[1..], b[1..])
    else IsSublist(a, b[1..])
  }

  /** `names.filter((name) => !process.env[name])`. */
  function Missing(env: Environment, names: seq<string>): (missing: seq<string>)
    ensures IsSublist(missing, names)
    ensures forall v :: v in missing <==> v in names && !Truthy(Lookup(env, v))
  {
    if names == [] then []
    else if Truthy(Lookup(env, names[0])) then Missing(env, names[1..])
    else [names[0]] + Missing(env, names[1..])
  }

  /** `missingVars`: the required names, in declared order, whose value is unset or empty. */
  function MissingVars(env: Environment): (missing: seq<string>)
    ensures IsSublist(missing, RequiredVars)
    ensures forall v :: v in missing <==> v in RequiredVars && !Truthy(Lookup(env, v))
  {
    Missing(env, RequiredVars)
  }

  /** Only the four required names can ever be reported missing. */
  lemma OptionalVarsNeverRequired(env: Environment)
    ensures "GITHUB_TOKEN" !in MissingVars(env)
    ensures "NEXT_PUBLIC_APP_URL" !in MissingVars(env)
    ensures |MissingVars(env)| <= |RequiredVars|
  {
    SublistNoLonger(MissingVars(env), RequiredVars);
  }

  lemma {:induction false} SublistNoLonger(a: seq<string>, b: seq<string>)
    requires IsSublist(a, b)
    ensures |a| <= |b|
  {
    if a != [] {
      if a[0] == b[0] {
        SublistNoLonger(a[1..], b[1..]);
      } else {
        SublistNoLonger(a, b[1..]);
      }
    }
  }

  datatype Validation = Valid | Invalid(message: string)

  const MissingPrefix := "Missing required environment variables: "
  const MissingSuffix := "\nPlease check your .env.local file."

  function MissingMessage(missing: seq<string>): string
  {
    MissingPrefix + Join(", ", missing) + MissingSuffix
  }

  /** The message carries the whole comma-separated list, and so each name in it. */
  lemma MissingMessageNames(missing: seq<string>)
    ensures IsSubstring(Join(", ", missing), MissingMessage(missing))
    ensures forall name :: name in missing ==> IsSubstring(name, MissingMessage(missing))
  {
    JoinContainsAll(", ", missing);
    forall name | name in missing
      ensures IsSubstring(name, MissingMessage(missing))
    {
      SubstringOfConcat(name, MissingPrefix, Join(", ", missing), MissingSuffix);
    }
    assert OccursAt(Join(", ", missing), MissingMessage(missing), |MissingPrefix|);
  }

  /** `validateEnv()`: throws exactly when a required variable is unset or
      empty, naming every such variable. */
  function ValidateEnv(env: Environment): (v: Validation)
    ensures v.Invalid? <==> exists name :: name in RequiredVars && !Truthy(Lookup(env, name))
    ensures v.Invalid? ==> forall name :: name in MissingVars(env) ==> IsSubstring(name, v.message)
    ensures v.Invalid? ==> IsSubstring(Join(", ", MissingVars(env)), v.message)
  {
    var missing := MissingVars(env);
    if |missing| > 0 then
      MissingMessageNames(missing);
      assert missing[0] in RequiredVars && !Truthy(Lookup(env, missing[0]));
      Invalid(MissingMessage(missing))
    else
      assert forall name :: name in RequiredVars ==> name !in missing;
      Valid
  }

  /** `NEXT_PUBLIC_APP_URL`, or the local default when it is unset or empty. */
  function AppUrl(env: Environment): (url: string)
    ensures Truthy(Lookup(env, "NEXT_PUBLIC_APP_URL")) ==> url == env["NEXT_PUBLIC_APP_URL"]
    ensures !Truthy(Lookup(env, "NEXT_PUBLIC_APP_URL")) ==> url == DefaultAppUrl
    ensures url != ""
  {
    var v := Lookup(env, "NEXT_PUBLIC_APP_URL");
    if Truthy(v) then v.value else DefaultAppUrl
  }
}
