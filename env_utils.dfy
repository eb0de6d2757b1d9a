// Start-up resolution of the environment variables an agent needs: a set value wins, an empty
// value counts as missing, a default fills a gap (and is written back with setdefault), and any
// variable with neither is reported.
module EnvUtils {
  import opened Wrappers
  import opened Json

  /** What one required variable resolves to: its non-empty value, else its default. */
  function Resolve(env: map<string, string>, defaults: map<string, string>, name: string): (r: Option<string>)
    ensures r.Some? <==> (name in env && env[name] != "") || name in defaults
    ensures name in env && env[name] != "" ==> r == Some(env[name])
  {
    if name in env && env[name] != "" then Some(env[name])
    else if name in defaults then Some(defaults[name])
    else None
  }

  /** The unresolved variables, in the order given (repeats kept). */
  function Missing(env: map<string, string>, defaults: map<string, string>, required: seq<string>): (m: seq<string>)
    ensures forall k :: 0 <= k < |m| ==> m[k] in required && Resolve(env, defaults, m[k]).None?
    decreases |required|
  {
    if |required| == 0 then []
    else
      var rest := Missing(env, defaults, required[..|required| - 1]);
      var last := required[|required| - 1];
      if Resolve(env, defaults, last).None? then rest + [last] else rest
  }

  /** Nothing is missing exactly when every required variable resolves. */
  lemma {:induction false} MissingEmptyIff(env: map<string, string>, defaults: map<string, string>, required: seq<string>)
    ensures Missing(env, defaults, required) == [] <==>
      forall k :: 0 <= k < |required| ==> Resolve(env, defaults, required[k]).Some?
    decreases |required|
  {
    if |required| > 0 {
      var init := required[..|required| - 1];
      MissingEmptyIff(env, defaults, init);
      assert forall k :: 0 <= k < |init| ==> init[k] == required[k];
    }
  }

  /** The environment after the setdefault calls of the first variables: a default is added only
      for a name with no entry at all; an entry set to "" is left as it is. */
  function WithDefaults(env: map<string, string>, defaults: map<string, string>, required: seq<string>): map<string, string>
    decreases |required|
  {
    if |required| == 0 then env
    else
      var e := WithDefaults(env, defaults, required[..|required| - 1]);
      var last := required[|required| - 1];
      if last !in e && last in defaults then e[last := defaults[last]] else e
  }

  /** The names resolved so far and their values. */
  function Resolved(env: map<string, string>, defaults: map<string, string>, required: seq<string>): map<string, string>
    decreases |required|
  {
    if |required| == 0 then map[]
    else
      var m := Resolved(env, defaults, required[..|required| - 1]);
      var last := required[|required| - 1];
      match Resolve(env, defaults, last)
      case Some(v) => m[last := v]
      case None => m
  }

  /** Writing the defaults back adds exactly the defaulted names that had no entry, and does not
      change how any variable resolves, so a second run gives the same answer as the first. */
  lemma {:induction false} WithDefaultsKeepsResolution(env: map<string, string>, defaults: map<string, string>,
                                                       required: seq<string>, name: string)
    ensures Resolve(WithDefaults(env, defaults, required), defaults, name) == Resolve(env, defaults, name)
    ensures name in WithDefaults(env, defaults, required) <==>
      name in env || (name in defaults && exists k :: 0 <= k < |required| && required[k] == name)
    decreases |required|
  {
    if |required| > 0 {
      var init := required[..|required| - 1];
      WithDefaultsKeepsResolution(env, defaults, init, name);
      assert forall k :: 0 <= k < |init| ==> init[k] == required[k];
      if name in defaults && name == required[|required| - 1] {
        assert exists k :: 0 <= k < |required| && required[k] == name;
      }
      if exists k :: 0 <= k < |required| && required[k] == name {
        var k :| 0 <= k < |required| && required[k] == name;
        if k < |init| {
          assert init[k] == name;
        }
      }
    }
  }

  /** Every resolvable variable is in the result, with its value, and nothing else is. */
  lemma {:induction false} ResolvedMeans(env: map<string, string>, defaults: map<string, string>, required: seq<string>)
    ensures var m := Resolved(env, defaults, required);
      (forall name :: name in m <==> Resolve(env, defaults, name).Some? && name in required)
      && (forall name :: name in m ==> Some(m[name]) == Resolve(env, defaults, name))
    decreases |required|
  {
    if |required| > 0 {
      var init := required[..|required| - 1];
      ResolvedMeans(env, defaults, init);
      assert required == init + [required[|required| - 1]];
    }
  }

  /** On success the returned map's keys are exactly the required names. */
  lemma SuccessCoversRequired(env: map<string, string>, defaults: map<string, string>, required: seq<string>)
    requires Missing(env, defaults, required) == []
    ensures forall name :: name in Resolved(env, defaults, required) <==> name in required
  {
    MissingEmptyIff(env, defaults, required);
    ResolvedMeans(env, defaults, required);
    forall name | name in required
      ensures Resolve(env, defaults, name).Some?
    {
      var k :| 0 <= k < |required| && required[k] == name;
    }
  }

  /** The RuntimeError text, with the list in Python's repr. */
  function MissingMessage(missing: seq<string>): string {
    "Missing required environment variables: " + Repr(Arr(seq(|missing|, k requires 0 <= k < |missing| => Str(missing[k]))))
  }

  class Environment {
    var vars: map<string, string>

    constructor (vars: map<string, string>)
      ensures this.vars == vars
    {
      this.vars := vars;
    }

    /** `ensure_env_vars`: the resolved map, or the RuntimeError text naming the missing variables
        (the error is raised after the loop, so the defaults already written stay written). */
    method EnsureEnvVars(required: seq<string>, defaults: map<string, string>) returns (r: Result<map<string, string>, string>)
      modifies this
      ensures vars == WithDefaults(old(vars), defaults, required)
      ensures r.Err? <==> Missing(old(vars), defaults, required) != []
      ensures r.Err? ==> r.error == MissingMessage(Missing(old(vars), defaults, required))
      ensures r.Ok? ==> r.value == Resolved(old(vars), defaults, required)
    {
      ghost var env0 := vars;
      var resolved: map<string, string> := map[];
      var missing: seq<string> := [];
      var i := 0;
      while i < |required|
        invariant 0 <= i <= |required|
        invariant vars == WithDefaults(env0, defaults, required[..i])
        invariant missing == Missing(env0, defaults, required[..i])
        invariant resolved == Resolved(env0, defaults, required[..i])
      {
        var name := required[i];
        assert required[..i + 1][..i] == required[..i];
        WithDefaultsKeepsResolution(env0, defaults, required[..i], name);
        if name in vars && vars[name] != "" {
          resolved := resolved[name := vars[name]];
        } else if name in defaults {
          var value := defaults[name];
          if name !in vars {
            vars := vars[name := value];
          }
          resolved := resolved[name := value];
        } else {
          missing := missing + [name];
        }
        i := i + 1;
      }
      assert required[..i] == required;
      if missing != [] {
        return Err(MissingMessage(missing));
      }
      return Ok(resolved);
    }
  }
}
