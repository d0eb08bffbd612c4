/**
 * Configuration loading (agent/config.py).
 *
 * Six variables are required. Each one whose environment value is present
 * and non-empty is copied into the configuration; each other one adds a
 * line naming it and its description to the `missing` list, in table
 * order. Any missing variable makes loading fail (the program prints the
 * list and exits); otherwise the configuration holds all six.
 */
module Configuration {
  import opened Wrappers

  /** The process environment after `.env` has been loaded. */
  type Env = map<string, string>

  /** `required_vars`: each variable name with its description, in declaration order. */
  const RequiredVars: seq<(string, string)> := [
    ("OPENAI_API_KEY", "OpenAI API key for the LLM"),
    ("GCP_PROJECT_ID", "GCP project ID"),
    ("GCP_FUNCTION_NAME", "Name of the deployed Cloud Function"),
    ("GCP_SA_KEY_BASE64", "Base64-encoded GCP service account JSON key"),
    ("GITHUB_TOKEN", "GitHub personal access token with repo scope"),
    ("GITHUB_REPO", "GitHub repo in owner/repo format")
  ]

  /** `os.environ.get(var)` is truthy: defined and not the empty string. */
  predicate Present(env: Env, k: string)
  {
    k in env && env[k] != ""
  }

  /** The line reported for a missing variable. */
  function MissingLine(v: string, description: string): string
  {
    "  - " + v + ": " + description
  }

  /** The variable names of a table, in order. */
  function Names(vars: seq<(string, string)>): (names: seq<string>)
    ensures |names| == |vars|
    ensures forall i :: 0 <= i < |vars| ==> names[i] == vars[i].0
  {
    if vars == [] then [] else Names(vars[..|vars| - 1]) + [vars[|vars| - 1].0]
  }

  // ---------------------------------------------------------------------
  // What the loop accumulates over a prefix of the table.
  // ---------------------------------------------------------------------

  /** The table entries whose variable is absent or empty, in table order. */
  function MissingVars(env: Env, vars: seq<(string, string)>): seq<(string, string)>
  {
    if vars == [] then []
    else
      var last := vars[|vars| - 1];
      MissingVars(env, vars[..|vars| - 1]) + (if Present(env, last.0) then [] else [last])
  }

  /** The lines `missing` holds: one per missing entry. */
  function MissingLines(entries: seq<(string, string)>): (lines: seq<string>)
    ensures |lines| == |entries|
    ensures forall i :: 0 <= i < |entries| ==> lines[i] == MissingLine(entries[i].0, entries[i].1)
  {
    if entries == [] then []
    else MissingLines(entries[..|entries| - 1]) + [MissingLine(entries[|entries| - 1].0, entries[|entries| - 1].1)]
  }

  /** The `config` dictionary: each present variable mapped to its value. */
  function ConfigOf(env: Env, vars: seq<(string, string)>): map<string, string>
  {
    if vars == [] then map[]
    else
      var last := vars[|vars| - 1];
      var before := ConfigOf(env, vars[..|vars| - 1]);
      if Present(env, last.0) then before[last.0 := env[last.0]] else before
  }

  // ---------------------------------------------------------------------
  // load_config.
  // ---------------------------------------------------------------------

  /**
   * `load_config()` over the environment `env`: the configuration, or the
   * missing-variable lines the program prints before it exits.
   */
  method LoadConfig(env: Env) returns (r: Result<map<string, string>, seq<string>>)
    ensures r.Success? <==> forall i :: 0 <= i < |RequiredVars| ==> Present(env, RequiredVars[i].0)
    ensures r.Success? ==> r.value == ConfigOf(env, RequiredVars)
    ensures r.Failure? ==> r.error == MissingLines(MissingVars(env, RequiredVars)) && r.error != []
  {
    var config: map<string, string> := map[];
    var missing: seq<string> := [];
    var i := 0;
    while i < |RequiredVars|
      invariant 0 <= i <= |RequiredVars|
      invariant config == ConfigOf(env, RequiredVars[..i])
      invariant missing == MissingLines(MissingVars(env, RequiredVars[..i]))
    {
      var (v, description) := RequiredVars[i];
      var value: Option<string> := if v in env then Some(env[v]) else None;
      assert RequiredVars[..i + 1][..i] == RequiredVars[..i];
      if value.None? || value.value == "" {
        missing := missing + [MissingLine(v, description)];
      } else {
        config := config[v := value.value];
      }
      i := i + 1;
    }
    assert RequiredVars[..i] == RequiredVars;
    MissingVarsEmpty(env, RequiredVars);
    if missing != [] {
      return Failure(missing);
    }
    return Success(config);
  }

  // ---------------------------------------------------------------------
  // Properties.
  // ---------------------------------------------------------------------

  /** An entry is reported missing exactly when it is in the table and its variable is absent or empty. */
  lemma {:induction false} MissingVarsMembers(env: Env, vars: seq<(string, string)>, e: (string, string))
    ensures e in MissingVars(env, vars) <==> e in vars && !Present(env, e.0)
    decreases |vars|
  {
    if vars != [] {
      var front := vars[..|vars| - 1];
      MissingVarsMembers(env, front, e);
      assert vars == front + [vars[|vars| - 1]];
    }
  }

  /** Nothing is missing exactly when every variable of the table is present. */
  lemma {:induction false} MissingVarsEmpty(env: Env, vars: seq<(string, string)>)
    ensures MissingVars(env, vars) == [] <==> forall i :: 0 <= i < |vars| ==> Present(env, vars[i].0)
    decreases |vars|
  {
    if vars != [] {
      var front := vars[..|vars| - 1];
      MissingVarsEmpty(env, front);
      if MissingVars(env, vars) == [] {
        forall i | 0 <= i < |vars|
          ensures Present(env, vars[i].0)
        {
          if i < |front| {
            assert vars[i] == front[i];
          }
        }
      }
    }
  }

  /** The missing list keeps table order: the entries of a longer table come after those of a shorter one. */
  lemma {:induction false} MissingVarsAppend(env: Env, a: seq<(string, string)>, b: seq<(string, string)>)
    ensures MissingVars(env, a + b) == MissingVars(env, a) + MissingVars(env, b)
    decreases |b|
  {
    if b == [] {
      assert a + b == a;
    } else {
      var front := b[..|b| - 1];
      MissingVarsAppend(env, a, front);
      assert (a + b)[..|a + b| - 1] == a + front;
      assert (a + b)[|a + b| - 1] == b[|b| - 1];
    }
  }

  /** `config` holds exactly the table's present variables, each with its environment value. */
  lemma {:induction false} ConfigOfMembers(env: Env, vars: seq<(string, string)>, k: string)
    ensures k in ConfigOf(env, vars) <==> k in Names(vars) && Present(env, k)
    ensures k in ConfigOf(env, vars) ==> ConfigOf(env, vars)[k] == env[k]
    decreases |vars|
  {
    if vars != [] {
      var front := vars[..|vars| - 1];
      ConfigOfMembers(env, front, k);
      assert Names(vars) == Names(front) + [vars[|vars| - 1].0];
    }
  }

  /**
   * A successful load has all six variables, with their environment values,
   * and no other key.
   */
  lemma LoadedConfigComplete(env: Env)
    requires forall i :: 0 <= i < |RequiredVars| ==> Present(env, RequiredVars[i].0)
    ensures forall k :: k in ConfigOf(env, RequiredVars) <==> k in Names(RequiredVars)
    ensures forall k :: k in ConfigOf(env, RequiredVars) ==> k in env && ConfigOf(env, RequiredVars)[k] == env[k]
  {
    forall k
      ensures k in ConfigOf(env, RequiredVars) <==> k in Names(RequiredVars)
      ensures k in ConfigOf(env, RequiredVars) ==> k in env && ConfigOf(env, RequiredVars)[k] == env[k]
    {
      ConfigOfMembers(env, RequiredVars, k);
    }
  }
}
