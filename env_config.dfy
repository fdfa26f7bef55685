/**
 * The (deprecated) configuration from environment variables: six values,
 * each required to be set and non-empty. The same reader appears in both
 * versions of the loan workflow.
 */
module EnvConfig {
  import opened Options

  datatype EnvironmentConfig = EnvironmentConfig(
    providerUrl: string,
    comptrollerAddr: string,
    sukuAddr: string,
    usdcAddr: string,
    cSukuAddr: string,
    cUsdcAddr: string)

  /** The environment variables read. */
  datatype Variable = ProviderUrl | ComptrollerAddr | SukuAddr | UsdcAddr | CSukuAddr | CUsdcAddr {
    function Name(): string {
      match this
      case ProviderUrl => "PROVIDER_URL"
      case ComptrollerAddr => "COMPTROLLER_ADDR"
      case SukuAddr => "SUKU_ADDR"
      case UsdcAddr => "USDC_ADDR"
      case CSukuAddr => "CSUKU_ADDR"
      case CUsdcAddr => "CUSDC_ADDR"
    }
  }

  /** The variables, in the order they are checked. */
  const Variables: seq<Variable> := [ProviderUrl, ComptrollerAddr, SukuAddr, UsdcAddr, CSukuAddr, CUsdcAddr]

  /** The message thrown when an entry is missing. */
  const ConfigErrorMessage: string := "Error setting up configuration."

  /** `process.env[name] || ''`: the value, or "" when the variable is not set. */
  function EnvValue(env: map<string, string>, v: Variable): string {
    if v.Name() in env then env[v.Name()] else ""
  }

  function NotSet(v: Variable): string {
    v.Name() + " env var not set"
  }

  /** The entry pushed for one variable: its message when its value is empty, nothing otherwise. */
  function EntryIfEmpty(env: map<string, string>, v: Variable): seq<string> {
    if EnvValue(env, v) == "" then [NotSet(v)] else []
  }

  /** The error entries for the variables among `vars` whose value is empty, in the order of `vars`. */
  function Missing(env: map<string, string>, vars: seq<Variable>): seq<string> {
    if vars == [] then [] else Missing(env, vars[..|vars| - 1]) + EntryIfEmpty(env, vars[|vars| - 1])
  }

  /** The configuration getConfig returns, or None when it throws. */
  function Config(env: map<string, string>): Option<EnvironmentConfig> {
    if Missing(env, Variables) != [] then None
    else Some(EnvironmentConfig(
      EnvValue(env, ProviderUrl), EnvValue(env, ComptrollerAddr), EnvValue(env, SukuAddr),
      EnvValue(env, UsdcAddr), EnvValue(env, CSukuAddr), EnvValue(env, CUsdcAddr)))
  }

  /**
   * getConfig: pushes one entry per empty variable, in the order of
   * `Variables`; throws (config is None) exactly when there is an entry,
   * and otherwise returns the six values as they are.
   */
  method GetConfig(env: map<string, string>) returns (errors: seq<string>, config: Option<EnvironmentConfig>)
    ensures errors == Missing(env, Variables)
    ensures config == Config(env)
  {
    errors := [];
    assert Variables[..0] == [];
    var providerUrl;
    errors, providerUrl := Check(env, 0, errors);
    var comptrollerAddr;
    errors, comptrollerAddr := Check(env, 1, errors);
    var sukuAddr;
    errors, sukuAddr := Check(env, 2, errors);
    var usdcAddr;
    errors, usdcAddr := Check(env, 3, errors);
    var cSukuAddr;
    errors, cSukuAddr := Check(env, 4, errors);
    var cUsdcAddr;
    errors, cUsdcAddr := Check(env, 5, errors);
    assert Variables[..6] == Variables;

    if |errors| > 0 {
      // throw new Error(ConfigErrorMessage)
      config := None;
      return;
    }
    config := Some(EnvironmentConfig(providerUrl, comptrollerAddr, sukuAddr, usdcAddr, cSukuAddr, cUsdcAddr));
  }

  /**
   * One `if (!value) errors.push(...)` of getConfig, for the variable at
   * position `k`: reads it and pushes its entry when the value is empty.
   */
  method Check(env: map<string, string>, k: nat, errors: seq<string>) returns (errors': seq<string>, value: string)
    requires k < |Variables| && errors == Missing(env, Variables[..k])
    ensures value == EnvValue(env, Variables[k])
    ensures errors' == Missing(env, Variables[..k + 1])
  {
    var v := Variables[k];
    value := EnvValue(env, v);
    errors' := errors;
    if value == "" {
      errors' := errors' + [NotSet(v)];
    }
    Step(env, k);
  }

  /** Checking one more variable appends its entry, if any, to those of the variables before it. */
  lemma Step(env: map<string, string>, k: nat)
    requires k < |Variables|
    ensures Missing(env, Variables[..k + 1]) == Missing(env, Variables[..k]) + EntryIfEmpty(env, Variables[k])
  {
    assert Variables[..k + 1][..k] == Variables[..k];
  }

  /** There is no entry exactly when every variable among `vars` has a non-empty value; never more entries than variables. */
  lemma {:induction false} MissingEmptyIff(env: map<string, string>, vars: seq<Variable>)
    ensures |Missing(env, vars)| <= |vars|
    ensures Missing(env, vars) == [] <==> forall i :: 0 <= i < |vars| ==> EnvValue(env, vars[i]) != ""
  {
    if vars != [] {
      var init := vars[..|vars| - 1];
      MissingEmptyIff(env, init);
      assert forall i :: 0 <= i < |init| ==> init[i] == vars[i];
    }
  }

  /**
   * getConfig throws exactly when an entry was pushed; otherwise it returns
   * the six values unchanged, none of them empty.
   */
  lemma ConfigSpec(env: map<string, string>)
    ensures Config(env).None? <==> Missing(env, Variables) != []
    ensures Config(env).Some? ==>
      && ProviderUrl.Name() in env && Config(env).value.providerUrl == env[ProviderUrl.Name()]
      && ComptrollerAddr.Name() in env && Config(env).value.comptrollerAddr == env[ComptrollerAddr.Name()]
      && SukuAddr.Name() in env && Config(env).value.sukuAddr == env[SukuAddr.Name()]
      && UsdcAddr.Name() in env && Config(env).value.usdcAddr == env[UsdcAddr.Name()]
      && CSukuAddr.Name() in env && Config(env).value.cSukuAddr == env[CSukuAddr.Name()]
      && CUsdcAddr.Name() in env && Config(env).value.cUsdcAddr == env[CUsdcAddr.Name()]
    ensures Config(env).Some? ==> forall i :: 0 <= i < |Variables| ==> EnvValue(env, Variables[i]) != ""
  {
    MissingEmptyIff(env, Variables);
    if Config(env).Some? {
      assert EnvValue(env, Variables[0]) != "" && EnvValue(env, Variables[1]) != "" && EnvValue(env, Variables[2]) != "";
      assert EnvValue(env, Variables[3]) != "" && EnvValue(env, Variables[4]) != "" && EnvValue(env, Variables[5]) != "";
    }
  }

  /** The configuration is rejected exactly when one of the six variables is unset or empty. */
  lemma ConfigRejectedIffSomeEmpty(env: map<string, string>)
    ensures Missing(env, Variables) != [] <==> exists i :: 0 <= i < |Variables| && EnvValue(env, Variables[i]) == ""
  {
    MissingEmptyIff(env, Variables);
  }
}
