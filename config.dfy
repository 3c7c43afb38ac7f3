/**
 * The two deployment environments and the selection of the exported one from
 * the `NODE_ENV` environment variable.
 */
module Config {
  import opened Json
  import opened Text

  /** One environment's settings (the Twilio credentials are not modelled). */
  datatype Environment = Environment(httpPort: nat, httpsPort: nat, envName: string, maxChecks: nat)

  const Staging: Environment := Environment(3000, 3001, "staging", 5)

  const Production: Environment := Environment(5000, 5001, "production", 5)

  /** The `environments` container, keyed by name. */
  const Environments: map<string, Environment> := map["staging" := Staging, "production" := Production]

  /** `currentEnvironment`: the lowercased `NODE_ENV` when it is a string, else the empty name. */
  function CurrentEnvironment(nodeEnv: Value): (name: string)
    ensures !nodeEnv.Str? ==> name == ""
    ensures nodeEnv.Str? ==> name == AsciiLower(nodeEnv.s)
    ensures nodeEnv.Str? ==> |name| == |nodeEnv.s| && AsciiLower(name) == name
  {
    if TypeOf(nodeEnv) == "string" then AsciiLower(nodeEnv.s) else ""
  }

  /** `environmentToExport`: the named environment if there is one, staging otherwise. */
  function EnvironmentToExport(nodeEnv: Value): (e: Environment)
    ensures e == Staging || e == Production
    ensures e == Production <==> nodeEnv.Str? && AsciiLower(nodeEnv.s) == "production"
    ensures !nodeEnv.Str? ==> e == Staging
    ensures e.maxChecks == 5 && e.httpsPort == e.httpPort + 1
  {
    var name := CurrentEnvironment(nodeEnv);
    if name in Environments then Environments[name] else Staging
  }

  /** Selection ignores letter case: `PRODUCTION` selects production. */
  lemma SelectionIgnoresCase()
    ensures EnvironmentToExport(Str("PRODUCTION")) == Production
    ensures EnvironmentToExport(Str("Staging")) == Staging
  {
    assert AsciiLower("PRODUCTION") == "production";
  }

  /** Every name other than staging and production falls back to staging. */
  lemma UnknownNameFallsBack(s: string)
    requires AsciiLower(s) != "production"
    ensures EnvironmentToExport(Str(s)) == Staging
  {
  }

  /** The two environments listen on four distinct ports. */
  lemma PortsDistinct()
    ensures {Staging.httpPort, Staging.httpsPort} !! {Production.httpPort, Production.httpsPort}
    ensures Staging.httpPort != Staging.httpsPort && Production.httpPort != Production.httpsPort
  {
  }
}
