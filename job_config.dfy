/** The job service's configuration getters, read from the environment with
    JavaScript `||` defaults. */
module JobConfig {
  import opened Common

  const DefaultCookieSecret: string := "jobber-job-secret"
  const DefaultClientOrigin: string := "http://localhost:4200"
  const DefaultAuthServiceUrl: string := "localhost:5000"

  function Port(env: Env): Option<string> { Get(env, "PORT") }
  function DatabaseUrl(env: Env): Option<string> { Get(env, "JOB_DATABASE_URL") }
  function PulsarUrl(env: Env): Option<string> { Get(env, "PULSAR_URL") }
  function PulsarAdminUrl(env: Env): Option<string> { Get(env, "PULSAR_ADMIN_URL") }
  function PulsarTenant(env: Env): Option<string> { Get(env, "PULSAR_TENANT") }
  function PulsarNamespace(env: Env): Option<string> { Get(env, "PULSAR_NAMESPACE") }
  function NodeEnv(env: Env): Option<string> { Get(env, "NODE_ENV") }

  /** Production exactly when NODE_ENV is the string "production". */
  predicate IsProduction(env: Env)
    ensures IsProduction(env) <==> "NODE_ENV" in env && env["NODE_ENV"] == "production"
  {
    NodeEnv(env) == Some("production")
  }

  function CookieSecret(env: Env): (secret: string)
    ensures "COOKIE_SECRET" in env && env["COOKIE_SECRET"] != "" ==> secret == env["COOKIE_SECRET"]
    ensures "COOKIE_SECRET" !in env || env["COOKIE_SECRET"] == "" ==> secret == DefaultCookieSecret
  {
    OrElse(Get(env, "COOKIE_SECRET"), DefaultCookieSecret)
  }

  function ClientOrigin(env: Env): (origin: string)
    ensures "CLIENT_ORIGIN" in env && env["CLIENT_ORIGIN"] != "" ==> origin == env["CLIENT_ORIGIN"]
    ensures "CLIENT_ORIGIN" !in env || env["CLIENT_ORIGIN"] == "" ==> origin == DefaultClientOrigin
  {
    OrElse(Get(env, "CLIENT_ORIGIN"), DefaultClientOrigin)
  }

  function AuthServiceUrl(env: Env): (url: string)
    ensures "AUTH_SERVICE_URL" in env && env["AUTH_SERVICE_URL"] != "" ==> url == env["AUTH_SERVICE_URL"]
    ensures "AUTH_SERVICE_URL" !in env || env["AUTH_SERVICE_URL"] == "" ==> url == DefaultAuthServiceUrl
  {
    OrElse(Get(env, "AUTH_SERVICE_URL"), DefaultAuthServiceUrl)
  }

  /** NODE_ENV must be exactly "production": no case folding, no trimming, and no
      other setting takes part. */
  lemma IsProductionExact(env: Env)
    ensures forall v :: IsProduction(With(env, "NODE_ENV", v)) <==> v == "production"
    ensures forall k, v | k != "NODE_ENV" :: IsProduction(With(env, k, v)) == IsProduction(env)
  {
  }

  /** The other getters are lookups of their own keys with no fallback. */
  lemma PlainLookups(env: Env)
    ensures Port(env).None? <==> "PORT" !in env
    ensures DatabaseUrl(env).None? <==> "JOB_DATABASE_URL" !in env
    ensures PulsarUrl(env).None? <==> "PULSAR_URL" !in env
    ensures PulsarAdminUrl(env).None? <==> "PULSAR_ADMIN_URL" !in env
    ensures PulsarTenant(env).None? <==> "PULSAR_TENANT" !in env
    ensures PulsarNamespace(env).None? <==> "PULSAR_NAMESPACE" !in env
    ensures NodeEnv(env).None? <==> "NODE_ENV" !in env
  {
  }
}
