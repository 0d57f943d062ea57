/** The auth service's configuration getters, read from the environment with
    JavaScript `||` defaults. */
module AuthConfig {
  import opened Common

  const DefaultClientOrigin: string := "http://localhost:4200"
  const DefaultGrpcPort: nat := 5000

  /** `grpcPort` is typed as a number but returns the raw environment text when it is
      set and non-empty; only then is the number 5000 the fallback. */
  datatype PortSetting = EnvText(text: string) | Number(n: nat)

  function Port(env: Env): Option<string> { Get(env, "PORT") }
  function DatabaseUrl(env: Env): Option<string> { Get(env, "AUTH_DATABASE_URL") }
  function PulsarUrl(env: Env): Option<string> { Get(env, "PULSAR_URL") }
  function PulsarAdminUrl(env: Env): Option<string> { Get(env, "PULSAR_ADMIN_URL") }
  function PulsarTenant(env: Env): Option<string> { Get(env, "PULSAR_TENANT") }
  function PulsarNamespace(env: Env): Option<string> { Get(env, "PULSAR_NAMESPACE") }
  function NodeEnv(env: Env): Option<string> { Get(env, "NODE_ENV") }
  function JwtSecret(env: Env): Option<string> { Get(env, "JWT_SECRET") }
  function JwtExpiresIn(env: Env): Option<string> { Get(env, "JWT_EXPIRES_IN") }
  function JwtRefreshSecret(env: Env): Option<string> { Get(env, "JWT_REFRESH_SECRET") }
  function JwtRefreshExpiresIn(env: Env): Option<string> { Get(env, "JWT_REFRESH_EXPIRES_IN") }

  /** Production exactly when NODE_ENV is the string "production". */
  predicate IsProduction(env: Env)
    ensures IsProduction(env) <==> "NODE_ENV" in env && env["NODE_ENV"] == "production"
  {
    NodeEnv(env) == Some("production")
  }

  /** COOKIE_SECRET when set and non-empty, else whatever JWT_SECRET is. */
  function CookieSecret(env: Env): (secret: Option<string>)
    ensures "COOKIE_SECRET" in env && env["COOKIE_SECRET"] != "" ==> secret == Some(env["COOKIE_SECRET"])
    ensures "COOKIE_SECRET" !in env || env["COOKIE_SECRET"] == "" ==> secret == JwtSecret(env)
  {
    Or(Get(env, "COOKIE_SECRET"), JwtSecret(env))
  }

  function ClientOrigin(env: Env): (origin: string)
    ensures "CLIENT_ORIGIN" in env && env["CLIENT_ORIGIN"] != "" ==> origin == env["CLIENT_ORIGIN"]
    ensures "CLIENT_ORIGIN" !in env || env["CLIENT_ORIGIN"] == "" ==> origin == DefaultClientOrigin
  {
    OrElse(Get(env, "CLIENT_ORIGIN"), DefaultClientOrigin)
  }

  function GrpcPort(env: Env): (port: PortSetting)
    ensures "GRPC_PORT" in env && env["GRPC_PORT"] != "" ==> port == EnvText(env["GRPC_PORT"])
    ensures "GRPC_PORT" !in env || env["GRPC_PORT"] == "" ==> port == Number(DefaultGrpcPort)
  {
    var raw := Get(env, "GRPC_PORT");
    if Truthy(raw) then EnvText(raw.value) else Number(DefaultGrpcPort)
  }

  /** NODE_ENV must be exactly "production": no case folding, no trimming, and no
      other setting takes part. */
  lemma IsProductionExact(env: Env)
    ensures forall v :: IsProduction(With(env, "NODE_ENV", v)) <==> v == "production"
    ensures forall k, v | k != "NODE_ENV" :: IsProduction(With(env, k, v)) == IsProduction(env)
  {
  }

  /** A text "0" is a non-empty string, so it is kept; unlike the number 0 it does not fall back. */
  lemma ZeroTextPortKept(env: Env)
    ensures GrpcPort(env[("GRPC_PORT") := "0"]) == EnvText("0")
  {
  }

  /** The access and refresh settings come from four distinct keys, none with a default:
      writing any other key, with any value, leaves each of them as it was. */
  lemma JwtSettingsHaveNoDefaults(env: Env)
    ensures JwtSecret(env).None? <==> "JWT_SECRET" !in env
    ensures JwtExpiresIn(env).None? <==> "JWT_EXPIRES_IN" !in env
    ensures JwtRefreshSecret(env).None? <==> "JWT_REFRESH_SECRET" !in env
    ensures JwtRefreshExpiresIn(env).None? <==> "JWT_REFRESH_EXPIRES_IN" !in env
    ensures forall k, v | k != "JWT_SECRET" :: JwtSecret(With(env, k, v)) == JwtSecret(env)
    ensures forall k, v | k != "JWT_EXPIRES_IN" :: JwtExpiresIn(With(env, k, v)) == JwtExpiresIn(env)
    ensures forall k, v | k != "JWT_REFRESH_SECRET" :: JwtRefreshSecret(With(env, k, v)) == JwtRefreshSecret(env)
    ensures forall k, v | k != "JWT_REFRESH_EXPIRES_IN" :: JwtRefreshExpiresIn(With(env, k, v)) == JwtRefreshExpiresIn(env)
  {
  }

  /** The remaining getters are lookups of their own keys with no fallback. */
  lemma PlainLookups(env: Env)
    ensures Port(env).None? <==> "PORT" !in env
    ensures DatabaseUrl(env).None? <==> "AUTH_DATABASE_URL" !in env
    ensures PulsarUrl(env).None? <==> "PULSAR_URL" !in env
    ensures PulsarAdminUrl(env).None? <==> "PULSAR_ADMIN_URL" !in env
    ensures PulsarTenant(env).None? <==> "PULSAR_TENANT" !in env
    ensures PulsarNamespace(env).None? <==> "PULSAR_NAMESPACE" !in env
    ensures NodeEnv(env).None? <==> "NODE_ENV" !in env
  {
  }
}
