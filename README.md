# jobber session and job-registry core, in Dafny

This project models the authentication core of the jobber microservices together with the job
registry of its job service:

- the **session issuer** of the auth service. It checks credentials against the user store and signs an
  access/refresh token pair. It writes both tokens as HttpOnly cookies, rotates the pair on refresh and
  clears it on logout (`AuthService`, `CookieConfig`);
- the **GraphQL resolver** in front of it. It chooses the refresh token from the cookie before the mutation
  input (`AuthResolver`);
- the three **token consumers**:
  - the auth service's own Passport strategy (`JwtStrategy`);
  - the remote verification endpoint other services call (`GrpcController`);
  - the guard those services run before their handlers (`GrpcAuthGuard`);
- the **user store** (`Users`). Emails are unique, ids are generated, and passwords are stored only as salted hashes;
- the **job registry** (`JobService`). It holds jobs discovered as decorated methods and as decorated classes.
  It lists their metadata and executes a job by name;
- the two **configuration services** (`AuthConfig`, `JobConfig`). They read the environment with JavaScript
  `||` defaults.

Supporting modules:

- `Common` holds Option/Result and JavaScript truthiness.
- `Decimal` holds `parseInt` on digit strings and its inverse.
- `Jwt` is an idealised token codec: `Sign` produces a string that `Decode` reads back exactly, and `Verify` rejects a
  malformed token, a token signed with another key, or a token whose expiry has passed.
- `Http` holds the request's cookie jar and Authorization header, and the response's cookie writes.

State the source changes in place is modelled as classes:

- `Users.UserService` and its table;
- `JobService.JobService` and its registry;
- `Http.Response` and its cookies;
- `GrpcAuthGuard.GuardedRequest` and its `user` slot;
- `JobService.HandlerLog`, the handlers run so far.

Each method's `ensures` ties the new state to a specification function. The properties are lemmas about those
functions.

Behaviour of the code that the model follows, and that a reader might not expect:

- Express's `maxAge` is in milliseconds, but `parseJwtExpiresIn` returns **seconds**. The comment
  at `apps/jobber-auth/src/app/auth/config/cookie.config.ts:17` says milliseconds; the code multiplies by 1000 afterwards in
  `createCookieOptions`, so the cookie lifetime is right. The model follows the code.
- `grpcPort` falls back to 5000 only when `GRPC_PORT` is unset or empty. The key is not in the validation
  schema, so its value stays the environment string, and the text `"0"` is kept.
- The guard's `extractToken` returns the access-token cookie whenever a cookie jar exists, even when that
  cookie is absent. The Authorization header is read only when there is no jar at all. With `cookie-parser`
  installed, as the job service's `main.ts` does, the header path is never taken (`GrpcAuthGuard.JarHidesHeader`).
  The "Bearer " prefix match is case-sensitive.
- In `refreshToken` of the service, every failure surfaces as "Invalid refresh token". That includes the
  "Invalid token" that `getUserFromPayload` throws, because the whole body is inside one `try`.
- The resolver's `refreshToken` with no context but a token in the input reaches `context.res` and raises
  a TypeError. This is modelled as `AuthResolver.NoContext`.

## Model

| member | source | states |
|---|---|---|
| Decimal.ValueOfDigits | apps/jobber-auth/src/app/auth/config/cookie.config.ts:24 | `parseInt` of a rendered number gives the number back |
| Decimal.DigitsInjective | apps/jobber-auth/src/app/auth/config/cookie.config.ts:24 | distinct numbers have distinct decimal renderings |
| Decimal.LeadingZero | apps/jobber-auth/src/app/auth/config/cookie.config.ts:24 | `parseInt` ignores a leading zero |
| CookieConfig.CookieNamesDistinct | apps/jobber-auth/src/app/auth/config/cookie.config.ts:3-4 | the cookie names are "access_token" and "refresh_token", and they differ |
| CookieConfig.CreateCookieOptions | apps/jobber-auth/src/app/auth/config/cookie.config.ts:6-15 | always HttpOnly with path "/"; Secure and SameSite=Strict exactly in production, Lax otherwise; maxAge is the lifetime in milliseconds, so the written Max-Age equals the lifetime in seconds |
| CookieConfig.ParseJwtExpiresIn | apps/jobber-auth/src/app/auth/config/cookie.config.ts:18-39 | a string that wholly matches `^(\d+)([smhd])$` gives its number times the unit's seconds from the reference table (1, 60, 3600, 86400); anything else gives 86400 |
| CookieConfig.ParseWithUnit | apps/jobber-auth/src/app/auth/config/cookie.config.ts:24-35 | digits followed by s/m/h/d match the pattern and give the number times 1, 60, 3600 or 86400 |
| CookieConfig.ParseFallback | apps/jobber-auth/src/app/auth/config/cookie.config.ts:19-22 | any string that does not wholly match `^(\d+)([smhd])$` gives 86400 |
| CookieConfig.ParseRendered | apps/jobber-auth/src/app/auth/config/cookie.config.ts:18-39 | parsing the rendering of n with unit u gives n times the unit's seconds, for every n |
| CookieConfig.ParseMonotone | apps/jobber-auth/src/app/auth/config/cookie.config.ts:24-35 | for one unit, a larger number never gives a shorter lifetime |
| CookieConfig.ParseIgnoresLeadingZero | apps/jobber-auth/src/app/auth/config/cookie.config.ts:24 | "015m" and "15m" give the same lifetime |
| CookieConfig.NearMissesFallBack | apps/jobber-auth/src/app/auth/config/cookie.config.ts:19-22 | "", "15", "1w", " 15m", "15M" and "1.5h" all fall back to one day |
| CookieConfig.CommonLifetimes | apps/jobber-auth/src/app/auth/config/cookie.config.ts:27-35 | "15m" is 900 s, "7d" is 604800 s, "1h" is 3600 s |
| AuthConfig.PlainLookups | apps/jobber-auth/src/app/config/config.service.ts:8-34 | port, database URL, Pulsar settings and NODE_ENV are lookups of their own keys, absent exactly when the key is |
| AuthConfig.IsProduction | apps/jobber-auth/src/app/config/config.service.ts:36-38 | production exactly when NODE_ENV is set to "production" |
| AuthConfig.IsProductionExact | apps/jobber-auth/src/app/config/config.service.ts:36-38 | setting NODE_ENV to a value makes it production exactly when the value is "production" (no case folding or trimming); setting any other key does not change it |
| AuthConfig.JwtSettingsHaveNoDefaults | apps/jobber-auth/src/app/config/config.service.ts:40-54 | each of the four JWT settings is absent exactly when its key is (no default), and setting any other key to any value leaves it unchanged |
| AuthConfig.CookieSecret | apps/jobber-auth/src/app/config/config.service.ts:56-58 | COOKIE_SECRET when set and non-empty, otherwise the JWT secret |
| AuthConfig.ClientOrigin | apps/jobber-auth/src/app/config/config.service.ts:60-64 | CLIENT_ORIGIN when set and non-empty, otherwise "http://localhost:4200" |
| AuthConfig.GrpcPort | apps/jobber-auth/src/app/config/config.service.ts:66-68 | the GRPC_PORT text when set and non-empty, otherwise 5000 |
| AuthConfig.ZeroTextPortKept | apps/jobber-auth/src/app/config/config.service.ts:66-68 | a GRPC_PORT of "0" is kept, not replaced by 5000 |
| JobConfig.PlainLookups | apps/jobber-job/src/app/config/config.service.ts:8-34 | port, JOB_DATABASE_URL, Pulsar settings and NODE_ENV are lookups of their own keys with no fallback |
| JobConfig.IsProduction | apps/jobber-job/src/app/config/config.service.ts:36-38 | production exactly when NODE_ENV is set to "production" |
| JobConfig.IsProductionExact | apps/jobber-job/src/app/config/config.service.ts:36-38 | setting NODE_ENV to a value makes it production exactly when the value is "production"; setting any other key does not change it |
| JobConfig.CookieSecret | apps/jobber-job/src/app/config/config.service.ts:40-44 | COOKIE_SECRET when set and non-empty, otherwise "jobber-job-secret" |
| JobConfig.ClientOrigin | apps/jobber-job/src/app/config/config.service.ts:46-50 | CLIENT_ORIGIN when set and non-empty, otherwise "http://localhost:4200" |
| JobConfig.AuthServiceUrl | apps/jobber-job/src/app/config/config.service.ts:52-56 | AUTH_SERVICE_URL when set and non-empty, otherwise "localhost:5000" |
| Jwt.Sign | apps/jobber-auth/src/app/auth/auth.service.ts:147-156 | a signed token decodes to exactly the payload, issue time, expiry (issue time plus lifetime) and signing key |
| Jwt.Verify | apps/jobber-auth/src/app/auth/auth.service.ts:115-119 | accepts exactly a well-formed token signed with the given key whose expiry is still ahead, and then returns its payload |
| Jwt.VerifySigned | apps/jobber-auth/src/app/auth/strategies/jwt.strategy.ts:24-28 | a signed token verifies to its payload under its own key before expiry; under another key it fails with InvalidSignature, and after expiry with Expired |
| Jwt.MalformedRejected | apps/jobber-auth/src/app/grpc/grpc.controller.ts:21 | "" and "invalid-token" are rejected as malformed under any key |
| Http.CookieValue | apps/jobber-auth/src/app/auth/strategies/jwt.strategy.ts:11-12 | the named cookie's value when there is a jar holding it, otherwise nothing |
| Http.Response.Cookie | apps/jobber-auth/src/app/auth/auth.service.ts:172-182 | `response.cookie` sets the named cookie with its value and options, leaving the other cookies alone |
| Http.Response.ClearCookie | apps/jobber-auth/src/app/auth/auth.service.ts:185-188 | `response.clearCookie` marks the named cookie cleared for the path, leaving the others alone |
| Users.IdentityOf | apps/jobber-auth/src/app/grpc/grpc.controller.ts:28-31 | the identity carries the record's id and email only |
| Users.IdAtInjective | apps/jobber-auth/src/app/user/user.service.ts:38-44 | generated ids of different insert positions differ |
| Users.FindOne | apps/jobber-auth/src/app/user/user.service.ts:15-19 | a found record is stored and has that id; nothing is found exactly when no record has it |
| Users.FindByEmail | apps/jobber-auth/src/app/user/user.service.ts:21-25 | a found record is stored and has that email; nothing is found exactly when no record has it |
| Users.IdsUnique | apps/jobber-auth/src/app/user/user.service.ts:38-44 | in a table whose ids come from the generator, no two records share an id |
| Users.FindOneFinds | apps/jobber-auth/src/app/user/user.service.ts:15-19 | in any table whose ids and emails are unique, looking up a stored record's id returns that very record |
| Users.FindByEmailFinds | apps/jobber-auth/src/app/user/user.service.ts:21-25 | in any table whose ids and emails are unique, looking up a stored record's email returns that very record |
| Users.UserService.constructor | apps/jobber-auth/src/app/user/user.service.ts:8-9 | the store starts empty, with its invariant (generated ids, unique ids and emails) holding |
| Users.UserService.FindAll | apps/jobber-auth/src/app/user/user.service.ts:11-13 | every stored record, and only those |
| Users.UserService.Create | apps/jobber-auth/src/app/user/user.service.ts:27-45 | a known email is refused with BadRequest and the table is unchanged; otherwise one record is appended with a fresh id, the email, the hash of password and salt, and the salt; ids stay generated and ids and emails stay unique, and the new record is found by email and by id |
| AuthService.ValidateUser | apps/jobber-auth/src/app/auth/auth.service.ts:42-56 | success returns a stored record with that email whose hash accepts the password; an unknown email and a wrong password give the same "Invalid credentials" |
| AuthService.ValidateUserAccepts | apps/jobber-auth/src/app/auth/auth.service.ts:42-56 | a stored email with a password the hash accepts validates to exactly that record |
| AuthService.ValidateUserRejects | apps/jobber-auth/src/app/auth/auth.service.ts:49-53 | a stored email with a wrong password is refused with "Invalid credentials" |
| AuthService.UnknownEmailSkipsCompare | apps/jobber-auth/src/app/auth/auth.service.ts:43-47 | for an unknown email the outcome does not depend on the password comparison |
| AuthService.CreatePayloadFromUser | apps/jobber-auth/src/app/auth/auth.service.ts:131-136 | the claims are the record's id as subject and its email; the hash and salt are not carried |
| AuthService.GenerateTokensForUser | apps/jobber-auth/src/app/auth/auth.service.ts:131-156 | both tokens carry the user's id and email and the same issue time; the access token uses the access secret and lifetime, the refresh token the refresh ones |
| AuthService.LoginOutcome | apps/jobber-auth/src/app/auth/auth.service.ts:58-74 | succeeds exactly when the credentials validate, otherwise "Invalid credentials"; the user is a stored record with that email whose hash accepts the password, and both tokens decode to that record's id and the email, issued now, with the access and refresh secrets and lifetimes |
| AuthService.RefreshOutcome | apps/jobber-auth/src/app/auth/auth.service.ts:76-95 | succeeds exactly when the token verifies under the refresh secret and its subject is stored, and then issues a fresh pair for that stored record; every failure is "Invalid refresh token" |
| AuthService.LoginTokensVerify | apps/jobber-auth/src/app/auth/auth.service.ts:58-74 | after a login, the access token verifies to the user's claims under the access secret until it expires, and the refresh token likewise under the refresh secret; with distinct secrets neither passes as the other |
| AuthService.LoginsIndependent | apps/jobber-auth/src/app/auth/auth.service.ts:58-74 | logins of two different emails give different users, and each access token carries only its own user's claims |
| AuthService.RefreshRejectsAccessToken | apps/jobber-auth/src/app/auth/auth.service.ts:115-119 | with distinct secrets an access token is never accepted as a refresh token |
| AuthService.RefreshFailureIgnoresStore | apps/jobber-auth/src/app/auth/auth.service.ts:76-95 | a token that fails verification is refused with "Invalid refresh token" whatever the store holds |
| AuthService.RefreshRejectsMissingUser | apps/jobber-auth/src/app/auth/auth.service.ts:121-129 | a valid refresh token whose subject is not stored is refused with "Invalid refresh token" |
| AuthService.RefreshAfterLogin | apps/jobber-auth/src/app/auth/auth.service.ts:76-95 | the refresh token of a login, presented before it expires, yields an access token for the same user |
| AuthService.TokenCookies | apps/jobber-auth/src/app/auth/auth.service.ts:158-183 | exactly the two token cookies, each holding its token, with options built from the environment flag and its own lifetime string |
| AuthService.TokenCookiePolicy | apps/jobber-auth/src/app/auth/auth.service.ts:158-183 | every token cookie is HttpOnly on "/", Secure and Strict exactly in production, and lives as long as its lifetime string parses to |
| AuthService.ClearedCookies | apps/jobber-auth/src/app/auth/auth.service.ts:185-188 | exactly the two token cookies, both cleared with path "/" |
| AuthService.SetTokenCookies | apps/jobber-auth/src/app/auth/auth.service.ts:158-183 | the response's cookies become the old ones overwritten by the two token cookies |
| AuthService.ClearTokenCookies | apps/jobber-auth/src/app/auth/auth.service.ts:185-188 | the response's cookies become the old ones with both token cookies cleared |
| AuthService.Login | apps/jobber-auth/src/app/auth/auth.service.ts:58-74 | returns the login outcome; the cookies are set on success when there is a response, and left alone on failure |
| AuthService.RefreshToken | apps/jobber-auth/src/app/auth/auth.service.ts:76-95 | any failure is "Invalid refresh token" with the cookies untouched; success returns only the new access token and writes both new tokens as cookies |
| AuthService.Logout | apps/jobber-auth/src/app/auth/auth.service.ts:97-105 | always succeeds with "Logged out successfully" and clears both cookies when there is a response |
| AuthResolver.ExtractRefreshToken | apps/jobber-auth/src/app/auth/auth.resolver.ts:61-69 | a non-empty cookie token wins; an empty or absent one falls through to the input token |
| AuthResolver.CookieBeatsInput | apps/jobber-auth/src/app/auth/auth.resolver.ts:65-68 | with both a cookie and an input token, the cookie's token is used |
| AuthResolver.EmptyCookieFallsThrough | apps/jobber-auth/src/app/auth/auth.resolver.ts:65-68 | an empty cookie is passed over for the input token |
| AuthResolver.NoTokenAnywhere | apps/jobber-auth/src/app/auth/auth.resolver.ts:61-69 | no cookie and no input leaves no token |
| AuthResolver.Login | apps/jobber-auth/src/app/auth/auth.resolver.ts:32-39 | forwards the credentials and the response to the service, with the same outcome and cookie writes |
| AuthResolver.RefreshToken | apps/jobber-auth/src/app/auth/auth.resolver.ts:41-53 | without a token it fails with "Refresh token is required" before the service is called; otherwise the service decides and writes to `context.res` |
| AuthResolver.Logout | apps/jobber-auth/src/app/auth/auth.resolver.ts:55-59 | forwards the response to the service's logout |
| JwtStrategy.ExtractJwtFromCookieOrAuthHeader | apps/jobber-auth/src/app/auth/strategies/jwt.strategy.ts:10-16 | a non-empty access-token cookie wins; otherwise the Bearer-header parser decides |
| JwtStrategy.Validate | apps/jobber-auth/src/app/auth/strategies/jwt.strategy.ts:31-41 | the stored user with the subject's id; "Invalid token" exactly when no record has it |
| JwtStrategy.Authenticate | apps/jobber-auth/src/app/auth/strategies/jwt.strategy.ts:20-41 | no token gives NoToken; a token that fails verification under the access secret is rejected with the verifier's reason; success happens exactly when the token verifies and its subject is stored, and returns that stored record; a verified token whose subject is missing gives "Invalid token" |
| JwtStrategy.CookieTokenAuthenticates | apps/jobber-auth/src/app/auth/strategies/jwt.strategy.ts:20-41 | an unexpired access token of a stored user, in the cookie, authenticates that user whatever the header holds |
| JwtStrategy.OtherKeyRejected | apps/jobber-auth/src/app/auth/strategies/jwt.strategy.ts:26 | a token signed with any key other than the access secret is rejected |
| JwtStrategy.ExpiredRejected | apps/jobber-auth/src/app/auth/strategies/jwt.strategy.ts:27 | an expired token is rejected even when correctly signed |
| GrpcController.Authenticate | apps/jobber-auth/src/app/grpc/grpc.controller.ts:19-35 | succeeds exactly when the token verifies and its subject is stored, returning that record's id and email; every failure is "Invalid token" |
| GrpcController.IssuedTokenAuthenticates | apps/jobber-auth/src/app/grpc/grpc.controller.ts:19-35 | an unexpired access token of a stored user yields exactly that user's id and email |
| GrpcController.FailuresCollapse | apps/jobber-auth/src/app/grpc/grpc.controller.ts:32-34 | a token signed with another key, an expired, an empty or an orphaned token all give the single "Invalid token" |
| GrpcAuthGuard.ExtractToken | libs/nestjs/src/lib/guards/grpc-auth.guard.ts:56-69 | with a cookie jar, the access-token cookie, present or not; without one, the rest of a header that starts exactly with "Bearer " |
| GrpcAuthGuard.Decide | libs/nestjs/src/lib/guards/grpc-auth.guard.ts:30-53 | no token gives "Authentication token is missing"; otherwise the remote identity on success and "Invalid token" on any remote failure |
| GrpcAuthGuard.GuardedRequest.constructor | libs/nestjs/src/lib/guards/grpc-auth.guard.ts:31-32 | the request starts with no user attached |
| GrpcAuthGuard.CanActivate | libs/nestjs/src/lib/guards/grpc-auth.guard.ts:30-53 | returns true and attaches the identity only when the remote call succeeds; otherwise it fails and leaves `user` as it was |
| GrpcAuthGuard.JarHidesHeader | libs/nestjs/src/lib/guards/grpc-auth.guard.ts:57-59 | with a cookie jar the Authorization header is never read, and a jar without the cookie gives no token |
| GrpcAuthGuard.SchemeCaseSensitive | libs/nestjs/src/lib/guards/grpc-auth.guard.ts:60-67 | "Bearer t" yields t; "bearer t" and "BEARER t" yield nothing |
| GrpcAuthGuard.GuardWithEndpoint | libs/nestjs/src/lib/guards/grpc-auth.guard.ts:30-53 | with the endpoint behind it, an unexpired access cookie admits the stored user; a refresh token or an empty jar is refused |
| JobService.JobsFromClasses | apps/jobber-job/src/app/job/job.service.ts:23-33 | one entry per class, keeping its metadata and running `execute` on its own instance |
| JobService.Metas | apps/jobber-job/src/app/job/job.service.ts:38 | the metadata of every job, in order |
| JobService.FindJob | apps/jobber-job/src/app/job/job.service.ts:41 | the index of the first job with that name; nothing exactly when no job has it |
| JobService.HandlerLog.Run | apps/jobber-job/src/app/job/job.service.ts:45 | the handler is recorded as run once, and its outcome is returned |
| JobService.JobService.constructor | apps/jobber-job/src/app/job/job.service.ts:9 | the registry starts empty |
| JobService.JobService.OnModuleInit | apps/jobber-job/src/app/job/job.service.ts:12-36 | the registry becomes the method jobs followed by the class jobs; a failed scan propagates and leaves it as it was |
| JobService.JobService.GetJobsMetadata | apps/jobber-job/src/app/job/job.service.ts:37-39 | the metadata of every registered job, in registry order |
| JobService.JobService.ExecuteJob | apps/jobber-job/src/app/job/job.service.ts:40-47 | an unknown name is "Job <name> not found" and runs nothing; otherwise the first job with that name runs exactly once and its metadata is returned, or its error propagates |
| JobService.FindJobAppend | apps/jobber-job/src/app/job/job.service.ts:35-41 | lookup in a concatenation searches the first part, then the second at an offset |
| JobService.MethodJobsFirst | apps/jobber-job/src/app/job/job.service.ts:35-41 | a method job shadows a class job of the same name, and a class job is found behind all method jobs |
| JobService.MetadataAfterInit | apps/jobber-job/src/app/job/job.service.ts:35-38 | after init the listed metadata are the methods' then the classes', in order |

## Left out

- Token cryptography is not modelled: base64url encoding, the HMAC signature and the header. `Jwt` is an idealised codec
  whose only secret is the signer's key, so a change to a token's bytes is not modelled either (a changed token may still decode).
- Jwt.Sign: the token lifetime the signing library derives from `JWT_EXPIRES_IN` and `JWT_REFRESH_EXPIRES_IN` (the `ms`
  format) is given as the `accessTtl` and `refreshTtl` settings, because that library is not part of this model.
- bcrypt `genSalt`, `hash` and `compare` are parameters: a salt string, a hash function and a comparison function. Their
  cryptographic properties are not modelled.
- The database (Prisma) is an in-memory sequence of records. Ids are `"user-"` plus the insert position, an abstract
  stand-in for the generated id. `createdAt` and `updatedAt` are not modelled, and neither are concurrent inserts: the
  unique-email race is resolved by the database in the original.
- Users.UserService.Create: bcrypt's salt generation is not modelled; the salt is an input.
- Time is the parameter `now`, in whole seconds.
- Asynchrony, the gRPC transport, rxjs (`firstValueFrom`, `catchError`) and timeouts are not modelled. The guard's
  `onModuleInit` client lookup is not modelled; the remote call is the function parameter `rpc`.
- NestJS wiring is not modelled: modules, dependency injection, `main.ts` bootstrap, GraphQL schema, the guard attached to `logout`
  and Passport's own plumbing. The Passport Bearer-header parser is the parameter `fromAuthHeader`.
- The user and job resolvers are one-line forwards to the services and are not modelled separately. The
  Fibonacci job is an example job; its body is not modelled, and a job's run is an outcome function.
- AuthConfig.Port and JobConfig.Port return the environment text. The validation schema's conversion of `PORT` to a
  number, and its `NODE_ENV` default of "development", are not modelled: IsProduction only needs to know
  whether NODE_ENV is "production".
- AuthService.Settings assumes the four JWT settings are present. When one is missing the signing library throws at
  call time; that is not modelled.
- AuthService.GenerateTokensForUser: that `sign` is called exactly twice per issuance is not observable in a model
  where signing is a pure function.
- `cookie-parser`'s JSON and signed cookies are not modelled; the jar is a map from name to value.
- Http.Response.Cookie: Express sends one Set-Cookie header per call. The model keeps the last write per
  cookie name, which is what the browser keeps.
- Decimal.ValueOfDigits: `parseInt` is unbounded here. JavaScript loses precision above 2^53, which does not
  arise for token lifetimes.
