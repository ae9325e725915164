/** The configuration fields: where each is read from, its kind, default and bounds. */
module ConfigFields {
  import opened Options

  datatype Key =
    | DOMAIN | ADMIN_EMAIL | MONGO_USER | MONGO_PASS | MONGO_USER_URI | MONGO_PASS_URI | MONGODB_DB | MONGODB_URI
    | USE_CADDY | API_PORT | TZ | NODE_ENV | PORT | JWT_SECRET | ALLOW_WEAK_JWT_SECRET | CORS_ORIGINS
    | TRUST_PROXY | TRUST_CLOUDFLARE | TRUSTED_PROXIES | SMTP_HOST | SMTP_PORT | SMTP_USER | SMTP_PASS | SMTP_FROM
    | CSP_CONNECT_SRC | SETTLEMENT_RECONCILE_INTERVAL_MS | SETTLEMENT_RECONCILE_BATCH_SIZE
    | SETTLEMENT_RECONCILE_INITIAL_DELAY_MS | PROVIDER_HTTP_TIMEOUT_MS | CATALOG_CACHE_TTL_MS
    | WORKER_CONCURRENCY | SHUTDOWN_TIMEOUT_MS

  /** The segments of the operator document's paths. */
  datatype Seg =
    | Domain | AdminEmail | Timezone
    | Database | User | Password | Name | Uri | Host
    | Proxy | Mode | Caddy | ApiPort | TrustProxy | TrustCloudflare | TrustedProxies
    | Api | Environment | Port | JwtSecret | AllowWeakJwtSecret | CorsOrigins | Operational
    | SettlementReconcileIntervalMs | SettlementReconcileBatchSizeCount | SettlementReconcileInitialDelayMs
    | ProviderHttpTimeoutMs | CatalogCacheTtlMs | WorkerConcurrencyCount | ShutdownTimeoutMs
    | Smtp | Pass | From
    | Csp | ConnectSrc

  type Path = seq<Seg>

  datatype Kind = TextKind | BooleanKind | IntegerKind | ListKind

  datatype Scope = ApiScope | DeployScope | SharedScope

  datatype Value = StrV(s: string) | IntV(n: int) | BoolV(b: bool) | ListV(items: seq<string>)

  /** Bounds on a value; `dbName` is the pattern of a database name. */
  datatype Validation =
    | Anything
    | Range(min: int, max: int)
    | DbName(maxLength: nat)
    | OneOf(choices: seq<string>)

  datatype Field = Field(
    kind: Kind, scope: Scope, path: Option<Path>, default: Option<Value>,
    derived: bool, yesNo: bool, validation: Validation)

  function Text(scope: Scope, path: Path, default: Option<string>, validation: Validation): Field
  {
    Field(TextKind, scope, Some(path),
          if default.Some? then Some(StrV(default.value)) else None, false, false, validation)
  }

  function Number(scope: Scope, path: Path, default: Option<int>, min: int, max: int): Field
  {
    Field(IntegerKind, scope, Some(path),
          if default.Some? then Some(IntV(default.value)) else None, false, false, Range(min, max))
  }

  function Flag(scope: Scope, path: Path, default: Option<Value>, yesNo: bool): Field
  {
    Field(BooleanKind, scope, Some(path), default, false, yesNo, Anything)
  }

  function Many(scope: Scope, path: Path, default: Option<Value>): Field
  {
    Field(ListKind, scope, Some(path), default, false, false, Anything)
  }

  function Derived(scope: Scope, path: Option<Path>): Field
  {
    Field(TextKind, scope, path, None, true, false, Anything)
  }

  const MIN_JWT_SECRET_LEN: nat := 32

  function FieldOf(key: Key): Field
  {
    match key
    case DOMAIN => Text(DeployScope, [Domain], None, Anything)
    case ADMIN_EMAIL => Text(DeployScope, [AdminEmail], None, Anything)
    case MONGO_USER => Text(DeployScope, [Database, User], None, Anything)
    case MONGO_PASS => Text(DeployScope, [Database, Password], None, Anything)
    case MONGO_USER_URI => Derived(DeployScope, None)
    case MONGO_PASS_URI => Derived(DeployScope, None)
    case MONGODB_DB => Text(SharedScope, [Database, Name], Some("tokenpanel"), DbName(63))
    case MONGODB_URI => Derived(ApiScope, Some([Database, Uri]))
    case USE_CADDY => Flag(DeployScope, [Proxy, Caddy], Some(StrV("y")), true)
    case API_PORT => Number(DeployScope, [Proxy, ApiPort], Some(3000), 1, 65535)
    case TZ => Text(DeployScope, [Timezone], Some("UTC"), Anything)
    case NODE_ENV => Text(ApiScope, [Api, Environment], Some("production"),
      OneOf(["development", "test", "production"]))
    case PORT => Number(ApiScope, [Api, Port], Some(3000), 1, 65535)
    case JWT_SECRET => Text(ApiScope, [Api, JwtSecret], None, Anything)
    case ALLOW_WEAK_JWT_SECRET => Flag(ApiScope, [Api, AllowWeakJwtSecret], Some(BoolV(false)), false)
    case CORS_ORIGINS => Many(ApiScope, [Api, CorsOrigins], Some(ListV([])))
    case TRUST_PROXY => Flag(SharedScope, [Proxy, TrustProxy], None, false)
    case TRUST_CLOUDFLARE => Flag(SharedScope, [Proxy, TrustCloudflare], Some(BoolV(false)), false)
    case TRUSTED_PROXIES => Many(SharedScope, [Proxy, TrustedProxies], Some(ListV([])))
    case SMTP_HOST => Text(DeployScope, [Smtp, Host], None, Anything)
    case SMTP_PORT => Number(DeployScope, [Smtp, Port], None, 1, 65535)
    case SMTP_USER => Text(DeployScope, [Smtp, User], None, Anything)
    case SMTP_PASS => Text(DeployScope, [Smtp, Pass], None, Anything)
    case SMTP_FROM => Text(DeployScope, [Smtp, From], None, Anything)
    case CSP_CONNECT_SRC => Many(DeployScope, [Csp, ConnectSrc], None)
    case SETTLEMENT_RECONCILE_INTERVAL_MS =>
      Number(ApiScope, [Api, Operational, SettlementReconcileIntervalMs], Some(15_000), 0, 86_400_000)
    case SETTLEMENT_RECONCILE_BATCH_SIZE =>
      Number(ApiScope, [Api, Operational, SettlementReconcileBatchSizeCount], Some(20), 1, 10_000)
    case SETTLEMENT_RECONCILE_INITIAL_DELAY_MS =>
      Number(ApiScope, [Api, Operational, SettlementReconcileInitialDelayMs], Some(3_000), 0, 86_400_000)
    case PROVIDER_HTTP_TIMEOUT_MS =>
      Number(ApiScope, [Api, Operational, ProviderHttpTimeoutMs], Some(120_000), 0, 3_600_000)
    case CATALOG_CACHE_TTL_MS =>
      Number(ApiScope, [Api, Operational, CatalogCacheTtlMs], Some(600_000), 0, 86_400_000)
    case WORKER_CONCURRENCY =>
      Number(ApiScope, [Api, Operational, WorkerConcurrencyCount], Some(1), 1, 256)
    case SHUTDOWN_TIMEOUT_MS =>
      Number(ApiScope, [Api, Operational, ShutdownTimeoutMs], Some(10_000), 0, 600_000)
  }

  /** Every field, in order. */
  const CONFIG_FIELDS: seq<Key> := [
    DOMAIN, ADMIN_EMAIL, MONGO_USER, MONGO_PASS, MONGO_USER_URI, MONGO_PASS_URI, MONGODB_DB, MONGODB_URI,
    USE_CADDY, API_PORT, TZ, NODE_ENV, PORT, JWT_SECRET, ALLOW_WEAK_JWT_SECRET, CORS_ORIGINS,
    TRUST_PROXY, TRUST_CLOUDFLARE, TRUSTED_PROXIES, SMTP_HOST, SMTP_PORT, SMTP_USER, SMTP_PASS, SMTP_FROM,
    CSP_CONNECT_SRC, SETTLEMENT_RECONCILE_INTERVAL_MS, SETTLEMENT_RECONCILE_BATCH_SIZE,
    SETTLEMENT_RECONCILE_INITIAL_DELAY_MS, PROVIDER_HTTP_TIMEOUT_MS, CATALOG_CACHE_TTL_MS,
    WORKER_CONCURRENCY, SHUTDOWN_TIMEOUT_MS]
}
