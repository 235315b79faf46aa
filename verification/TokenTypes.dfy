/** The records of `auth.py`: bearers, OAuth tokens, refresh tokens and the
    rows the SQLite file keeps of them. */
module TokenTypes {
  import opened Prelude

  type Secret = string
  type ClientId = string
  type FamilyId = string

  /** SHA-256 of a raw token; injective because it is a constructor. */
  datatype Hash = Sha256(secret: Secret)

  const TOKEN_TTL := 86400.0
  const SESSION_LIFETIME := 86400.0
  const REFRESH_REUSE_GRACE := 60.0
  const REVOKE_GRACE_SECONDS := 8.0
  const NAMED_TOKEN_CAP := 3

  datatype Expiry = At(time: real) | Never

  predicate Past(e: Expiry, now: real) {
    e.At? && now > e.time
  }

  /** A dashboard bearer; `name` is set for the tokens of the API tokens page. */
  datatype Bearer = Bearer(client: ClientId, name: Option<string>, expiresAt: Expiry, createdAt: real)

  datatype Access = Access(client: ClientId, family: Option<FamilyId>, expiresAt: real, createdAt: real)

  datatype Grant = Grant(access: Secret, expiresIn: int, refresh: Option<Secret>)

  datatype Refresh = Refresh(
    client: ClientId, family: FamilyId, expiresAt: real, createdAt: real,
    familyEnd: real, used: bool, usedAt: real, replay: Option<Grant>)

  /** A row of `refresh_tokens`; rows of older builds have no family end. */
  datatype RefreshRow = RefreshRow(
    client: ClientId, family: FamilyId, expiresAt: real, createdAt: real,
    used: bool, familyEnd: Option<real>)

  datatype Db = Db(named: map<Secret, Bearer>, oauth: map<Hash, Access>, refresh: map<Hash, RefreshRow>)

  datatype Store = Store(
    tokens: map<Secret, Bearer>, oauth: map<Hash, Access>, refresh: map<Hash, Refresh>, db: Db)

  /** `named_token_ttl` (0 means never) and the checked `refresh_token_ttl`. */
  datatype Config = Config(namedTtl: int, refreshTtl: int)

  predicate ValidConfig(cfg: Config) {
    0 < cfg.refreshTtl && cfg.refreshTtl as real <= SESSION_LIFETIME
  }
}
