/** The Neo4j sink's `prepare`: the driver settings (URI, database, one of three ways to
    authenticate, optional limits) are checked and built first, then the query and the
    position of its parameters are read. */
module Neo4jSink {
  import opened Wrappers
  import opened JavaErrors
  import opened JavaText
  import opened TypesafeConfig
  import opened ConnectorCommon

  const PluginName: string := "Neo4j"

  const UriKey: string := "uri"
  const UsernameKey: string := "username"
  const PasswordKey: string := "password"
  const BearerTokenKey: string := "bearer_token"
  const KerberosTicketKey: string := "kerberos_ticket"
  const DatabaseKey: string := "database"
  const QueryKey: string := "query"
  const QueryParamPositionKey: string := "queryParamPosition"
  const MaxTransactionRetryTimeKey: string := "max_transaction_retry_time"
  const MaxConnectionTimeoutKey: string := "max_connection_timeout"

  /** URI.create: the reason a string is not a URI, or None when it is one. */
  type UriCheck = string -> Option<string>

  /** The settings a DriverBuilder collects; a None is a setter never called. */
  datatype DriverBuilder = DriverBuilder(
    uri: string,
    username: Option<string>,
    password: Option<string>,
    bearerToken: Option<string>,
    database: Option<string>,
    maxConnectionTimeoutSeconds: Option<int>,
    maxTransactionRetryTimeSeconds: Option<int>)

  /** DriverBuilder.create(uri). */
  function CreateBuilder(uri: string): DriverBuilder {
    DriverBuilder(uri, None, None, None, None, None, None)
  }

  /** The first check of prepareDriver: the URI and database are required, and at least one way to authenticate,
      reported as one merged result. */
  function DriverCheck(c: Config): CheckResult {
    MergeCheckResults([CheckAllExists(c, [UriKey, DatabaseKey]),
                       CheckAtLeastOneExists(c, [UsernameKey, BearerTokenKey, KerberosTicketKey])])
  }

  /** The authentication step of prepareDriver. The password check is computed but the test
      that follows is of the merged check, which has already passed, so it never fails here. */
  function WithAuth(c: Config, b: DriverBuilder): Result<DriverBuilder, Exception> {
    if HasPath(c, UsernameKey) then
      var passwordCheck := CheckAllExists(c, [PasswordKey]);
      if !DriverCheck(c).IsSuccess() then Err(PrepareFailException(PluginName, Sink, passwordCheck.Msg()))
      else
        var username :- GetString(c, UsernameKey);
        var password :- GetString(c, PasswordKey);
        Ok(b.(username := Some(username), password := Some(password)))
    else if HasPath(c, BearerTokenKey) then
      var token :- GetString(c, BearerTokenKey);
      Ok(b.(bearerToken := Some(token)))
    else
      var ticket :- GetString(c, KerberosTicketKey);
      Ok(b.(bearerToken := Some(ticket)))
  }

  /** The limit settings of prepareDriver: each limit is set only when present. */
  function WithLimits(c: Config, b: DriverBuilder): Result<DriverBuilder, Exception> {
    var b1 :- if HasPath(c, MaxConnectionTimeoutKey) then
                var t :- GetLong(c, MaxConnectionTimeoutKey); Ok(b.(maxConnectionTimeoutSeconds := Some(t)))
              else Ok(b);
    if HasPath(c, MaxTransactionRetryTimeKey) then
      var t :- GetLong(c, MaxTransactionRetryTimeKey); Ok(b1.(maxTransactionRetryTimeSeconds := Some(t)))
    else Ok(b1)
  }

  /** prepareDriver: the checks, the URI, the authentication and the limits. */
  function DriverSpec(c: Config, uriCheck: UriCheck): Result<DriverBuilder, Exception> {
    var check := DriverCheck(c);
    if !check.IsSuccess() then Err(PrepareFailException(PluginName, Sink, check.Msg()))
    else
      var uri :- GetString(c, UriKey);
      if uriCheck(uri).Some? then Err(IllegalArgumentException(uriCheck(uri).value))
      else
        var authed :- WithAuth(c, CreateBuilder(uri));
        var database :- GetString(c, DatabaseKey);
        WithLimits(c, authed.(database := Some(database)))
  }

  /** Neo4jSinkConfig: the driver builder, the query and its parameter positions. */
  datatype SinkConfig = SinkConfig(
    driverBuilder: Option<DriverBuilder>,
    query: Option<string>,
    queryParamPosition: Option<Config>)

  function QueryCheck(c: Config): CheckResult {
    CheckAllExists(c, [QueryKey, QueryParamPositionKey])
  }

  /** prepare: the driver, the query and its parameter positions; `queryParamPosition` is the
      object at that key, unwrapped. */
  function PrepareSpec(c: Config, uriCheck: UriCheck, s: SinkConfig): (SinkConfig, Outcome<Exception>) {
    match DriverSpec(c, uriCheck)
    case Err(e) => (s, Fail(e))
    case Ok(driver) =>
      var s1 := s.(driverBuilder := Some(driver));
      var check := QueryCheck(c);
      if !check.IsSuccess() then (s1, Fail(PrepareFailException(PluginName, Sink, check.Msg())))
      else
        match GetString(c, QueryKey)
        case Err(e) => (s1, Fail(e))
        case Ok(query) =>
          var s2 := s1.(query := Some(query));
          match GetConfig(c, QueryParamPositionKey)
          case Err(e) => (s2, Fail(e))
          case Ok(positions) => (s2.(queryParamPosition := Some(positions)), Pass)
  }

  // ----- What prepare promises -----

  /** A driver error surfaces before anything about the query is looked at. */
  lemma DriverErrorsFirst(c: Config, uriCheck: UriCheck, s: SinkConfig)
    requires DriverSpec(c, uriCheck).Err?
    ensures PrepareSpec(c, uriCheck, s) == (s, Fail(DriverSpec(c, uriCheck).error))
  {
  }

  /** The query and its parameter positions are both required; the driver is already set
      when their absence is reported. */
  lemma QueryRequired(c: Config, uriCheck: UriCheck, s: SinkConfig)
    requires DriverSpec(c, uriCheck).Ok?
    ensures !IsValidParam(c, QueryKey) || !IsValidParam(c, QueryParamPositionKey) ==>
      PrepareSpec(c, uriCheck, s) ==
        (s.(driverBuilder := Some(DriverSpec(c, uriCheck).value)),
         Fail(PrepareFailException(PluginName, Sink, QueryCheck(c).Msg())))
    ensures PrepareSpec(c, uriCheck, s).1 == Pass <==>
      IsValidParam(c, QueryKey) && IsValidParam(c, QueryParamPositionKey)
      && GetString(c, QueryKey).Ok? && GetConfig(c, QueryParamPositionKey).Ok?
    ensures PrepareSpec(c, uriCheck, s).1 == Pass ==>
      PrepareSpec(c, uriCheck, s).0 ==
        SinkConfig(Some(DriverSpec(c, uriCheck).value), Some(GetString(c, QueryKey).value),
                   Some(GetConfig(c, QueryParamPositionKey).value))
    ensures QueryKey in c && c[QueryKey].Str?
            && QueryParamPositionKey in c && c[QueryParamPositionKey].EmptyObject?
            && (forall k | k in c :: !StartsWith(k, QueryParamPositionKey + ".")) ==>
      PrepareSpec(c, uriCheck, s) ==
        (SinkConfig(Some(DriverSpec(c, uriCheck).value), Some(c[QueryKey].s), Some(map[])), Pass)
  {
    assert [QueryKey, QueryParamPositionKey][0] == QueryKey;
    assert [QueryKey, QueryParamPositionKey][1] == QueryParamPositionKey;
  }

  /** The driver needs the URI, the database and one of username, bearer token or kerberos
      ticket. */
  lemma DriverNeedsKeys(c: Config, uriCheck: UriCheck)
    ensures DriverSpec(c, uriCheck).Ok? ==>
      && IsValidParam(c, UriKey) && IsValidParam(c, DatabaseKey)
      && (IsValidParam(c, UsernameKey) || IsValidParam(c, BearerTokenKey) || IsValidParam(c, KerberosTicketKey))
  {
    if DriverSpec(c, uriCheck).Ok? {
      var required, oneOf := [UriKey, DatabaseKey], [UsernameKey, BearerTokenKey, KerberosTicketKey];
      var a, b := CheckAllExists(c, required), CheckAtLeastOneExists(c, oneOf);
      assert DriverCheck(c) == MergeCheckResults([a, b]);
      assert DriverCheck(c).IsSuccess();
      assert [a, b][0] == a && [a, b][1] == b;
      assert a.IsSuccess() && b.IsSuccess();
      assert IsValidParam(c, required[0]) && IsValidParam(c, required[1]);
      var i :| 0 <= i < |oneOf| && IsValidParam(c, oneOf[i]);
    }
  }

  /** When a driver key is missing, both checks' failures are reported together, the
      required pair first. */
  lemma DriverCheckMessage(c: Config)
    ensures !DriverCheck(c).IsSuccess() ==>
      DriverCheck(c) == Failure(
        (if CheckAllExists(c, [UriKey, DatabaseKey]).IsSuccess() then []
         else [AllRequired(MissingParams(c, [UriKey, DatabaseKey]))]) +
        (if CheckAtLeastOneExists(c, [UsernameKey, BearerTokenKey, KerberosTicketKey]).IsSuccess() then []
         else [OneRequired([UsernameKey, BearerTokenKey, KerberosTicketKey])]))
  {
    MergedAllAndOne(c, [UriKey, DatabaseKey], [UsernameKey, BearerTokenKey, KerberosTicketKey]);
  }

  lemma DriverCheckFails(c: Config, uriCheck: UriCheck)
    requires !DriverCheck(c).IsSuccess()
    ensures DriverSpec(c, uriCheck) == Err(PrepareFailException(PluginName, Sink, DriverCheck(c).Msg()))
  {
  }

  /** Username and password win over a bearer token, which wins over a kerberos ticket; the
      ticket is stored as a bearer token. */
  lemma AuthPrecedence(c: Config, b: DriverBuilder)
    requires DriverCheck(c).IsSuccess()
    requires WithAuth(c, b).Ok?
    ensures var b' := WithAuth(c, b).value;
      && b'.uri == b.uri && b'.database == b.database
      && b'.maxConnectionTimeoutSeconds == b.maxConnectionTimeoutSeconds
      && b'.maxTransactionRetryTimeSeconds == b.maxTransactionRetryTimeSeconds
      && (HasPath(c, UsernameKey) ==>
            b' == b.(username := Some(GetString(c, UsernameKey).value), password := Some(GetString(c, PasswordKey).value)))
      && (!HasPath(c, UsernameKey) && HasPath(c, BearerTokenKey) ==>
            b' == b.(bearerToken := Some(GetString(c, BearerTokenKey).value)))
      && (!HasPath(c, UsernameKey) && !HasPath(c, BearerTokenKey) ==>
            b' == b.(bearerToken := Some(GetString(c, KerberosTicketKey).value)))
  {
  }

  /** The password check never raises: a username without a password fails only when the
      password is read, with the config's own missing-key error. */
  lemma PasswordCheckNeverFails(c: Config, b: DriverBuilder)
    requires DriverCheck(c).IsSuccess()
    requires HasPath(c, UsernameKey) && GetString(c, UsernameKey).Ok?
    requires !HasPath(c, PasswordKey)
    ensures !CheckAllExists(c, [PasswordKey]).IsSuccess()
    ensures WithAuth(c, b) == Err(ConfigMissing(PasswordKey))
  {
  }

  /** Each limit is the configured long when its key is present, and unset otherwise. */
  lemma LimitsWhenPresent(c: Config, b: DriverBuilder)
    requires WithLimits(c, b).Ok?
    ensures var b' := WithLimits(c, b).value;
      && b'.maxConnectionTimeoutSeconds ==
           (if HasPath(c, MaxConnectionTimeoutKey) then Some(GetLong(c, MaxConnectionTimeoutKey).value)
            else b.maxConnectionTimeoutSeconds)
      && b'.maxTransactionRetryTimeSeconds ==
           (if HasPath(c, MaxTransactionRetryTimeKey) then Some(GetLong(c, MaxTransactionRetryTimeKey).value)
            else b.maxTransactionRetryTimeSeconds)
      && b'.(maxConnectionTimeoutSeconds := b.maxConnectionTimeoutSeconds,
             maxTransactionRetryTimeSeconds := b.maxTransactionRetryTimeSeconds) == b
  {
  }

  /** A built driver has the configured URI and database, and authentication from exactly
      one source. */
  lemma DriverBuilt(c: Config, uriCheck: UriCheck)
    requires DriverSpec(c, uriCheck).Ok?
    ensures var b := DriverSpec(c, uriCheck).value;
      && GetString(c, UriKey).Ok? && b.uri == GetString(c, UriKey).value && uriCheck(b.uri).None?
      && GetString(c, DatabaseKey).Ok? && b.database == Some(GetString(c, DatabaseKey).value)
      && (b.username.Some? <==> HasPath(c, UsernameKey))
      && (b.password.Some? <==> HasPath(c, UsernameKey))
      && (b.bearerToken.Some? <==> !HasPath(c, UsernameKey))
  {
    var uri := GetString(c, UriKey).value;
    var authed := WithAuth(c, CreateBuilder(uri)).value;
    AuthPrecedence(c, CreateBuilder(uri));
    LimitsWhenPresent(c, authed.(database := Some(GetString(c, DatabaseKey).value)));
  }

  // ----- The sink -----

  /** Neo4jSinkWriter(neo4JSinkConfig). */
  datatype SinkWriter = Neo4jSinkWriter(config: SinkConfig)

  class Neo4jSinkObject {
    var rowType: Option<RowType>
    var driverBuilder: Option<DriverBuilder>
    var query: Option<string>
    var queryParamPosition: Option<Config>

    function Config(): SinkConfig
      reads this
    {
      SinkConfig(driverBuilder, query, queryParamPosition)
    }

    constructor()
      ensures rowType == None && Config() == SinkConfig(None, None, None)
    {
      rowType := None;
      driverBuilder := None;
      query := None;
      queryParamPosition := None;
    }

    method Prepare(c: TypesafeConfig.Config, uriCheck: UriCheck) returns (o: Outcome<Exception>)
      modifies this
      ensures (Config(), o) == PrepareSpec(c, uriCheck, old(Config()))
      ensures rowType == old(rowType)
    {
      var driver := PrepareDriver(c, uriCheck);
      if driver.Err? {
        return Fail(driver.error);
      }
      driverBuilder := Some(driver.value);
      var check := CheckAllExists(c, [QueryKey, QueryParamPositionKey]);
      if !check.IsSuccess() {
        return Fail(PrepareFailException(PluginName, Sink, check.Msg()));
      }
      var q := GetString(c, QueryKey);
      if q.Err? {
        return Fail(q.error);
      }
      query := Some(q.value);
      var positions := GetConfig(c, QueryParamPositionKey);
      if positions.Err? {
        return Fail(positions.error);
      }
      queryParamPosition := Some(positions.value);
      o := Pass;
    }

    static method PrepareDriver(c: TypesafeConfig.Config, uriCheck: UriCheck) returns (r: Result<DriverBuilder, Exception>)
      ensures r == DriverSpec(c, uriCheck)
    {
      var uriConfigCheck := CheckAllExists(c, [UriKey, DatabaseKey]);
      var authConfigCheck := CheckAtLeastOneExists(c, [UsernameKey, BearerTokenKey, KerberosTicketKey]);
      var mergedConfigCheck := MergeCheckResults([uriConfigCheck, authConfigCheck]);
      if !mergedConfigCheck.IsSuccess() {
        return Err(PrepareFailException(PluginName, Sink, mergedConfigCheck.Msg()));
      }
      var uri := GetString(c, UriKey);
      if uri.Err? {
        return Err(uri.error);
      }
      if uriCheck(uri.value).Some? {
        return Err(IllegalArgumentException(uriCheck(uri.value).value));
      }
      var builder := CreateBuilder(uri.value);
      if HasPath(c, UsernameKey) {
        var pwParamCheck := CheckAllExists(c, [PasswordKey]);
        if !mergedConfigCheck.IsSuccess() {
          return Err(PrepareFailException(PluginName, Sink, pwParamCheck.Msg()));
        }
        var username := GetString(c, UsernameKey);
        if username.Err? {
          return Err(username.error);
        }
        var password := GetString(c, PasswordKey);
        if password.Err? {
          return Err(password.error);
        }
        builder := builder.(username := Some(username.value));
        builder := builder.(password := Some(password.value));
      } else if HasPath(c, BearerTokenKey) {
        var token := GetString(c, BearerTokenKey);
        if token.Err? {
          return Err(token.error);
        }
        builder := builder.(bearerToken := Some(token.value));
      } else {
        var ticket := GetString(c, KerberosTicketKey);
        if ticket.Err? {
          return Err(ticket.error);
        }
        builder := builder.(bearerToken := Some(ticket.value));
      }
      var database := GetString(c, DatabaseKey);
      if database.Err? {
        return Err(database.error);
      }
      builder := builder.(database := Some(database.value));
      ghost var authed := builder;
      if HasPath(c, MaxConnectionTimeoutKey) {
        var t := GetLong(c, MaxConnectionTimeoutKey);
        if t.Err? {
          return Err(t.error);
        }
        builder := builder.(maxConnectionTimeoutSeconds := Some(t.value));
      }
      if HasPath(c, MaxTransactionRetryTimeKey) {
        var t := GetLong(c, MaxTransactionRetryTimeKey);
        if t.Err? {
          return Err(t.error);
        }
        builder := builder.(maxTransactionRetryTimeSeconds := Some(t.value));
      }
      r := Ok(builder);
    }

    method SetTypeInfo(t: RowType)
      modifies this
      ensures rowType == Some(t) && Config() == old(Config())
    {
      rowType := Some(t);
    }

    method GetConsumedType() returns (t: Option<RowType>)
      ensures t == rowType
    {
      t := rowType;
    }

    method CreateWriter() returns (w: SinkWriter)
      ensures w == Neo4jSinkWriter(Config())
    {
      w := Neo4jSinkWriter(Config());
    }
  }
}
