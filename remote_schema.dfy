/** `RemoteSchemaManager`: a local repository node proxying schema calls to a
    remote repository. It resolves the authority token for the secret
    service, reads the remote repository's credential, builds the connection
    descriptor, forwards the call and stamps the local repository's identity
    on every schema it returns.

    The services it talks to are given as data in a `Context`: the two global
    settings, the caller's transaction token, the claims each decodable JWT
    carries, the secret service's answers and the Consul read answers. The
    remote connector's answer is the schema message(s) passed in. */
module RemoteSchema {
  import opened PyModel
  import opened ConsulClient
  import opened TokenValidator

  /** The repository record (`self.repository`, the local node's own record
      of the remote peer it delegates to). */
  datatype Repository = Repository(
    repositoryId: string,
    name: string,
    repositoryType: string,
    endpoint: string,
    version: string,
    secretId: string,
    domainId: string)

  /** Everything the manager reads from outside itself during one call. */
  datatype Context = Context(
    rootToken: PyVal,                                   // global ROOT_TOKEN
    rootTokenInfo: PyVal,                               // global ROOT_TOKEN_INFO
    transactionToken: PyVal,                            // the 'token' meta of the current transaction
    tokenClaims: map<PyVal, map<string, PyVal>>,        // unverified JWT decoding: tokens that decode, with their claims
    secrets: map<(string, PyVal), map<string, PyVal>>,  // `Secret.get_data` responses by (secret_id, domain_id)
    consulAnswers: seq<KvAnswer>)                       // successive Consul reads

  datatype Manager = Manager(repository: Repository, context: Context)

  /** `_get_domain_id_from_token`: the `did` claim of the decoded token. */
  function DomainIdFromToken(claims: map<PyVal, map<string, PyVal>>, token: PyVal): (r: Outcome<PyVal>)
    ensures r.Ok? <==> token in claims && "did" in claims[token]
    ensures r.Ok? ==> r.value == claims[token]["did"]
    ensures token !in claims ==> r == Raised(TokenDecodeError)
    ensures token in claims && "did" !in claims[token] ==> r == Raised(KeyError("did"))
  {
    if token !in claims then Raised(TokenDecodeError)
    else Subscript(PyDict(claims[token]), "did")
  }

  /** Which token authenticates the secret request. */
  datatype Authority = ConfiguredRoot | ConsulRoot | CallerToken

  /** The branch `_get_secret_data` takes: a ROOT_TOKEN other than "" wins,
      then a truthy ROOT_TOKEN_INFO, then the caller's own token. */
  function AuthorityOf(ctx: Context): Authority {
    if ctx.rootToken != PyStr("") then ConfiguredRoot
    else if Truthy(ctx.rootTokenInfo) then ConsulRoot
    else CallerToken
  }

  /** The shipped defaults (ROOT_TOKEN = "", ROOT_TOKEN_INFO = {}) select the
      caller's token. */
  lemma DefaultConfigUsesCallerToken(ctx: Context)
    requires ctx.rootToken == PyStr("") && ctx.rootTokenInfo == PyDict(map[])
    ensures AuthorityOf(ctx) == CallerToken
  {
  }

  /** The `Secret.get_data` request: the authenticating token and the body. */
  datatype SecretRequest = SecretRequest(token: PyVal, secretId: string, domainId: PyVal)

  function KeyOf(request: SecretRequest): (string, PyVal) {
    (request.secretId, request.domainId)
  }

  /** The secret lookup: the returned data, the request sent (None when the
      call failed before sending one) and the Consul polling it took. */
  datatype SecretLookup = SecretLookup(data: Outcome<PyVal>, request: Option<SecretRequest>, polls: seq<PollEvent>)

  /** Sends `request` and returns `secret_data['data']`. */
  function Fetch(request: SecretRequest, ctx: Context): Outcome<PyVal> {
    if KeyOf(request) in ctx.secrets then Subscript(PyDict(ctx.secrets[KeyOf(request)]), "data")
    else Raised(SecretServiceError)
  }

  /** `_get_secret_data(secret_id, domain_id)`. */
  function GetSecretData(secretId: string, domainId: string, ctx: Context): (r: SecretLookup)
    // the request always asks for the given secret, and its data is returned
    ensures r.request.Some? ==> r.request.value.secretId == secretId
    ensures r.data.Ok? <==> (r.request.Some? && KeyOf(r.request.value) in ctx.secrets
                             && "data" in ctx.secrets[KeyOf(r.request.value)])
    ensures r.data.Ok? ==> r.data.value == ctx.secrets[KeyOf(r.request.value)]["data"]
    ensures r.request.Some? && KeyOf(r.request.value) !in ctx.secrets ==> r.data == Raised(SecretServiceError)
    ensures r.request.Some? && KeyOf(r.request.value) in ctx.secrets && "data" !in ctx.secrets[KeyOf(r.request.value)]
            ==> r.data == Raised(KeyError("data"))
    // a configured root token authenticates, and its own domain is asked for
    ensures AuthorityOf(ctx) == ConfiguredRoot ==>
              var did := DomainIdFromToken(ctx.tokenClaims, ctx.rootToken);
              && r.polls == []
              && (r.request.None? <==> !did.Ok?)
              && (r.request.None? ==> r.data == did.PropagateFailure())
              && (r.request.Some? ==> r.request.value.token == ctx.rootToken && r.request.value.domainId == did.value)
    // otherwise a root token resolved through Consul, with its own domain
    ensures AuthorityOf(ctx) == ConsulRoot ==>
              var resolved := Resolve(ctx.rootTokenInfo, ctx.consulAnswers);
              && r.polls == resolved.polls
              && (r.request.Some? <==> resolved.token.Ok? && DomainIdFromToken(ctx.tokenClaims, resolved.token.value).Ok?)
              && (!resolved.token.Ok? ==> r.data == resolved.token.PropagateFailure())
              && (resolved.token.Ok? && !DomainIdFromToken(ctx.tokenClaims, resolved.token.value).Ok?
                  ==> r.data == DomainIdFromToken(ctx.tokenClaims, resolved.token.value).PropagateFailure())
              && (r.request.Some? ==> r.request.value.token == resolved.token.value
                                      && DomainIdFromToken(ctx.tokenClaims, resolved.token.value) == Ok(r.request.value.domainId))
    // otherwise the caller's token, with the caller's domain
    ensures AuthorityOf(ctx) == CallerToken ==>
              r.polls == [] && r.request == Some(SecretRequest(ctx.transactionToken, secretId, PyStr(domainId)))
  {
    match AuthorityOf(ctx)
    case ConfiguredRoot =>
      var did := DomainIdFromToken(ctx.tokenClaims, ctx.rootToken);
      if !did.Ok? then SecretLookup(did.PropagateFailure(), None, [])
      else
        var request := SecretRequest(ctx.rootToken, secretId, did.value);
        SecretLookup(Fetch(request, ctx), Some(request), [])
    case ConsulRoot =>
      var resolved := Resolve(ctx.rootTokenInfo, ctx.consulAnswers);
      if !resolved.token.Ok? then SecretLookup(resolved.token.PropagateFailure(), None, resolved.polls)
      else
        var did := DomainIdFromToken(ctx.tokenClaims, resolved.token.value);
        if !did.Ok? then SecretLookup(did.PropagateFailure(), None, resolved.polls)
        else
          var request := SecretRequest(resolved.token.value, secretId, did.value);
          SecretLookup(Fetch(request, ctx), Some(request), resolved.polls)
    case CallerToken =>
      var request := SecretRequest(ctx.transactionToken, secretId, PyStr(domainId));
      SecretLookup(Fetch(request, ctx), Some(request), [])
  }

  /** Whenever a root token is configured, the secret is looked up in the
      root token's own domain, whatever domain the caller gave. */
  lemma RootTokenDomainWins(secretId: string, domainId: string, ctx: Context)
    requires AuthorityOf(ctx) == ConfiguredRoot
    requires ctx.rootToken in ctx.tokenClaims && "did" in ctx.tokenClaims[ctx.rootToken]
    ensures GetSecretData(secretId, domainId, ctx).request
            == Some(SecretRequest(ctx.rootToken, secretId, ctx.tokenClaims[ctx.rootToken]["did"]))
  {
  }

  datatype Credential = Credential(token: PyVal)

  /** The connection descriptor handed to the remote repository connector. */
  datatype Connection = Connection(endpoint: string, version: string, credential: Credential)

  /** `_get_conn_from_repository(repo, domain_id)`: the repository's endpoint
      and version with the `token` of the secret stored under its
      `secret_id`. */
  function ConnFromRepository(repo: Repository, domainId: string, ctx: Context): (r: Outcome<Connection>)
    ensures var secret := GetSecretData(repo.secretId, domainId, ctx);
            && (r.Ok? <==> secret.data.Ok? && secret.data.value.PyDict? && "token" in secret.data.value.entries)
            && (r.Ok? ==> r.value.endpoint == repo.endpoint && r.value.version == repo.version
                          && r.value.credential.token == secret.data.value.entries["token"])
            && (!secret.data.Ok? ==> r == secret.data.PropagateFailure())
            && (secret.data.Ok? && !r.Ok? ==> r == Subscript(secret.data.value, "token").PropagateFailure())
  {
    var data :- GetSecretData(repo.secretId, domainId, ctx).data;
    var token :- Subscript(data, "token");
    Ok(Connection(repo.endpoint, repo.version, Credential(token)))
  }

  /** Example: with the shipped defaults, the secret "sec-1"
      of domain "dom-9" holding token "abc123" yields the connection to
      grpc://remote:50051, version v1, with that token. */
  lemma ConnectionScenario(ctx: Context)
    requires ctx.rootToken == PyStr("") && ctx.rootTokenInfo == PyDict(map[])
    requires ctx.secrets == map[("sec-1", PyStr("dom-9")) := map["data" := PyDict(map["token" := PyStr("abc123")])]]
    ensures var repo := Repository("repo-1", "central", "local", "grpc://remote:50051", "v1", "sec-1", "dom-1");
            ConnFromRepository(repo, "dom-9", ctx)
            == Ok(Connection("grpc://remote:50051", "v1", Credential(PyStr("abc123"))))
  {
    var repo := Repository("repo-1", "central", "local", "grpc://remote:50051", "v1", "sec-1", "dom-1");
    DefaultConfigUsesCallerToken(ctx);
    assert GetSecretData("sec-1", "dom-9", ctx).request == Some(SecretRequest(ctx.transactionToken, "sec-1", PyStr("dom-9")));
  }

  /** The `repository_info` sub-message of a schema. */
  class RepositoryInfoMessage {
    var repositoryId: string
    var name: string
    var repositoryType: string
  }

  /** A schema message returned by the remote repository. */
  class SchemaMessage {
    var name: string
    var schema: PyVal
    var domainId: string
    const repositoryInfo: RepositoryInfoMessage

    constructor (name: string, schema: PyVal, domainId: string, repositoryInfo: RepositoryInfoMessage)
      ensures this.name == name && this.schema == schema && this.domainId == domainId
      ensures this.repositoryInfo == repositoryInfo
    {
      this.name := name;
      this.schema := schema;
      this.domainId := domainId;
      this.repositoryInfo := repositoryInfo;
    }
  }

  /** What a schema message holds. */
  datatype SchemaView = SchemaView(
    name: string, schema: PyVal, domainId: string,
    infoRepositoryId: string, infoName: string, infoType: string)

  function View(s: SchemaMessage): SchemaView
    reads s, s.repositoryInfo
  {
    SchemaView(s.name, s.schema, s.domainId,
               s.repositoryInfo.repositoryId, s.repositoryInfo.name, s.repositoryInfo.repositoryType)
  }

  /** The schema as the caller must see it: served by the local repository.
      The schema's own `domain_id` stays the remote one. */
  function Rewritten(v: SchemaView, repo: Repository): SchemaView {
    v.(infoName := repo.name, infoType := repo.repositoryType)
  }

  /** The rewrite shows the local repository's name and type, keeps every
      other field, and is idempotent. */
  lemma RewriteProperties(v: SchemaView, repo: Repository)
    ensures Rewritten(v, repo).infoName == repo.name && Rewritten(v, repo).infoType == repo.repositoryType
    ensures Rewritten(v, repo).(infoName := v.infoName, infoType := v.infoType) == v
    ensures Rewritten(Rewritten(v, repo), repo) == Rewritten(v, repo)
  {
  }

  /** `_get_updated_schema_info`: overwrites the name and type of the
      schema's repository info in place and returns the same message. */
  method UpdateSchemaInfo(repo: Repository, s: SchemaMessage) returns (r: SchemaMessage)
    modifies s.repositoryInfo
    ensures r == s
    ensures View(s) == Rewritten(old(View(s)), repo)
  {
    s.repositoryInfo.name := repo.name;
    s.repositoryInfo.repositoryType := repo.repositoryType;
    r := s;
  }

  /** The call forwarded to the remote repository connector. */
  datatype RemoteRequest =
    | GetSchemaRequest(conn: Connection, schemaId: string, only: PyVal)
    | ListSchemasRequest(conn: Connection, query: PyVal)

  /** `get_schema(schema_id, domain_id, only)`; `answer` is what the remote
      repository returns for the forwarded request. */
  method GetSchema(m: Manager, schemaId: string, domainId: string, only: PyVal, answer: SchemaMessage)
    returns (r: Outcome<SchemaMessage>, request: Option<RemoteRequest>)
    modifies answer.repositoryInfo
    ensures var conn := ConnFromRepository(m.repository, domainId, m.context);
            && (conn.Ok? ==> request == Some(GetSchemaRequest(conn.value, schemaId, only))
                             && r == Ok(answer)
                             && View(answer) == Rewritten(old(View(answer)), m.repository))
            && (!conn.Ok? ==> request == None && r == conn.PropagateFailure() && unchanged(answer.repositoryInfo))
  {
    var conn := ConnFromRepository(m.repository, domainId, m.context);
    if !conn.Ok? {
      return conn.PropagateFailure(), None;
    }
    request := Some(GetSchemaRequest(conn.value, schemaId, only));
    var schema := UpdateSchemaInfo(m.repository, answer);
    r := Ok(schema);
  }

  /** The remote `list_schemas` response. */
  datatype ListResponse = ListResponse(results: seq<SchemaMessage>, totalCount: int)

  /** `list_schemas(query, domain_id)`: every returned schema is rewritten in
      place; the results keep their order and the total count is passed
      through. `response` is the remote repository's answer. */
  method ListSchemas(m: Manager, query: PyVal, domainId: string, response: ListResponse)
    returns (r: Outcome<(seq<SchemaMessage>, int)>, request: Option<RemoteRequest>)
    modifies set s | s in response.results :: s.repositoryInfo
    ensures var conn := ConnFromRepository(m.repository, domainId, m.context);
            && (conn.Ok? ==> request == Some(ListSchemasRequest(conn.value, query))
                             && r == Ok((response.results, response.totalCount))
                             && forall i :: 0 <= i < |response.results| ==>
                                  View(response.results[i]) == Rewritten(old(View(response.results[i])), m.repository))
            && (!conn.Ok? ==> request == None && r == conn.PropagateFailure()
                              && forall s :: s in response.results ==> unchanged(s.repositoryInfo))
  {
    var conn := ConnFromRepository(m.repository, domainId, m.context);
    if !conn.Ok? {
      return conn.PropagateFailure(), None;
    }
    request := Some(ListSchemasRequest(conn.value, query));
    var results := response.results;
    for i := 0 to |results|
      invariant forall j :: 0 <= j < i ==> results[j].repositoryInfo.name == m.repository.name
                                           && results[j].repositoryInfo.repositoryType == m.repository.repositoryType
      invariant forall j :: 0 <= j < |results| ==>
                  results[j].repositoryInfo.repositoryId == old(results[j].repositoryInfo.repositoryId)
    {
      var _ := UpdateSchemaInfo(m.repository, results[i]);
    }
    r := Ok((results, response.totalCount));
  }

  /** `stat_schemas` is not supported for a remote repository, whatever the
      query. */
  function StatSchemas(query: PyVal, domainId: string): (r: Outcome<PyVal>)
    ensures r.Raised? && r.exc == NotImplementedError("Remote repository is not supported.")
  {
    Raised(NotImplementedError("Remote repository is not supported."))
  }
}
