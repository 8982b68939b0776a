# Remote schema delegation and plugin serialisation, modelled in Dafny

This project models two small parts of a plugin/schema repository service.

1. **Remote schema delegation** (`RemoteSchemaManager`). A local repository
   node proxies schema calls to a remote peer repository (such as a
   marketplace):
   - It picks the authority token for the secret service. The order is a
     configured `ROOT_TOKEN`, then a root token polled from Consul through
     `ROOT_TOKEN_INFO`, then the caller's own token.
   - It reads the remote repository's credential from the secret service and
     builds the connection descriptor `{endpoint, version, credential: {token}}`.
   - It forwards `get_schema` and `list_schemas`.
   - It overwrites `repository_info.name` and `repository_info.repository_type`
     on every returned schema with the local repository's values.
   - `stat_schemas` always refuses.

   Token resolution (`_validate_token`) polls Consul until a read stops
   answering `False`, sleeping 10 seconds between reads.
2. **Plugin serialisation** (`PluginInfo`, `PluginsInfo`, `VersionsInfo`). This
   is the field mapping from a plugin record to its output message. A
   `minimal` flag chooses the key set. `repository_info` takes precedence over
   `repository`. A one-off migration step back-fills the record's
   `repository_id`.

Modules:

- `PyModel` (`pymodel.dfy`) holds Python values with their truthiness, the
  exceptions, and `Outcome` (a value, a raised exception, or `Blocked`).
- `ConsulClient` (`consul.dfy`) holds the option filter and the single Consul
  read. A read is an oracle answer `KvAnswer`.
- `TokenValidator` (`token_validator.dfy`) holds the polling loop as a method.
  The method is proved equal to the specification function `Resolve`, whose
  reads and sleeps are counted by lemmas.
- `RemoteSchema` (`remote_schema.dfy`) holds the credential priority, the
  connection descriptor, and the schema messages. Schema messages are classes
  because they are rewritten in place. It also holds get, list and stat.
- `PluginSerialiser` (`plugin_info.dfy`) holds the plugin record as a class.
  Only `repository_id` can change. It also holds the output message and the
  list and count wrappers.

The external services are inputs:

- Consul reads are a sequence of answers.
- `time.sleep` is a `Sleep` event in the returned trace.
- JWT decoding is a map from token to claims.
- The secret service is a map from `(secret_id, domain_id)` to its response.
- The transaction token and the two global settings are fields of `Context`.
- The remote connector's answer is passed in as the schema message or messages.

Where the code's behaviour may surprise a reader, the model follows the code:

- A dict token whose `protocol` is not `'consul'` is returned unchanged. No
  configuration error is raised.
- A read that yields a falsy value that is not `False`, such as `""`, ends the
  loop after one more sleep, and that value is returned.
- A dict without `protocol` raises `KeyError`; a `'consul'` descriptor without `config` or `uri` raises `KeyError`.
- A `config` that is not a dict raises `AttributeError`.
- The rewrite of `list_schemas` results mutates the returned messages in place.
  It does not build new records.
- The schema's own `domain_id` stays the remote one. The source leaves this as
  a TODO.

Because the option filter keeps only truthy values, a configured
`verify=False` is dropped and cannot reach the Consul client
(`VerifyFalseIsDropped`).

## Model

| member | source | states |
|---|---|---|
| ConsulClient.ValidateConfig | src/spaceone/repository/manager/schema_manager/remote_schema_manager.py:157-168 | the result's keys are among the eight listed options; a key is present iff the config holds a truthy value for it; each present value equals the configured one; every other key is dropped |
| ConsulClient.VerifyFalseIsDropped | src/spaceone/repository/manager/schema_manager/remote_schema_manager.py:164-167 | a configured `verify=False` never reaches the Consul client |
| ConsulClient.PatchToken | src/spaceone/repository/manager/schema_manager/remote_schema_manager.py:170-182 | the result is `False` or a string; it is a string exactly when the key exists, holds a value and that value is ASCII, and the string is that value decoded byte for byte; every failure collapses to `False` |
| TokenValidator.FirstReady | src/spaceone/repository/manager/schema_manager/remote_schema_manager.py:21-27 | the index of the first read that is not `False`: every earlier read answered `False`, and the read at that index did not |
| TokenValidator.ValidateToken | src/spaceone/repository/manager/schema_manager/remote_schema_manager.py:16-33 | the polling loop returns exactly the token and the read/sleep trace of `Resolve`, including the `KeyError`/`AttributeError` paths and `Blocked` when the answers run out |
| TokenValidator.NonConsulTokenUnchanged | src/spaceone/repository/manager/schema_manager/remote_schema_manager.py:16-19 | a non-dict token, and a dict whose protocol is not 'consul', are returned unchanged with no read and no sleep |
| TokenValidator.ResolveConsul | src/spaceone/repository/manager/schema_manager/remote_schema_manager.py:19-30 | for a well-formed Consul descriptor, a token is returned iff some read answers other than `False`, and it is the first such answer; otherwise the call is still polling and never raises |
| TokenValidator.WaitsCounts | src/spaceone/repository/manager/schema_manager/remote_schema_manager.py:23-28 | n rounds of a `False` read contain n reads and n sleeps of 10 seconds, all reads using the same options and key |
| TokenValidator.PollTraceCounts | src/spaceone/repository/manager/schema_manager/remote_schema_manager.py:21-30 | the loop reads once per answer up to and including the first non-`False` one; it sleeps after every `False` read and once more only when the deciding value is falsy |
| TokenValidator.ConsulReturnsFirstNonFalse | src/spaceone/repository/manager/schema_manager/remote_schema_manager.py:20-30 | if reads 1..k answer `False` and read k+1 answers v, the result is v after k+1 reads; it slept 10·k seconds when v is truthy and 10·(k+1) when v is falsy; every read used the filtered options and the `uri` |
| TokenValidator.AllFalseKeepsPolling | src/spaceone/repository/manager/schema_manager/remote_schema_manager.py:23-28 | while every read answers `False` no value is returned; each read is followed by a 10-second sleep |
| TokenValidator.RootTokenAfterThreeMisses | src/spaceone/repository/manager/schema_manager/remote_schema_manager.py:20-30 | the key missing three times and then holding "root-tok" gives "root-tok" after 4 reads and 30 seconds of sleep |
| RemoteSchema.DomainIdFromToken | src/spaceone/repository/manager/schema_manager/remote_schema_manager.py:138-140 | the domain is the `did` claim of the decoded token; an undecodable token or a missing claim is an error |
| RemoteSchema.DefaultConfigUsesCallerToken | src/spaceone/repository/conf/global_conf.py:57-58 | the shipped defaults `ROOT_TOKEN = ""` and `ROOT_TOKEN_INFO = {}` select the caller's own token |
| RemoteSchema.GetSecretData | src/spaceone/repository/manager/schema_manager/remote_schema_manager.py:113-136 | three-way priority: a ROOT_TOKEN other than "" authenticates and its own `did` is the domain; else a truthy ROOT_TOKEN_INFO is resolved through Consul and that token and its `did` are used; else the transaction token and the caller's domain. The request always names the given secret, and the result is exactly the response's `data`. Errors: a token whose `did` cannot be read raises that error (also after Consul resolution); a missing secret is a secret-service error; a response without `data` raises `KeyError('data')` |
| RemoteSchema.RootTokenDomainWins | src/spaceone/repository/manager/schema_manager/remote_schema_manager.py:119-121 | with a root token configured, the secret is requested in the root token's domain whatever domain the caller passed |
| RemoteSchema.ConnFromRepository | src/spaceone/repository/manager/schema_manager/remote_schema_manager.py:76-91 | the connection holds the repository's endpoint and version and the `token` of the secret looked up by the repository's `secret_id`; it fails exactly when the secret lookup fails or has no `token`; the lookup's error is passed on unchanged, and a missing `token` raises the error of `credentials['token']` |
| RemoteSchema.ConnectionScenario | src/spaceone/repository/manager/schema_manager/remote_schema_manager.py:84-91 | under the defaults, secret sec-1 in dom-9 with token abc123 yields the connection {grpc://remote:50051, v1, abc123} |
| RemoteSchema.RewriteProperties | src/spaceone/repository/manager/schema_manager/remote_schema_manager.py:106-108 | after the rewrite, the repository info's name and type are the local repository's and every other field is as before; rewriting twice equals rewriting once |
| RemoteSchema.UpdateSchemaInfo | src/spaceone/repository/manager/schema_manager/remote_schema_manager.py:93-108 | returns the same message, whose new contents are the rewrite of its old contents by the local repository |
| RemoteSchema.GetSchema | src/spaceone/repository/manager/schema_manager/remote_schema_manager.py:43-54 | forwards the schema id and `only` over the connection built from the repository and returns the remote schema rewritten; if the connection cannot be built, nothing is sent and nothing changes |
| RemoteSchema.ListSchemas | src/spaceone/repository/manager/schema_manager/remote_schema_manager.py:56-71 | forwards the query; returns the remote results in the same order and length, each rewritten in place, with the total count unchanged; if the connection cannot be built, nothing is sent or changed |
| RemoteSchema.StatSchemas | src/spaceone/repository/manager/schema_manager/remote_schema_manager.py:73-74 | always raises `NotImplementedError`, for every query and domain |
| PluginSerialiser.DetailsOf | src/spaceone/repository/info/plugin_info.py:21-33 | the full-output fields: registry url, project and domain copied; capability and template struct-converted; labels list-converted; tags passed through when already a Struct, else converted from the tag list; each timestamp is its ISO-8601 conversion when that is truthy, else the raw value |
| PluginSerialiser.InfoFields | src/spaceone/repository/info/plugin_info.py:12-42 | minimal output has exactly plugin_id, name, state, image, service_type, provider, copied from the record; full output adds the nine further keys, plus `repository_info` exactly when the record has `repository` or `repository_info` |
| PluginSerialiser.RepositoryInfoPrecedence | src/spaceone/repository/info/plugin_info.py:37-42 | `repository_info` appears only in the full output; it comes from `repository_info` when that is set, else from `repository` |
| PluginSerialiser.BuildInfo | src/spaceone/repository/info/plugin_info.py:12-42 | the successive updates (base fields, full fields, the `repository` entry, then the `repository_info` entry over it) build exactly `InfoOf` |
| PluginSerialiser.MigrationIdempotent | src/spaceone/repository/info/plugin_info.py:45-46 | a back-filled `repository_id` is left alone by a second migration |
| PluginSerialiser.MigrateRepositoryId | src/spaceone/repository/info/plugin_info.py:44-46 | `repository_id` is overwritten with `repository.repository_id` exactly when it is empty and `repository` is set; a repository without that attribute raises; nothing else changes |
| PluginSerialiser.PluginInfo | src/spaceone/repository/info/plugin_info.py:12-48 | returns `InfoOf(p, minimal)`; the record is touched only when not minimal, `repository_id` is empty and `repository` is set |
| PluginSerialiser.InfosOfAt | src/spaceone/repository/info/plugin_info.py:51-53 | the mapped list has one message per record, the i-th being the message of the i-th record |
| PluginSerialiser.PluginsInfo | src/spaceone/repository/info/plugin_info.py:51-53 | results are the records mapped in order with the same `minimal`; `total_count` is passed through; the call fails exactly when some record's migration fails; on success every record is migrated once |
| PluginSerialiser.VersionsInfo | src/spaceone/repository/info/plugin_info.py:56-57 | the results are the version list unchanged and `total_count` is its length |

## Left out

- The Consul client and its transport (`consul.Consul`, `kv.get`) are not modelled. Each read is an oracle answer: failed, missing key, or stored bytes.
- `time.sleep` is not modelled. Each sleep is a `Sleep(10)` event in the returned trace.
- The polling loop has no bound in the source. The model reads a finite list of answers and reports `Blocked` when they run out. It claims nothing about termination in general.
- JWT decoding internals (`JWTUtil.unverified_decode`) are not modelled. Decoding is a map from token to claims, and an absent token is a decode error.
- `SpaceConnector.dispatch` and `locator.get_connector` are foreign RPC plumbing.
  - The secret service is a map from `(secret_id, domain_id)` to its response. Any missing entry is one `SecretServiceError`, and the answer does not depend on the authenticating token.
  - The remote connector's reply is a parameter, so a failure of the remote call itself is not modelled.
- Logging calls are not modelled.
- Building the protobuf messages (`plugin_pb2.*`) is not modelled. The converters `change_struct_type`, `change_list_value_type`, `tags_to_dict`, `datetime_to_iso8601` and `RepositoryInfo(..., minimal=True)` are opaque total functions.
- Schema messages carry only name, schema body, domain id and repository info (id, name, type). No other field is read or written by this code.
- Plugin records declare every field, so only `repository` and `repository_info` can be absent, and they read as None.
- The `plugin_vo.update` migration is a write to the record's `repository_id`. The model does not separate the stored document from the in-memory object.
- PluginSerialiser.PluginsInfo: when a record's migration fails, the contract says only that each record is either untouched or migrated. It does not say that exactly the records before the failing one were migrated.
- Most of src/spaceone/repository/conf/global_conf.py is not part of this model. Only `ROOT_TOKEN` and `ROOT_TOKEN_INFO` are used, as fields of `Context`.
