/** The thin Consul accessor of the remote schema manager: option filtering
    for the client and the single key read that collapses every failure to
    `False`. The Consul client and its transport are not modelled; one read is
    an oracle answer. */
module ConsulClient {
  import opened PyModel

  type byte = x: int | 0 <= x < 256

  /** The connection options the Consul client accepts, in the order the
      filter visits them. */
  const CONSUL_OPTIONS: seq<string> :=
    ["host", "port", "token", "scheme", "consistency", "dc", "verify", "cert"]

  /** The options forwarded to the client: exactly the listed options whose
      configured value is truthy, with that value. */
  function ConsulOptions(config: map<string, PyVal>): map<string, PyVal> {
    map k | k in config && k in CONSUL_OPTIONS && Truthy(config[k]) :: config[k]
  }

  /** `Consul._validate_config`: builds the option dict one listed option at
      a time, keeping a value only when it is truthy. */
  method ValidateConfig(config: map<string, PyVal>) returns (result: map<string, PyVal>)
    ensures forall k :: k in result ==> k in CONSUL_OPTIONS
    ensures forall k :: k in result <==> k in CONSUL_OPTIONS && k in config && Truthy(config[k])
    ensures forall k :: k in result ==> result[k] == config[k]
    ensures result == ConsulOptions(config)
  {
    result := map[];
    for n := 0 to |CONSUL_OPTIONS|
      invariant forall k :: k in result <==> k in CONSUL_OPTIONS[..n] && k in config && Truthy(config[k])
      invariant forall k :: k in result ==> result[k] == config[k]
    {
      var item := CONSUL_OPTIONS[n];
      var value := if item in config then config[item] else PyNone;
      if Truthy(value) {
        result := result[item := value];
      }
      assert CONSUL_OPTIONS[..n + 1] == CONSUL_OPTIONS[..n] + [item];
    }
    assert CONSUL_OPTIONS[..|CONSUL_OPTIONS|] == CONSUL_OPTIONS;
  }

  /** What one `kv.get(key)` through a freshly built client yields. */
  datatype KvAnswer =
    | KvFailed                            // client construction, transport or timeout error
    | KvMissing                           // the key does not exist: `data` is None
    | KvEntry(stored: Option<seq<byte>>)  // `data['Value']`; None when the key holds no value

  predicate IsAscii(bytes: seq<byte>) {
    forall i :: 0 <= i < |bytes| ==> bytes[i] < 128
  }

  function DecodeAscii(bytes: seq<byte>): (s: string)
    requires IsAscii(bytes)
    ensures |s| == |bytes|
    ensures forall i :: 0 <= i < |bytes| ==> s[i] as int == bytes[i]
  {
    seq(|bytes|, i requires 0 <= i < |bytes| => bytes[i] as char)
  }

  /** `Consul.patch_token`: the stored value decoded as ASCII, or `False` when
      anything goes wrong (no key, no value, transport error, a byte outside
      ASCII). */
  function PatchToken(answer: KvAnswer): (r: PyVal)
    ensures r == PyBool(false) || r.PyStr?
    ensures r.PyStr? <==> answer.KvEntry? && answer.stored.Some? && IsAscii(answer.stored.value)
    ensures r.PyStr? ==> |r.s| == |answer.stored.value|
                         && forall i :: 0 <= i < |r.s| ==> r.s[i] as int == answer.stored.value[i]
  {
    match answer
    case KvEntry(Some(bytes)) =>
      if IsAscii(bytes) then PyStr(DecodeAscii(bytes)) else PyBool(false)
    case _ => PyBool(false)
  }

  /** A configuration that asks for `verify=False` cannot disable TLS
      verification: the falsy value is filtered out like an absent one. */
  lemma VerifyFalseIsDropped(config: map<string, PyVal>)
    requires "verify" in config && config["verify"] == PyBool(false)
    ensures "verify" !in ConsulOptions(config)
  {
  }
}
