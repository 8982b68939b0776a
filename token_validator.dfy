/** `_validate_token`: a literal token passes through; a Consul descriptor
    `{protocol: 'consul', config, uri}` is resolved by reading the key `uri`
    until the read stops answering `False`, sleeping `INTERVAL` seconds after
    every read that did not yield a truthy value.

    The reads are an oracle: `answers[i]` is what the (i+1)-th read returns.
    The source loop is unbounded; when the answers run out while every read
    so far gave `False`, the model reports `Blocked`. */
module TokenValidator {
  import opened PyModel
  import opened ConsulClient

  /** `_INTERVAL`, the seconds slept between reads. */
  const INTERVAL: nat := 10

  /** One observable step of the polling loop. */
  datatype PollEvent =
    | Read(options: map<string, PyVal>, key: PyVal)
    | Sleep(seconds: nat)

  /** The result of resolving a token and the reads and sleeps it took. */
  datatype Resolution = Resolution(token: Outcome<PyVal>, polls: seq<PollEvent>)

  /** The index of the first read that does not answer `False`, or `|answers|`
      when there is none. */
  function FirstReady(answers: seq<KvAnswer>): (k: nat)
    ensures k <= |answers|
    ensures forall i :: 0 <= i < k ==> PatchToken(answers[i]) == PyBool(false)
    ensures k < |answers| ==> PatchToken(answers[k]) != PyBool(false)
  {
    if answers == [] || PatchToken(answers[0]) != PyBool(false) then 0
    else 1 + FirstReady(answers[1..])
  }

  /** `n` rounds of a read answering `False` followed by a sleep. */
  function Waits(options: map<string, PyVal>, key: PyVal, n: nat): seq<PollEvent> {
    if n == 0 then [] else Waits(options, key, n - 1) + [Read(options, key), Sleep(INTERVAL)]
  }

  /** The events of the loop over `answers`: the `False` rounds, then the
      deciding read, followed by one more sleep when its value is falsy. */
  function PollTrace(options: map<string, PyVal>, key: PyVal, answers: seq<KvAnswer>): seq<PollEvent> {
    var k := FirstReady(answers);
    Waits(options, key, k)
      + if k == |answers| then []
        else if Truthy(PatchToken(answers[k])) then [Read(options, key)]
        else [Read(options, key), Sleep(INTERVAL)]
  }

  /** A dict that `_validate_token` treats as a Consul descriptor. */
  predicate IsConsulDescriptor(token: PyVal) {
    token.PyDict? && "protocol" in token.entries && token.entries["protocol"] == PyStr("consul")
  }

  /** `_validate_token(token)` over the read answers. A dict without
      `protocol` raises `KeyError`; a 'consul' descriptor without `config` or
      `uri` raises `KeyError`; a non-dict `config` has
      no `.get` and raises `AttributeError`. The `uri` lookup sits inside the
      loop in the source and fails on its first iteration, before any read. */
  function Resolve(token: PyVal, answers: seq<KvAnswer>): Resolution {
    if !token.PyDict? then Resolution(Ok(token), [])
    else if "protocol" !in token.entries then Resolution(Raised(KeyError("protocol")), [])
    else if token.entries["protocol"] != PyStr("consul") then Resolution(Ok(token), [])
    else if "config" !in token.entries then Resolution(Raised(KeyError("config")), [])
    else if !token.entries["config"].PyDict? then Resolution(Raised(AttributeError("get")), [])
    else if "uri" !in token.entries then Resolution(Raised(KeyError("uri")), [])
    else
      var options := ConsulOptions(token.entries["config"].entries);
      var key := token.entries["uri"];
      var k := FirstReady(answers);
      Resolution(if k < |answers| then Ok(PatchToken(answers[k])) else Blocked,
                 PollTrace(options, key, answers))
  }

  /** `_validate_token` with its polling loop; `polls` records every read and
      every sleep in order. */
  method ValidateToken(token: PyVal, answers: seq<KvAnswer>) returns (r: Outcome<PyVal>, polls: seq<PollEvent>)
    ensures Resolution(r, polls) == Resolve(token, answers)
  {
    polls := [];
    if token.PyDict? {
      if "protocol" !in token.entries {
        return Raised(KeyError("protocol")), [];
      }
      var protocol := token.entries["protocol"];
      if protocol == PyStr("consul") {
        if "config" !in token.entries {
          return Raised(KeyError("config")), [];
        }
        var config := token.entries["config"];
        if !config.PyDict? {
          return Raised(AttributeError("get")), [];
        }
        var options := ValidateConfig(config.entries);
        if "uri" !in token.entries {
          return Raised(KeyError("uri")), [];
        }
        var key := token.entries["uri"];
        ghost var k := FirstReady(answers);
        var value := PyBool(false);
        var n := 0;
        while value == PyBool(false)
          invariant 0 <= n <= |answers|
          invariant value == PyBool(false) ==> n <= k && polls == Waits(options, key, n)
          invariant value != PyBool(false) ==> n == k + 1 && value == PatchToken(answers[k]) && !Truthy(value)
                                               && polls == Waits(options, key, k) + [Read(options, key), Sleep(INTERVAL)]
          decreases |answers| - n
        {
          if n == |answers| {
            return Blocked, polls;
          }
          value := PatchToken(answers[n]);
          polls := polls + [Read(options, key)];
          n := n + 1;
          if Truthy(value) {
            break;
          }
          polls := polls + [Sleep(INTERVAL)];
        }
        assert n - 1 == k;
        return Ok(value), polls;
      }
    }
    r := Ok(token);
  }

  /** The number of reads in a trace. */
  function CountReads(polls: seq<PollEvent>): (n: nat)
    ensures n <= |polls|
  {
    if polls == [] then 0 else CountReads(polls[..|polls| - 1]) + if polls[|polls| - 1].Read? then 1 else 0
  }

  /** The total seconds slept in a trace. */
  function SleptSeconds(polls: seq<PollEvent>): nat {
    if polls == [] then 0
    else SleptSeconds(polls[..|polls| - 1]) + if polls[|polls| - 1].Sleep? then polls[|polls| - 1].seconds else 0
  }

  lemma {:induction false} CountsOfAppend(a: seq<PollEvent>, b: seq<PollEvent>)
    ensures CountReads(a + b) == CountReads(a) + CountReads(b)
    ensures SleptSeconds(a + b) == SleptSeconds(a) + SleptSeconds(b)
    decreases |b|
  {
    if b == [] {
      assert a + b == a;
    } else {
      var b' := b[..|b| - 1];
      assert (a + b)[..|a + b| - 1] == a + b';
      CountsOfAppend(a, b');
    }
  }

  lemma RoundCounts(options: map<string, PyVal>, key: PyVal)
    ensures CountReads([Read(options, key)]) == 1 && SleptSeconds([Read(options, key)]) == 0
    ensures CountReads([Read(options, key), Sleep(INTERVAL)]) == 1
    ensures SleptSeconds([Read(options, key), Sleep(INTERVAL)]) == INTERVAL
  {
    assert [Read(options, key), Sleep(INTERVAL)][..1] == [Read(options, key)];
    assert [Read(options, key)][..0] == [];
  }

  /** `n` waiting rounds hold `n` reads and `n` sleeps of `INTERVAL`, and every
      read goes to the same client options and key. */
  lemma {:induction false} WaitsCounts(options: map<string, PyVal>, key: PyVal, n: nat)
    ensures CountReads(Waits(options, key, n)) == n
    ensures SleptSeconds(Waits(options, key, n)) == n * INTERVAL
    ensures forall e :: e in Waits(options, key, n) ==> e == Read(options, key) || e == Sleep(INTERVAL)
  {
    if n > 0 {
      WaitsCounts(options, key, n - 1);
      RoundCounts(options, key);
      CountsOfAppend(Waits(options, key, n - 1), [Read(options, key), Sleep(INTERVAL)]);
    }
  }

  /** The loop's trace: one read per answer up to and including the first
      that is not `False`, a sleep after each `False` one, and a final sleep
      only when the deciding value is falsy. */
  lemma {:induction false} PollTraceCounts(options: map<string, PyVal>, key: PyVal, answers: seq<KvAnswer>)
    ensures var k := FirstReady(answers);
            CountReads(PollTrace(options, key, answers)) == if k < |answers| then k + 1 else k
    ensures var k := FirstReady(answers);
            SleptSeconds(PollTrace(options, key, answers))
            == INTERVAL * (if k < |answers| && !Truthy(PatchToken(answers[k])) then k + 1 else k)
    ensures forall e :: e in PollTrace(options, key, answers) ==> e == Read(options, key) || e == Sleep(INTERVAL)
  {
    var k := FirstReady(answers);
    WaitsCounts(options, key, k);
    RoundCounts(options, key);
    var tail: seq<PollEvent> :=
      if k == |answers| then []
      else if Truthy(PatchToken(answers[k])) then [Read(options, key)]
      else [Read(options, key), Sleep(INTERVAL)];
    assert PollTrace(options, key, answers) == Waits(options, key, k) + tail;
    CountsOfAppend(Waits(options, key, k), tail);
  }

  /** For a well-formed Consul descriptor, resolution is the loop over the
      filtered options and the `uri` key (the last branch of `Resolve`,
      unfolded for the lemmas below). */
  lemma ConsulBranch(token: PyVal, answers: seq<KvAnswer>)
    requires IsConsulDescriptor(token)
    requires "config" in token.entries && token.entries["config"].PyDict? && "uri" in token.entries
    ensures var k := FirstReady(answers);
            Resolve(token, answers)
            == Resolution(if k < |answers| then Ok(PatchToken(answers[k])) else Blocked,
                          PollTrace(ConsulOptions(token.entries["config"].entries), token.entries["uri"], answers))
  {
  }

  /** For a well-formed Consul descriptor, a token is returned exactly when
      some read answers other than `False`, and it is the first such answer;
      otherwise the loop is still polling. No exception is raised. */
  lemma ResolveConsul(token: PyVal, answers: seq<KvAnswer>)
    requires IsConsulDescriptor(token)
    requires "config" in token.entries && token.entries["config"].PyDict? && "uri" in token.entries
    ensures Resolve(token, answers).token.Ok?
            <==> exists i :: 0 <= i < |answers| && PatchToken(answers[i]) != PyBool(false)
    ensures Resolve(token, answers).token.Ok? ==>
              exists k :: 0 <= k < |answers| && Resolve(token, answers).token.value == PatchToken(answers[k])
                          && PatchToken(answers[k]) != PyBool(false)
                          && forall i :: 0 <= i < k ==> PatchToken(answers[i]) == PyBool(false)
    ensures !Resolve(token, answers).token.Ok? ==> Resolve(token, answers).token == Blocked
  {
    ConsulBranch(token, answers);
  }

  /** A literal token, and a dict whose protocol is not 'consul', are returned
      as they are, without any read of the coordination store. */
  lemma NonConsulTokenUnchanged(token: PyVal, answers: seq<KvAnswer>)
    requires !token.PyDict? || ("protocol" in token.entries && token.entries["protocol"] != PyStr("consul"))
    ensures Resolve(token, answers) == Resolution(Ok(token), [])
  {
  }

  /** For a well-formed Consul descriptor whose reads answer `False` exactly
      k times and then a value: that value is returned after k + 1 reads,
      with k sleeps between them, and one more sleep when the value is falsy
      (an empty string ends the loop because it is not `False`). Every read
      uses the filtered options and the descriptor's `uri`. */
  lemma {:induction false} ConsulReturnsFirstNonFalse(token: PyVal, answers: seq<KvAnswer>, k: nat)
    requires IsConsulDescriptor(token)
    requires "config" in token.entries && token.entries["config"].PyDict? && "uri" in token.entries
    requires k < |answers|
    requires forall i :: 0 <= i < k ==> PatchToken(answers[i]) == PyBool(false)
    requires PatchToken(answers[k]) != PyBool(false)
    ensures Resolve(token, answers).token == Ok(PatchToken(answers[k]))
    ensures CountReads(Resolve(token, answers).polls) == k + 1
    ensures SleptSeconds(Resolve(token, answers).polls)
            == INTERVAL * (if Truthy(PatchToken(answers[k])) then k else k + 1)
    ensures forall e :: e in Resolve(token, answers).polls ==>
              e == Read(ConsulOptions(token.entries["config"].entries), token.entries["uri"]) || e == Sleep(INTERVAL)
  {
    ConsulBranch(token, answers);
    PollTraceCounts(ConsulOptions(token.entries["config"].entries), token.entries["uri"], answers);
  }

  /** While every read answers `False`, the loop never returns a value: with
      only such answers it is still polling, having read each one and slept
      after each. */
  lemma {:induction false} AllFalseKeepsPolling(token: PyVal, answers: seq<KvAnswer>)
    requires IsConsulDescriptor(token)
    requires "config" in token.entries && token.entries["config"].PyDict? && "uri" in token.entries
    requires forall i :: 0 <= i < |answers| ==> PatchToken(answers[i]) == PyBool(false)
    ensures Resolve(token, answers).token == Blocked
    ensures CountReads(Resolve(token, answers).polls) == |answers|
    ensures SleptSeconds(Resolve(token, answers).polls) == INTERVAL * |answers|
  {
    ConsulBranch(token, answers);
    PollTraceCounts(ConsulOptions(token.entries["config"].entries), token.entries["uri"], answers);
  }

  /** Example: the key is absent three times, then holds
      "root-tok"; the token is returned after four reads and 30 seconds. */
  lemma RootTokenAfterThreeMisses()
    ensures var descriptor := PyDict(map["protocol" := PyStr("consul"),
                                         "config" := PyDict(map["host" := PyStr("consul.example.com")]),
                                         "uri" := PyStr("/debug/supervisor/TOKEN")]);
            var rootTok: seq<byte> := [114, 111, 111, 116, 45, 116, 111, 107];
            var answers := [KvMissing, KvMissing, KvMissing, KvEntry(Some(rootTok))];
            var res := Resolve(descriptor, answers);
            res.token == Ok(PyStr("root-tok"))
            && CountReads(res.polls) == 4 && SleptSeconds(res.polls) == 30
  {
    var descriptor := PyDict(map["protocol" := PyStr("consul"),
                                 "config" := PyDict(map["host" := PyStr("consul.example.com")]),
                                 "uri" := PyStr("/debug/supervisor/TOKEN")]);
    var rootTok: seq<byte> := [114, 111, 111, 116, 45, 116, 111, 107];
    var answers := [KvMissing, KvMissing, KvMissing, KvEntry(Some(rootTok))];
    assert IsAscii(rootTok);
    assert DecodeAscii(rootTok) == "root-tok";
    ConsulReturnsFirstNonFalse(descriptor, answers, 3);
  }
}
