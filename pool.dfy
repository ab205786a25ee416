/**
 * The client pool: one upstream client per configured token group, and a
 * round-robin cursor over the groups that picks the credential for each
 * request. `client_i` in the pool is `clients[i]` here; the endless
 * `cycle` over the groups is the list `ring` with a position `cursor`
 * (an empty ring stands for a cycle that was never built).
 */
module Pool {
  import opened Wrappers
  import opened PyJson
  import opened Upstream

  /** A token group whose `token` entry a client can be built from. */
  predicate HasStrToken(group: TokenGroup)
  {
    "token" in group && group["token"].Str?
  }

  function TokenOf(group: TokenGroup): string
    requires HasStrToken(group)
  {
    group["token"].s
  }

  /** Why no client could be handed out (both are HTTP 503). */
  datatype Unavailable = NoClients | NotInitialized

  /** The ring position after `next(token_cycle)` has taken position `p`. */
  function Advance(p: nat, size: nat): (q: nat)
    requires p < size
    ensures q < size
  {
    if p + 1 == size then 0 else p + 1
  }

  /** The positions taken by `calls` successive picks starting at position `p`. */
  function Orbit(p: nat, size: nat, calls: nat): (o: seq<nat>)
    requires p < size
    ensures |o| == calls
    ensures forall t :: 0 <= t < calls ==> o[t] < size
    decreases calls
  {
    if calls == 0 then [] else [p] + Orbit(Advance(p, size), size, calls - 1)
  }

  /** Within one lap the position simply moves on by one, wrapping once at the end. */
  lemma {:induction false} OrbitClosedForm(p: nat, size: nat, calls: nat)
    requires p < size && calls <= size
    ensures forall t :: 0 <= t < calls ==>
      Orbit(p, size, calls)[t] == if p + t < size then p + t else p + t - size
    decreases calls
  {
    if calls > 0 {
      OrbitClosedForm(Advance(p, size), size, calls - 1);
    }
  }

  /** Tokens picked along the orbit from position 0 are the ring's first tokens, in order. */
  lemma TokensInOrder(p: nat, ring: seq<TokenGroup>, tokens: seq<string>)
    requires p < |ring|
    requires forall k :: 0 <= k < |ring| ==> HasStrToken(ring[k])
    requires forall t :: 0 <= t < |tokens| ==> tokens[t] == TokenOf(ring[Orbit(p, |ring|, |tokens|)[t]])
    ensures p == 0 && |tokens| <= |ring| ==> forall t :: 0 <= t < |tokens| ==> tokens[t] == TokenOf(ring[t])
  {
    if p == 0 && |tokens| <= |ring| {
      OrbitClosedForm(0, |ring|, |tokens|);
    }
  }

  /**
   * Fairness of the rotation: `size` successive picks, starting anywhere,
   * take every position of the ring exactly once.
   */
  lemma RotationFair(p: nat, size: nat)
    requires p < size
    ensures forall j :: 0 <= j < size ==> j in Orbit(p, size, size)
    ensures forall t1, t2 :: 0 <= t1 < t2 < size ==> Orbit(p, size, size)[t1] != Orbit(p, size, size)[t2]
  {
    var o := Orbit(p, size, size);
    OrbitClosedForm(p, size, size);
    forall j | 0 <= j < size
      ensures j in o
    {
      var t := if j >= p then j - p else j + size - p;
      assert o[t] == j;
    }
  }

  /** The ring position after `steps` successive picks starting at position `p`. */
  function Land(p: nat, size: nat, steps: nat): (q: nat)
    requires p < size
    ensures q < size
    decreases steps
  {
    if steps == 0 then p else Land(Advance(p, size), size, steps - 1)
  }

  /** Picks in two runs are the picks of the first run followed by those of the second. */
  lemma {:induction false} OrbitSplit(p: nat, size: nat, a: nat, b: nat)
    requires p < size
    ensures Orbit(p, size, a + b) == Orbit(p, size, a) + Orbit(Land(p, size, a), size, b)
    decreases a
  {
    if a > 0 {
      OrbitSplit(Advance(p, size), size, a - 1, b);
      assert a + b - 1 == (a - 1) + b;
    }
  }

  /** Within one lap the landing position moves on by one per pick, wrapping once. */
  lemma {:induction false} LandClosedForm(p: nat, size: nat, steps: nat)
    requires p < size && steps <= size
    ensures Land(p, size, steps) == if p + steps < size then p + steps else p + steps - size
    decreases steps
  {
    if steps > 0 {
      LandClosedForm(Advance(p, size), size, steps - 1);
    }
  }

  /** One more pick moves the landing position on by one. */
  lemma {:induction false} LandNext(p: nat, size: nat, steps: nat)
    requires p < size
    ensures Land(p, size, steps + 1) == Advance(Land(p, size, steps), size)
    decreases steps
  {
    if steps > 0 {
      LandNext(Advance(p, size), size, steps - 1);
    }
  }

  /** One more pick appends the landing position to the picks and moves it on by one. */
  lemma OrbitStep(p: nat, size: nat, steps: nat)
    requires p < size
    ensures Orbit(p, size, steps + 1) == Orbit(p, size, steps) + [Land(p, size, steps)]
    ensures Land(p, size, steps + 1) == Advance(Land(p, size, steps), size)
  {
    OrbitSplit(p, size, steps, 1);
    LandNext(p, size, steps);
    assert Orbit(Land(p, size, steps), size, 1) == [Land(p, size, steps)];
  }

  /** After a full lap the rotation repeats itself. */
  lemma RotationRepeats(p: nat, size: nat, calls: nat)
    requires p < size
    ensures Orbit(p, size, size + calls) == Orbit(p, size, size) + Orbit(p, size, calls)
  {
    OrbitSplit(p, size, size, calls);
    LandClosedForm(p, size, size);
  }

  /** From the start of the ring, one lap takes the groups in configuration order. */
  lemma FirstLapInOrder(size: nat)
    requires 0 < size
    ensures forall t :: 0 <= t < size ==> Orbit(0, size, size)[t] == t
  {
    OrbitClosedForm(0, size, size);
  }

  /** Some client of `clients` holds `token`. */
  predicate Holds(clients: seq<QwenClient>, token: string)
  {
    exists i :: 0 <= i < |clients| && clients[i].token == token
  }

  /** Every client of `clients` was built from this configuration for the token it holds. */
  predicate Configured(clients: seq<QwenClient>, baseUrl: string, source: string)
  {
    forall i :: 0 <= i < |clients| ==> clients[i].BuiltFrom(clients[i].token, baseUrl, source)
  }

  /** One new client per group, in order (the loop of `initialize_clients`). */
  method NewClients(groups: seq<TokenGroup>, baseUrl: string, source: string) returns (cs: seq<QwenClient>)
    requires forall k :: 0 <= k < |groups| ==> HasStrToken(groups[k])
    ensures |cs| == |groups|
    ensures forall i :: 0 <= i < |cs| ==> fresh(cs[i])
    ensures forall i :: 0 <= i < |cs| ==> cs[i].BuiltFrom(TokenOf(groups[i]), baseUrl, source)
    ensures forall i :: 0 <= i < |cs| ==> cs[i].token == TokenOf(groups[i])
  {
    cs := [];
    var i := 0;
    while i < |groups|
      invariant 0 <= i <= |groups|
      invariant |cs| == i
      invariant forall j :: 0 <= j < i ==> fresh(cs[j])
      invariant forall j :: 0 <= j < i ==> cs[j].BuiltFrom(TokenOf(groups[j]), baseUrl, source)
    {
      var client := new QwenClient(TokenOf(groups[i]), baseUrl, source);
      cs := cs + [client];
      i := i + 1;
    }
  }

  /** `c` is the first client of `clients` holding its token. */
  predicate FirstHolder(clients: seq<QwenClient>, c: QwenClient)
  {
    exists i :: 0 <= i < |clients| && clients[i] == c && forall j :: 0 <= j < i ==> clients[j].token != c.token
  }

  /** The position of the first client of `clients` holding `token`, if any (the inner loop of `get_next_client`). */
  method FindHolder(clients: seq<QwenClient>, token: string) returns (found: Option<nat>)
    ensures found.Some? <==> Holds(clients, token)
    ensures found.Some? ==> found.value < |clients| && clients[found.value].token == token
    ensures found.Some? ==> forall j :: 0 <= j < found.value ==> clients[j].token != token
  {
    var i := 0;
    while i < |clients|
      invariant 0 <= i <= |clients|
      invariant forall j :: 0 <= j < i ==> clients[j].token != token
    {
      if clients[i].token == token {
        return Some(i);
      }
      i := i + 1;
    }
    return None;
  }

  class ClientPool {
    var ring: seq<TokenGroup>
    var cursor: nat
    var clients: seq<QwenClient>
    /** `config.qwen_api_base_url` and `config.qwen_source`, read by every client built. */
    const baseUrl: string
    const source: string

    /**
     * Every group on the ring can be turned into a client, the cursor is on
     * the ring, and every pooled client was built from the configuration
     * for the token it holds.
     */
    predicate Valid()
      reads this
    {
      (ring != [] ==> cursor < |ring|)
      && (forall k :: 0 <= k < |ring| ==> HasStrToken(ring[k]))
      && Configured(clients, baseUrl, source)
    }

    /** Some client already holds the token of every group on the ring. */
    predicate Covered()
      reads this
      requires Valid()
    {
      forall k :: 0 <= k < |ring| ==> Holds(clients, TokenOf(ring[k]))
    }

    /** The group the next call will pick. */
    function NextGroup(): (g: TokenGroup)
      reads this
      requires Valid() && ring != []
      ensures HasStrToken(g)
    {
      ring[cursor]
    }

    /** An empty pool, before `initialize_clients` runs. */
    constructor (baseUrl: string, source: string)
      ensures ring == [] && cursor == 0 && clients == []
      ensures this.baseUrl == baseUrl && this.source == source
      ensures Valid()
    {
      ring := [];
      cursor := 0;
      clients := [];
      this.baseUrl := baseUrl;
      this.source := source;
    }

    /**
     * `initialize_clients`: without groups the pool is left as it was;
     * otherwise the cycle restarts at the first group and the pool holds
     * exactly one new client per group, in order.
     */
    method Initialize(groups: seq<TokenGroup>)
      requires forall k :: 0 <= k < |groups| ==> HasStrToken(groups[k])
      modifies this
      ensures groups == [] ==> ring == old(ring) && cursor == old(cursor) && clients == old(clients)
      ensures groups != [] ==> ring == groups && cursor == 0
      ensures groups != [] ==> |clients| == |groups|
      ensures groups != [] ==> forall i :: 0 <= i < |clients| ==> fresh(clients[i])
      ensures groups != [] ==> forall i :: 0 <= i < |clients| ==> clients[i].BuiltFrom(TokenOf(groups[i]), baseUrl, source)
      ensures groups != [] ==> Valid() && Covered()
    {
      if groups == [] {
        return;
      }
      var built := NewClients(groups, baseUrl, source);
      ring := groups;
      cursor := 0;
      clients := built;
      assert Valid();
      forall k | 0 <= k < |ring|
        ensures Holds(clients, TokenOf(ring[k]))
      {
        assert 0 <= k < |clients| && clients[k].token == TokenOf(ring[k]);
      }
      assert Covered();
    }

    /**
     * `get_next_client`: advances the cycle by one group and hands out the
     * first client holding that group's token, creating and pooling a new
     * client when none does. The health check always passes, so the first
     * pick is the answer.
     */
    method GetNextClient() returns (r: Result<QwenClient, Unavailable>)
      requires Valid()
      modifies this
      ensures ring == old(ring) && Valid()
      ensures old(clients) == [] ==> r == Err(NoClients) && unchanged(this)
      ensures old(clients) != [] && old(ring) == [] ==> r == Err(NotInitialized) && unchanged(this)
      ensures old(clients) != [] && old(ring) != [] ==> r.Ok? && cursor == Advance(old(cursor), |ring|)
      ensures r.Ok? ==> r.value.token == TokenOf(old(NextGroup()))
      ensures r.Ok? ==> r.value.BuiltFrom(r.value.token, baseUrl, source)
      ensures r.Ok? && r.value in old(clients) ==> clients == old(clients) && FirstHolder(clients, r.value)
      ensures r.Ok? && r.value !in old(clients) ==> fresh(r.value) && clients == old(clients) + [r.value]
      ensures r.Ok? && r.value !in old(clients) ==> !Holds(old(clients), r.value.token)
      ensures old(Covered()) ==> clients == old(clients) && Covered()
    {
      if |clients| == 0 {
        return Err(NoClients);
      }
      if ring == [] {
        return Err(NotInitialized);
      }
      var group := NextGroup();
      cursor := Advance(cursor, |ring|);
      var token := TokenOf(group);
      var found := FindHolder(clients, token);
      if found.Some? {
        return Ok(clients[found.value]);
      }
      var client := new QwenClient(token, baseUrl, source);
      clients := clients + [client];
      r := Ok(client);
    }

    /** One call of `get_next_client` on a pool that has clients and a cycle: the token it hands out. */
    method NextToken() returns (token: string)
      requires Valid() && clients != [] && ring != []
      modifies this
      ensures Valid() && ring == old(ring) && clients != []
      ensures cursor == Advance(old(cursor), |ring|)
      ensures token == TokenOf(old(NextGroup()))
      ensures old(Covered()) ==> clients == old(clients) && Covered()
    {
      var r := GetNextClient();
      token := r.value.token;
    }

    /**
     * After `|tokens|` calls from cursor `start`: the cursor has moved that
     * far along the orbit, `tokens` are the tokens of the groups picked, and
     * a pool that covered its ring kept the clients `base`.
     */
    ghost predicate Rotated(start: nat, size: nat, covered: bool, base: seq<QwenClient>, tokens: seq<string>)
      reads this
    {
      Valid() && clients != [] && ring != [] && size == |ring| && start < size
      && cursor == Land(start, size, |tokens|)
      && (forall t :: 0 <= t < |tokens| ==> tokens[t] == TokenOf(ring[Orbit(start, size, |tokens|)[t]]))
      && (covered ==> clients == base && Covered())
    }

    /** One round of `NextClients`: the next token is appended, and the orbit grows by one. */
    method TakeNext(ghost start: nat, ghost size: nat, ghost covered: bool, ghost base: seq<QwenClient>,
                    tokens: seq<string>) returns (more: seq<string>)
      requires Rotated(start, size, covered, base, tokens)
      modifies this
      ensures ring == old(ring) && |more| == |tokens| + 1
      ensures Rotated(start, size, covered, base, more)
    {
      var k := |tokens|;
      OrbitStep(start, size, k);
      ghost var picks := Orbit(start, size, k + 1);
      var token := NextToken();
      more := tokens + [token];
      forall t | 0 <= t < k + 1
        ensures more[t] == TokenOf(ring[picks[t]])
      {
        if t < k {
          assert picks[t] == Orbit(start, size, k)[t];
        }
      }
    }

    /**
     * `n` successive calls of `get_next_client`: the tokens handed out follow
     * the rotation from the current cursor, so a freshly initialized pool
     * hands out the groups' tokens in configuration order.
     */
    method NextClients(n: nat) returns (tokens: seq<string>)
      requires Valid() && clients != [] && ring != []
      modifies this
      ensures Valid() && ring == old(ring) && cursor == Land(old(cursor), |ring|, n)
      ensures |tokens| == n
      ensures forall t :: 0 <= t < n ==> tokens[t] == TokenOf(ring[Orbit(old(cursor), |ring|, n)[t]])
      ensures old(cursor) == 0 && n <= |ring| ==> forall t :: 0 <= t < n ==> tokens[t] == TokenOf(ring[t])
      ensures old(Covered()) ==> clients == old(clients)
    {
      tokens := [];
      ghost var start := cursor;
      ghost var size := |ring|;
      ghost var covered := Covered();
      var k := 0;
      while k < n
        invariant 0 <= k <= n && |tokens| == k && ring == old(ring)
        invariant Rotated(start, size, covered, old(clients), tokens)
      {
        tokens := TakeNext(start, size, covered, old(clients), tokens);
        k := k + 1;
      }
      TokensInOrder(start, ring, tokens);
    }
  }
}
