/**
 The in-flight registry of one authenticated connection: one-shot request
 capabilities keyed by token, with the wire ids that are outstanding.
 */
module ConnectionRegistry {
  import opened Common

  datatype RpcId = TextId(text: string) | NumberId(number: int)

  datatype RpcMethod = Health | Task(name: string)

  datatype Outstanding = Outstanding(id: RpcId, rpc: RpcMethod, deadline: int)

  datatype RegisterError = TooManyInFlight | DuplicateId | TokensExhausted

  datatype Registry = Registry(nextToken: nat, byToken: map<nat, Outstanding>, ids: set<RpcId>)

  const EMPTY := Registry(1, map[], {})

  // ---------- the operations on values ----------

  function Admission(r: Registry, maximum: nat, id: RpcId): Option<RegisterError> {
    if |r.byToken| >= maximum then Some(TooManyInFlight)
    else if id in r.ids then Some(DuplicateId)
    else if r.nextToken + 1 > U64_MAX then Some(TokensExhausted)
    else None
  }

  function Registered(r: Registry, request: Outstanding): Registry {
    Registry(r.nextToken + 1, r.byToken[r.nextToken := request], r.ids + {request.id})
  }

  function Released(r: Registry, token: nat): Registry {
    if token in r.byToken then r.(byToken := r.byToken - {token}, ids := r.ids - {r.byToken[token].id}) else r
  }

  // ---------- the invariant ----------

  predicate IdsMatch(byToken: map<nat, Outstanding>, ids: set<RpcId>) {
    && (forall t :: t in byToken ==> byToken[t].id in ids)
    && (forall id :: id in ids ==> exists t :: t in byToken && byToken[t].id == id)
  }

  predicate IdsDistinct(byToken: map<nat, Outstanding>) {
    forall s, t :: s in byToken && t in byToken && byToken[s].id == byToken[t].id ==> s == t
  }

  predicate Inv(r: Registry, maximum: nat) {
    && IdsMatch(r.byToken, r.ids)
    && IdsDistinct(r.byToken)
    && |r.byToken| <= maximum
    && (forall t :: t in r.byToken ==> 1 <= t < r.nextToken)
    && 1 <= r.nextToken <= U64_MAX
  }

  lemma IdsMatchMore(byToken: map<nat, Outstanding>, ids: set<RpcId>, token: nat, request: Outstanding)
    requires IdsMatch(byToken, ids) && token !in byToken
    ensures IdsMatch(byToken[token := request], ids + {request.id})
  {
    var after := byToken[token := request];
    forall id | id in ids + {request.id} ensures exists t :: t in after && after[t].id == id {
      if id == request.id {
        assert after[token].id == id;
      } else {
        var t :| t in byToken && byToken[t].id == id;
        assert after[t].id == id;
      }
    }
  }

  lemma IdsDistinctMore(byToken: map<nat, Outstanding>, ids: set<RpcId>, token: nat, request: Outstanding)
    requires IdsMatch(byToken, ids) && IdsDistinct(byToken) && request.id !in ids
    ensures IdsDistinct(byToken[token := request])
  {
    var after := byToken[token := request];
    forall s, t | s in after && t in after && after[s].id == after[t].id ensures s == t {
      assert s != token ==> byToken[s].id in ids;
      assert t != token ==> byToken[t].id in ids;
    }
  }

  lemma SizeMore(byToken: map<nat, Outstanding>, token: nat, request: Outstanding)
    requires token !in byToken
    ensures |byToken[token := request]| == |byToken| + 1
  {
    assert byToken[token := request].Keys == byToken.Keys + {token};
  }

  lemma RegisterKeepsInv(r: Registry, maximum: nat, request: Outstanding)
    requires Inv(r, maximum) && Admission(r, maximum, request.id).None?
    ensures Inv(Registered(r, request), maximum)
    ensures r.nextToken !in r.byToken && |Registered(r, request).byToken| == |r.byToken| + 1
  {
    IdsMatchMore(r.byToken, r.ids, r.nextToken, request);
    IdsDistinctMore(r.byToken, r.ids, r.nextToken, request);
    SizeMore(r.byToken, r.nextToken, request);
  }

  lemma ReleaseKeepsInv(r: Registry, maximum: nat, token: nat)
    requires Inv(r, maximum)
    ensures Inv(Released(r, token), maximum)
    ensures token in r.byToken ==> |Released(r, token).byToken| == |r.byToken| - 1
  {
    if token in r.byToken {
      var after := Released(r, token);
      assert after.byToken.Keys == r.byToken.Keys - {token};
      forall id | id in after.ids ensures exists t :: t in after.byToken && after.byToken[t].id == id {
        var t :| t in r.byToken && r.byToken[t].id == id;
        assert after.byToken[t].id == id;
      }
    }
  }

  // ---------- whole runs ----------

  datatype Op = Register(request: Outstanding) | Release(token: nat)

  function Step(r: Registry, maximum: nat, op: Op): Registry {
    match op
    case Register(request) => if Admission(r, maximum, request.id).None? then Registered(r, request) else r
    case Release(token) => Released(r, token)
  }

  function Run(maximum: nat, ops: seq<Op>): Registry {
    if ops == [] then EMPTY else Step(Run(maximum, ops[..|ops| - 1]), maximum, ops[|ops| - 1])
  }

  /** Every run keeps ids and tokens in step and the in-flight bound. */
  lemma {:induction false} RunInv(maximum: nat, ops: seq<Op>)
    ensures Inv(Run(maximum, ops), maximum)
  {
    if ops != [] {
      RunInv(maximum, ops[..|ops| - 1]);
      var before, op := Run(maximum, ops[..|ops| - 1]), ops[|ops| - 1];
      match op
      case Register(request) =>
        if Admission(before, maximum, request.id).None? {
          RegisterKeepsInv(before, maximum, request);
        }
      case Release(token) => ReleaseKeepsInv(before, maximum, token);
    }
  }

  /** A token that was issued and is gone never comes back, so a capability is honoured at most once. */
  lemma {:induction false} TokensNeverReturn(maximum: nat, ops: seq<Op>, i: nat, token: nat)
    requires i <= |ops|
    requires var r := Run(maximum, ops[..i]); token < r.nextToken && token !in r.byToken
    ensures var r := Run(maximum, ops); token < r.nextToken && token !in r.byToken
    decreases |ops| - i
  {
    if i == |ops| {
      assert ops[..i] == ops;
    } else {
      assert ops[..i + 1][..i] == ops[..i];
      TokensNeverReturn(maximum, ops, i + 1, token);
    }
  }

  lemma StepKeeps(r: Registry, maximum: nat, op: Op, token: nat)
    requires Inv(r, maximum) && token in r.byToken && op != Release(token)
    ensures token in Step(r, maximum, op).byToken && Step(r, maximum, op).byToken[token] == r.byToken[token]
  {
  }

  /** A registered request keeps its token and contents until that very token is released. */
  lemma {:induction false} RegistrationsAreStable(maximum: nat, ops: seq<Op>, i: nat, token: nat)
    requires i <= |ops| && token in Run(maximum, ops[..i]).byToken
    requires forall k :: i <= k < |ops| ==> ops[k] != Release(token)
    ensures token in Run(maximum, ops).byToken
    ensures Run(maximum, ops).byToken[token] == Run(maximum, ops[..i]).byToken[token]
    decreases |ops| - i
  {
    if i == |ops| {
      assert ops[..i] == ops;
    } else {
      assert ops[..i + 1][..i] == ops[..i];
      RunInv(maximum, ops[..i]);
      StepKeeps(Run(maximum, ops[..i]), maximum, ops[i], token);
      RegistrationsAreStable(maximum, ops, i + 1, token);
    }
  }

  // ---------- the state behind the connection's lock ----------

  datatype Capability = Capability(connectionId: nat, token: nat, request: Outstanding)

  class ConnectionState {
    const connectionId: nat
    const maximum: nat
    var nextToken: nat
    var byToken: map<nat, Outstanding>
    var ids: set<RpcId>

    ghost function View(): Registry
      reads this
    {
      Registry(nextToken, byToken, ids)
    }

    ghost predicate Valid()
      reads this
    {
      Inv(View(), maximum)
    }

    constructor (connectionId: nat, maximum: nat)
      ensures Valid() && View() == EMPTY && this.connectionId == connectionId && this.maximum == maximum
    {
      this.connectionId, this.maximum := connectionId, maximum;
      nextToken, byToken, ids := 1, map[], {};
    }

    method RegisterOutstanding(request: Outstanding) returns (r: Result<Capability, RegisterError>)
      requires Valid()
      modifies this
      ensures Valid()
      ensures match r
              case Err(e) => View() == old(View()) && old(Admission(View(), maximum, request.id)) == Some(e)
              case Ok(capability) =>
                && View() == Registered(old(View()), request)
                && capability == Capability(connectionId, old(nextToken), request)
                && IsRegisteredFor(capability)
    {
      if |byToken| >= maximum {
        return Err(TooManyInFlight);
      }
      if request.id in ids {
        return Err(DuplicateId);
      }
      if nextToken + 1 > U64_MAX {
        return Err(TokensExhausted);
      }
      RegisterKeepsInv(View(), maximum, request);
      var token := nextToken;
      nextToken := nextToken + 1;
      ids := ids + {request.id};
      byToken := byToken[token := request];
      return Ok(Capability(connectionId, token, request));
    }

    predicate IsRegisteredFor(c: Capability)
      reads this
    {
      c.connectionId == connectionId && c.token in byToken && byToken[c.token] == c.request
    }

    method Release(c: Capability)
      requires Valid()
      modifies this
      ensures Valid()
      ensures View() == if c.connectionId == connectionId then Released(old(View()), c.token) else old(View())
      ensures !IsRegisteredFor(c)
    {
      if c.connectionId != connectionId {
        return;
      }
      ReleaseKeepsInv(View(), maximum, c.token);
      if c.token in byToken {
        ids := ids - {byToken[c.token].id};
        byToken := byToken - {c.token};
      }
    }

    /** Success and failure alike consume the capability; `delivered` is the transport's answer. */
    method WriteResponse(c: Capability, now: int, delivered: bool) returns (written: bool)
      requires Valid()
      modifies this
      ensures Valid() && !IsRegisteredFor(c)
      ensures written <==> old(IsRegisteredFor(c)) && now < c.request.deadline && delivered
      ensures View() == if c.connectionId == connectionId then Released(old(View()), c.token) else old(View())
    {
      written := IsRegisteredFor(c) && now < c.request.deadline && delivered;
      Release(c);
    }
  }
}
