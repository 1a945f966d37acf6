/**
 * The two effects the core depends on, made explicit: the Todoist Sync
 * endpoint behind `make_request`, and the `uuid.uuid4()` token source.
 */
module Environment {
  /**
   * A requester whose remote side answers each payload by a fixed function.
   * Every request made is recorded, in order, in `calls`.
   */
  class Requester<P, R> {
    const reply: P -> R
    var calls: seq<P>

    constructor(reply: P -> R)
      ensures this.reply == reply && calls == []
    {
      this.reply := reply;
      calls := [];
    }

    /** `make_request(**payload)`: one call, answered by the remote. */
    method MakeRequest(payload: P) returns (response: R)
      modifies this
      ensures calls == old(calls) + [payload]
      ensures response == reply(payload)
    {
      calls := calls + [payload];
      response := reply(payload);
    }
  }

  /** The tokens `str(uuid.uuid4())` returns, in the order they are drawn. */
  class TokenSupply {
    const tokenAt: nat -> string
    var drawn: nat

    constructor(tokenAt: nat -> string)
      ensures this.tokenAt == tokenAt && drawn == 0
    {
      this.tokenAt := tokenAt;
      drawn := 0;
    }

    method Draw() returns (token: string)
      modifies this
      ensures token == tokenAt(old(drawn)) && drawn == old(drawn) + 1
    {
      token := tokenAt(drawn);
      drawn := drawn + 1;
    }
  }

  /** A supply of fresh tokens never repeats one. */
  ghost predicate Injective(tokenAt: nat -> string) {
    forall i: nat, j: nat :: i != j ==> tokenAt(i) != tokenAt(j)
  }
}
