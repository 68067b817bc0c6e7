/**
  The admin instructions of the oracle (programs/sol_sentinel/src/lib.rs):
  `initialize`, `transfer_authority`, `set_paused`, `add_operator` and
  `remove_operator`. All but `initialize` are gated by the account constraint
  `sentinel.authority == authority.key()`, which fails with `Unauthorized`
  before the handler body runs.
*/
module SentinelAdmin {
  import opened Common
  import opened SentinelAccounts

  /** `operators.iter().position(|o| *o == op)`: the first index holding `op`, if any. */
  function Position(ops: seq<Pubkey>, op: Pubkey): (r: Option<nat>)
    ensures r.None? <==> op !in ops
    ensures r.Some? ==> r.value < |ops| && ops[r.value] == op && op !in ops[..r.value]
  {
    if ops == [] then None
    else if ops[0] == op then Some(0)
    else
      match Position(ops[1..], op)
      case None => None
      case Some(i) =>
        assert ops[1..][..i] == ops[1..i + 1];
        Some(i + 1)
  }

  /** `Vec::remove(i)`: drops the i-th element; the others keep their order. */
  function RemoveAt<T>(s: seq<T>, i: nat): seq<T>
    requires i < |s|
  {
    s[..i] + s[i + 1..]
  }

  /** `initialize`: the signer becomes the authority of an unpaused oracle with no operators. */
  method Initialize(sentinel: Account<Sentinel>, signer: Pubkey)
    modifies sentinel
    ensures sentinel.data == Sentinel(signer, 0, false, [])
    ensures OperatorsValid(sentinel.data.operators)
  {
    sentinel.data := sentinel.data.(authority := signer, totalUpdates := 0, paused := false, operators := []);
  }

  /** `transfer_authority`: only the authority may hand over, and never to the all-zero key. */
  method TransferAuthority(sentinel: Account<Sentinel>, signer: Pubkey, newAuthority: Pubkey) returns (r: Outcome)
    modifies sentinel
    ensures r.Ok? <==> signer == old(sentinel.data.authority) && newAuthority != DEFAULT_PUBKEY
    ensures signer != old(sentinel.data.authority) ==> r == Err(Unauthorized)
    ensures signer == old(sentinel.data.authority) && newAuthority == DEFAULT_PUBKEY ==> r == Err(InvalidAuthority)
    ensures r.Ok? ==> sentinel.data == old(sentinel.data).(authority := newAuthority)
    ensures r.Err? ==> sentinel.data == old(sentinel.data)
    ensures old(sentinel.data.authority) != DEFAULT_PUBKEY ==> sentinel.data.authority != DEFAULT_PUBKEY
  {
    if signer != sentinel.data.authority {
      return Err(Unauthorized);
    }
    if newAuthority == DEFAULT_PUBKEY {
      return Err(InvalidAuthority);
    }
    sentinel.data := sentinel.data.(authority := newAuthority);
    r := Ok;
  }

  /** `set_paused`: the authority sets the pause flag; nothing else changes. */
  method SetPaused(sentinel: Account<Sentinel>, signer: Pubkey, paused: bool) returns (r: Outcome)
    modifies sentinel
    ensures r.Ok? <==> signer == old(sentinel.data.authority)
    ensures r.Err? ==> r.error == Unauthorized && sentinel.data == old(sentinel.data)
    ensures r.Ok? ==> sentinel.data == old(sentinel.data).(paused := paused)
  {
    if signer != sentinel.data.authority {
      return Err(Unauthorized);
    }
    sentinel.data := sentinel.data.(paused := paused);
    r := Ok;
  }

  /**
    `add_operator`: appends a key that is not yet listed while fewer than five
    are; the list therefore never exceeds five keys and never holds one twice.
  */
  method AddOperator(sentinel: Account<Sentinel>, signer: Pubkey, op: Pubkey) returns (r: Outcome)
    modifies sentinel
    ensures r.Ok? <==> signer == old(sentinel.data.authority)
                       && |old(sentinel.data.operators)| < MAX_OPERATORS
                       && op !in old(sentinel.data.operators)
    ensures signer != old(sentinel.data.authority) ==> r == Err(Unauthorized)
    ensures (signer == old(sentinel.data.authority) && |old(sentinel.data.operators)| >= MAX_OPERATORS)
            ==> r == Err(TooManyOperators)
    ensures (signer == old(sentinel.data.authority) && |old(sentinel.data.operators)| < MAX_OPERATORS
             && op in old(sentinel.data.operators)) ==> r == Err(OperatorAlreadyExists)
    ensures r.Ok? ==> sentinel.data == old(sentinel.data).(operators := old(sentinel.data.operators) + [op])
    ensures r.Err? ==> sentinel.data == old(sentinel.data)
    ensures OperatorsValid(old(sentinel.data.operators)) ==> OperatorsValid(sentinel.data.operators)
  {
    if signer != sentinel.data.authority {
      return Err(Unauthorized);
    }
    if |sentinel.data.operators| >= MAX_OPERATORS {
      return Err(TooManyOperators);
    }
    if op in sentinel.data.operators {
      return Err(OperatorAlreadyExists);
    }
    sentinel.data := sentinel.data.(operators := sentinel.data.operators + [op]);
    r := Ok;
  }

  /**
    `remove_operator`: removes the first (and, in a valid list, only) entry equal
    to `op`, keeping the others in order; an absent key is `OperatorNotFound`.
  */
  method RemoveOperator(sentinel: Account<Sentinel>, signer: Pubkey, op: Pubkey) returns (r: Outcome)
    modifies sentinel
    ensures r.Ok? <==> signer == old(sentinel.data.authority) && op in old(sentinel.data.operators)
    ensures signer != old(sentinel.data.authority) ==> r == Err(Unauthorized)
    ensures signer == old(sentinel.data.authority) && op !in old(sentinel.data.operators) ==> r == Err(OperatorNotFound)
    ensures r.Ok? ==> var k := Position(old(sentinel.data.operators), op).value;
                      sentinel.data == old(sentinel.data).(operators := RemoveAt(old(sentinel.data.operators), k))
    ensures r.Err? ==> sentinel.data == old(sentinel.data)
    ensures OperatorsValid(old(sentinel.data.operators)) ==>
              OperatorsValid(sentinel.data.operators) && (r.Ok? ==> op !in sentinel.data.operators)
  {
    if signer != sentinel.data.authority {
      return Err(Unauthorized);
    }
    var idx := Position(sentinel.data.operators, op);
    if idx.None? {
      return Err(OperatorNotFound);
    }
    if OperatorsValid(sentinel.data.operators) {
      RemoveOperatorDropsOnlyThatKey(sentinel.data.operators, op);
    }
    sentinel.data := sentinel.data.(operators := RemoveAt(sentinel.data.operators, idx.value));
    r := Ok;
  }

  /**
    Removing a listed key from a duplicate-free list shortens it by one, removes
    that key entirely and keeps every other key.
  */
  lemma RemoveOperatorDropsOnlyThatKey(ops: seq<Pubkey>, op: Pubkey)
    requires NoDuplicates(ops) && op in ops
    ensures var rest := RemoveAt(ops, Position(ops, op).value);
            && |rest| == |ops| - 1
            && NoDuplicates(rest)
            && op !in rest
            && forall x :: x != op ==> (x in rest <==> x in ops)
  {
    var k := Position(ops, op).value;
    var rest := RemoveAt(ops, k);
    assert forall i :: 0 <= i < |rest| ==> rest[i] == if i < k then ops[i] else ops[i + 1];
    forall x | x in ops && x != op
      ensures x in rest
    {
      var j :| 0 <= j < |ops| && ops[j] == x;
      assert rest[if j < k then j else j - 1] == x;
    }
  }

  /** `remove_operator` undoes `add_operator`: the list is back to what it was. */
  lemma AddThenRemoveRestores(ops: seq<Pubkey>, op: Pubkey)
    requires op !in ops
    ensures Position(ops + [op], op) == Some(|ops|)
    ensures RemoveAt(ops + [op], |ops|) == ops
  {
    assert (ops + [op])[|ops|] == op;
  }

  /**
    After `remove_operator` the removed key may still store sentiment only if it
    is the authority; every other signer keeps its rights.
  */
  lemma RemovedOperatorLosesAccess(s: Sentinel, op: Pubkey, x: Pubkey)
    requires OperatorsValid(s.operators) && op in s.operators
    ensures var s' := s.(operators := RemoveAt(s.operators, Position(s.operators, op).value));
            IsAuthorityOrOperator(s', x) <==> x == s.authority || (x != op && IsAuthorityOrOperator(s, x))
  {
    RemoveOperatorDropsOnlyThatKey(s.operators, op);
  }
}
