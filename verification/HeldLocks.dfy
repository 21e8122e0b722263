/**
 The fixed table of locks that one thread believes it holds: a 128-slot array edited in
 place, filled at the end and searched from the end.
 */
module HeldLocks {
  import opened Options
  import opened ProbeStream

  const HELD_SLOTS: nat := 128

  datatype Held = Held(token: Token, acquired: nat, at: nat)

  datatype Taken = Taken(entry: Held, rest: seq<Held>)

  function Tokens(held: seq<Held>): multiset<Token> {
    if held == [] then multiset{} else Tokens(held[..|held| - 1]) + multiset{held[|held| - 1].token}
  }

  /** The slot the downward scan stops at: the last one that holds `token`, or -1. */
  function NewestMatch(held: seq<Held>, token: Token): (k: int)
    ensures -1 <= k < |held|
    ensures k >= 0 ==> held[k].token == token
    ensures forall j | k < j < |held| :: held[j].token != token
  {
    if held == [] then -1
    else if held[|held| - 1].token == token then |held| - 1
    else NewestMatch(held[..|held| - 1], token)
  }

  /** Removal of the newest entry for `token`; the order of the rest is kept. */
  function TakeNewest(held: seq<Held>, token: Token): Option<Taken> {
    var k := NewestMatch(held, token);
    if k < 0 then None else Some(Taken(held[k], held[..k] + held[k + 1..]))
  }

  lemma {:induction false} TokensConcat(a: seq<Held>, b: seq<Held>)
    ensures Tokens(a + b) == Tokens(a) + Tokens(b)
  {
    if b == [] {
      assert a + b == a;
    } else {
      var last := |b| - 1;
      assert (a + b)[..|a + b| - 1] == a + b[..last];
      TokensConcat(a, b[..last]);
    }
  }

  lemma {:induction false} TokensMembers(held: seq<Held>, token: Token)
    ensures token in Tokens(held) <==> exists i :: 0 <= i < |held| && held[i].token == token
  {
    if held != [] {
      var front := held[..|held| - 1];
      TokensMembers(front, token);
      assert forall i | 0 <= i < |front| :: front[i] == held[i];
    }
  }

  lemma PushTokens(held: seq<Held>, entry: Held)
    ensures Tokens(held + [entry]) == Tokens(held) + multiset{entry.token}
  {
    assert (held + [entry])[..|held|] == held;
  }

  lemma Reorder(a: multiset<Token>, b: multiset<Token>, c: multiset<Token>)
    ensures a + b + c == a + c + b
  {
  }

  lemma RemoveTokens(held: seq<Held>, k: nat)
    requires k < |held|
    ensures Tokens(held[..k] + held[k + 1..]) + multiset{held[k].token} == Tokens(held)
  {
    var before, after := held[..k], held[k + 1..];
    assert held == (before + [held[k]]) + after;
    TokensConcat(before + [held[k]], after);
    PushTokens(before, held[k]);
    TokensConcat(before, after);
    Reorder(Tokens(before), multiset{held[k].token}, Tokens(after));
  }

  /** Removal takes exactly one token out of the table, and finds one whenever there is one. */
  lemma TakeNewestTokens(held: seq<Held>, token: Token)
    ensures TakeNewest(held, token).Some? <==> token in Tokens(held)
    ensures TakeNewest(held, token).Some? ==>
              var t := TakeNewest(held, token).value;
              t.entry.token == token && Tokens(t.rest) + multiset{token} == Tokens(held)
  {
    TokensMembers(held, token);
    var k := NewestMatch(held, token);
    if k >= 0 {
      RemoveTokens(held, k);
    }
  }

  class HeldTable {
    var slots: array<Held>
    var count: nat

    ghost predicate Valid()
      reads this
    {
      slots.Length == HELD_SLOTS && count <= HELD_SLOTS
    }

    ghost function Contents(): seq<Held>
      reads this, slots
      requires Valid()
    {
      slots[..count]
    }

    constructor ()
      ensures Valid() && fresh(slots) && Contents() == []
    {
      slots := new Held[HELD_SLOTS](_ => Held(Token(0, Mutex), 0, 0));
      count := 0;
    }

    /** The table's part of `held_push`: a full table keeps what it has. */
    method Push(entry: Held) returns (kept: bool)
      requires Valid()
      modifies this`count, slots
      ensures Valid() && slots == old(slots)
      ensures kept <==> |old(Contents())| < HELD_SLOTS
      ensures Contents() == if kept then old(Contents()) + [entry] else old(Contents())
    {
      kept := count < HELD_SLOTS;
      if !kept {
        return;
      }
      slots[count] := entry;
      count := count + 1;
    }

    /** Shift the entries after `index` down one slot. */
    method CloseGap(index: nat)
      requires Valid() && index < count
      modifies this`count, slots
      ensures Valid() && slots == old(slots)
      ensures Contents() == old(Contents()[..index] + Contents()[index + 1..])
    {
      ghost var was := Contents();
      var move := index + 1;
      while move < count
        invariant index < move <= count == |was|
        invariant forall j | 0 <= j < index :: slots[j] == was[j]
        invariant forall j | index <= j < move - 1 :: slots[j] == was[j + 1]
        invariant forall j | move <= j < count :: slots[j] == was[j]
      {
        slots[move - 1] := slots[move];
        move := move + 1;
      }
      count := count - 1;
    }

    /** `held_take`: find the newest match and close the gap it leaves. */
    method Take(token: Token) returns (taken: Option<Held>)
      requires Valid()
      modifies this`count, slots
      ensures Valid() && slots == old(slots)
      ensures match TakeNewest(old(Contents()), token)
              case None => taken == None && Contents() == old(Contents())
              case Some(t) => taken == Some(t.entry) && Contents() == t.rest
    {
      ghost var was := Contents();
      var index: nat := count;
      while index != 0
        invariant index <= count == |was|
        invariant Valid() && slots == old(slots) && Contents() == was
        invariant forall j | index <= j < |was| :: was[j].token != token
      {
        index := index - 1;
        if slots[index].token == token {
          taken := Some(slots[index]);
          CloseGap(index);
          return;
        }
      }
      taken := None;
    }
  }
}
