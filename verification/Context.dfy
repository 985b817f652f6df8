/** SrsThreadContext (src/base/app_thread_context.cpp): the ids that start() waits for. */
module Context {

  /** st_thread_t: a thread is known by its number. */
  type Tid = nat

  const FIRST_ID := 100

  class ThreadContext {
    var id: int
    var cache: map<Tid, int>

    constructor ()
      ensures id == FIRST_ID && cache == map[]
    {
      id, cache := FIRST_ID, map[];
    }

    method GenerateId(self: Tid)
      modifies this
      ensures Contents() == Apply(old(Contents()), Generate(self))
    {
      cache := cache[self := id];
      id := id + 1;
    }

    /** Reading a missing entry of the std::map inserts a zero. */
    method GetId(self: Tid) returns (r: int)
      modifies this
      ensures r == Lookup(old(Contents()), self)
      ensures Contents() == Apply(old(Contents()), Get(self))
    {
      if self !in cache {
        cache := cache[self := 0];
      }
      r := cache[self];
    }

    ghost function Contents(): State
      reads this
    {
      State(id, cache)
    }
  }

  datatype State = State(id: int, cache: map<Tid, int>)

  datatype Call = Generate(self: Tid) | Get(self: Tid)

  function Apply(s: State, c: Call): State {
    match c
    case Generate(self) => State(s.id + 1, s.cache[self := s.id])
    case Get(self) => if self in s.cache then s else State(s.id, s.cache[self := 0])
  }

  function Lookup(s: State, self: Tid): int {
    if self in s.cache then s.cache[self] else 0
  }

  function Run(calls: seq<Call>): State {
    if calls == [] then State(FIRST_ID, map[]) else Apply(Run(calls[..|calls| - 1]), calls[|calls| - 1])
  }

  function Generated(calls: seq<Call>): nat {
    if calls == [] then 0
    else Generated(calls[..|calls| - 1]) + if calls[|calls| - 1].Generate? then 1 else 0
  }

  /** `n` is the position of the last generate_id of `self`. */
  predicate LastGenerate(calls: seq<Call>, self: Tid, n: nat) {
    && n < |calls|
    && calls[n] == Generate(self)
    && forall m :: n < m < |calls| ==> calls[m] != Generate(self)
  }

  /**
   get_id answers with the number of generate_id calls that came before the thread's own last
   one, counted from 100, and with 0 for a thread that never generated an id.
   */
  lemma {:induction false} IdCountsGenerates(calls: seq<Call>, self: Tid)
    ensures Run(calls).id == 100 + Generated(calls)
    ensures forall n: nat :: LastGenerate(calls, self, n) ==>
              Lookup(Run(calls), self) == 100 + Generated(calls[..n])
    ensures (forall n :: 0 <= n < |calls| ==> calls[n] != Generate(self)) ==> Lookup(Run(calls), self) == 0
  {
    if calls != [] {
      var before := calls[..|calls| - 1];
      IdCountsGenerates(before, self);
      forall n: nat | LastGenerate(calls, self, n)
        ensures Lookup(Run(calls), self) == 100 + Generated(calls[..n])
      {
        if n == |calls| - 1 {
          assert calls[..n] == before;
        } else {
          assert LastGenerate(before, self, n);
          assert before[..n] == calls[..n];
        }
      }
    }
  }

  lemma {:induction false} GeneratedGrows(calls: seq<Call>, n: nat, m: nat)
    requires n < m <= |calls| && calls[n].Generate?
    ensures Generated(calls[..n]) < Generated(calls[..m])
    decreases m
  {
    assert calls[..m][..m - 1] == calls[..m - 1];
    if n < m - 1 {
      GeneratedGrows(calls, n, m - 1);
    }
  }

  /** Ids are at least 100, and no two threads ever hold the same one. */
  lemma {:induction false} IdsAreDistinct(calls: seq<Call>, t: Tid, n: nat, u: Tid, m: nat)
    requires t != u && LastGenerate(calls, t, n) && LastGenerate(calls, u, m)
    ensures Lookup(Run(calls), t) >= 100 && Lookup(Run(calls), u) >= 100
    ensures Lookup(Run(calls), t) != Lookup(Run(calls), u)
  {
    IdCountsGenerates(calls, t);
    IdCountsGenerates(calls, u);
    if n < m {
      GeneratedGrows(calls, n, m);
    } else {
      GeneratedGrows(calls, m, n);
    }
  }
}
