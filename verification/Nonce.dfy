/** The lock-free nonce generator: a shared cell advanced by compare-and-swap. */
module Nonce {
  import opened Prelude

  const MAX_U64: nat := 0xFFFF_FFFF_FFFF_FFFF

  type U64 = n: nat | n <= MAX_U64

  /** max(now, last + 1), where `last + 1` wraps at 64 bits. */
  function Candidate(now: U64, last: U64): (c: U64)
  {
    var bumped := if last == MAX_U64 then 0 else last + 1;
    if now >= bumped then now else bumped
  }

  /** The one value from which the generator cannot move forward. */
  lemma CandidateAdvances(now: U64, last: U64)
    ensures Candidate(now, last) >= now
    ensures Candidate(now, last) > last <==> last < MAX_U64
  {
  }

  /** Short of the edge it is the least value above the last one and not below the clock. */
  lemma CandidateIsLeast(now: U64, last: U64, other: U64)
    requires last < MAX_U64
    ensures Candidate(now, last) > last && Candidate(now, last) >= now
    ensures other > last && other >= now ==> Candidate(now, last) <= other
  {
  }

  // ---------------------------------------------------------------------------
  // Any number of threads
  // ---------------------------------------------------------------------------

  /** Where a call is: clock read, then cell loaded. `started` counts the swaps done before it began. */
  datatype Call =
    | Entered(now: U64, started: nat)
    | Loaded(now: U64, started: nat, seen: U64)

  datatype Issue = Issue(thread: nat, nonce: U64, now: U64, started: nat)

  datatype State = State(last: U64, calls: map<nat, Call>, issued: seq<Issue>)

  datatype Event =
    | Enter(thread: nat, now: U64)
    | Load(thread: nat)
    | SwapOk(thread: nat)
    | SwapFails(thread: nat)

  const Start: State := State(0, map[], [])

  /** One atomic step; an event that is not enabled changes nothing. A failed swap may be spurious. */
  function Step(s: State, e: Event): State {
    match e
    case Enter(t, now) =>
      if t in s.calls then s else s.(calls := s.calls[t := Entered(now, |s.issued|)])
    case Load(t) =>
      if t in s.calls && s.calls[t].Entered? then
        s.(calls := s.calls[t := Loaded(s.calls[t].now, s.calls[t].started, s.last)])
      else s
    case SwapFails(t) =>
      if t in s.calls && s.calls[t].Loaded? then
        s.(calls := s.calls[t := s.calls[t].(seen := s.last)])
      else s
    case SwapOk(t) =>
      if t in s.calls && s.calls[t].Loaded? && s.calls[t].seen == s.last then
        var c := s.calls[t];
        var nonce := Candidate(c.now, c.seen);
        State(nonce, s.calls - {t}, s.issued + [Issue(t, nonce, c.now, c.started)])
      else s
  }

  /** A call whose swap failed has seen the cell anew: undisturbed, its next swap goes through. */
  lemma RetryGoesThrough(s: State, t: nat)
    requires t in s.calls && s.calls[t].Loaded?
    ensures var s' := Step(Step(s, SwapFails(t)), SwapOk(t));
            && s'.last == Candidate(s.calls[t].now, s.last) && t !in s'.calls
            && s'.issued == s.issued + [Issue(t, s'.last, s.calls[t].now, s.calls[t].started)]
  {
  }

  function Run(events: seq<Event>): State {
    if events == [] then Start else Step(Run(events[..|events| - 1]), events[|events| - 1])
  }

  ghost predicate ClockBelow(events: seq<Event>, limit: nat) {
    forall k :: 0 <= k < |events| && events[k].Enter? ==> events[k].now <= limit
  }

  ghost predicate Inv(s: State, limit: nat) {
    && s.last <= limit + |s.issued|
    && (s.issued == [] ==> s.last == 0)
    && (s.issued != [] ==> s.last == s.issued[|s.issued| - 1].nonce)
    && (forall t :: t in s.calls ==> s.calls[t].now <= limit && s.calls[t].started <= |s.issued|)
    && (forall i, j :: 0 <= i < j < |s.issued| ==> s.issued[i].nonce < s.issued[j].nonce)
    && (forall i :: 0 <= i < |s.issued| ==> s.issued[i].nonce >= s.issued[i].now && s.issued[i].started <= i)
  }

  lemma StepKeepsInv(s: State, e: Event, limit: nat)
    requires Inv(s, limit) && limit + |s.issued| < MAX_U64 && (e.Enter? ==> e.now <= limit)
    ensures Inv(Step(s, e), limit) && |Step(s, e).issued| <= |s.issued| + 1
  {
    if e.SwapOk? && e.thread in s.calls && s.calls[e.thread].Loaded? && s.calls[e.thread].seen == s.last {
      var c := s.calls[e.thread];
      CandidateAdvances(c.now, c.seen);
      forall i | 0 <= i < |s.issued| ensures s.issued[i].nonce < Candidate(c.now, c.seen) {
        assert s.issued[i].nonce <= s.last;
      }
    }
  }

  lemma {:induction false} RunKeepsInv(events: seq<Event>, limit: nat)
    requires ClockBelow(events, limit) && limit + |events| <= MAX_U64
    ensures Inv(Run(events), limit) && |Run(events).issued| <= |events|
  {
    if events != [] {
      RunKeepsInv(events[..|events| - 1], limit);
      StepKeepsInv(Run(events[..|events| - 1]), events[|events| - 1], limit);
    }
  }

  /**
   Every interleaving: issued nonces strictly increase in swap order (so they are pairwise distinct),
   none is below its caller's clock, and a call that began after another's swap gets the larger one.
   */
  lemma NoncesIncrease(events: seq<Event>, limit: nat, i: nat, j: nat)
    requires ClockBelow(events, limit) && limit + |events| <= MAX_U64
    requires i < |Run(events).issued| && j < |Run(events).issued|
    ensures var issued := Run(events).issued;
            && (issued[i].nonce < issued[j].nonce <==> i < j)
            && issued[j].nonce >= issued[j].now
            && issued[j].started <= j
            && (i < issued[j].started ==> issued[i].nonce < issued[j].nonce)
  {
    RunKeepsInv(events, limit);
  }

  ghost predicate Rising(issued: seq<Issue>) {
    forall i, j :: 0 <= i < j < |issued| ==> issued[i].nonce < issued[j].nonce
  }

  /** No nonce but the latest is the largest 64-bit value. */
  ghost predicate BelowTheEdge(issued: seq<Issue>) {
    forall i :: 0 <= i < |issued| - 1 ==> issued[i].nonce < MAX_U64
  }

  ghost predicate Linked(s: State) {
    && (s.issued == [] ==> s.last == 0)
    && (s.issued != [] ==> s.last == s.issued[|s.issued| - 1].nonce)
    && (BelowTheEdge(s.issued) ==> Rising(s.issued))
  }

  lemma StepKeepsLinked(s: State, e: Event)
    requires Linked(s)
    ensures Linked(Step(s, e))
  {
    var t := Step(s, e);
    if t.issued != s.issued {
      var n := |s.issued|;
      assert t.issued[..n] == s.issued;
      if BelowTheEdge(t.issued) {
        assert forall i :: 0 <= i < n ==> t.issued[i] == s.issued[i] && s.issued[i].nonce <= s.last;
        if n > 0 {
          assert t.issued[n - 1].nonce == s.last;
          CandidateAdvances(s.calls[e.thread].now, s.last);
        }
      }
    }
  }

  /** With no bound on the clock at all: the order is kept exactly until the largest value is passed. */
  lemma {:induction false} RisingIffBelowTheEdge(events: seq<Event>)
    ensures Rising(Run(events).issued) <==> BelowTheEdge(Run(events).issued)
    ensures Linked(Run(events))
  {
    if events != [] {
      RisingIffBelowTheEdge(events[..|events| - 1]);
      StepKeepsLinked(Run(events[..|events| - 1]), events[|events| - 1]);
    }
    var issued := Run(events).issued;
    if Rising(issued) {
      forall i | 0 <= i < |issued| - 1 ensures issued[i].nonce < MAX_U64 {
        assert issued[i].nonce < issued[|issued| - 1].nonce;
      }
    }
  }

  lemma RunSnoc(events: seq<Event>, e: Event)
    ensures Run(events + [e]) == Step(Run(events), e)
  {
  }

  /** Past the 64-bit edge the order is lost: after the largest value the generator starts over. */
  lemma OrderIsLostAtTheEdge()
    ensures exists events ::
              var issued := Run(events).issued; |issued| == 2 && issued[1].nonce < issued[0].nonce
  {
    var one := [Enter(0, MAX_U64)];
    var two := one + [Load(0)];
    var three := two + [SwapOk(0)];
    var four := three + [Enter(1, 5)];
    var five := four + [Load(1)];
    RunSnoc([], Enter(0, MAX_U64));
    assert [] + [Enter(0, MAX_U64)] == one;
    RunSnoc(one, Load(0));
    RunSnoc(two, SwapOk(0));
    RunSnoc(three, Enter(1, 5));
    RunSnoc(four, Load(1));
    RunSnoc(five, SwapOk(1));
    assert Run(three).issued == [Issue(0, MAX_U64, MAX_U64, 0)];
    var issued := Run(five + [SwapOk(1)]).issued;
    assert issued == [Issue(0, MAX_U64, MAX_U64, 0), Issue(1, 5, 5, 1)];
  }

  // ---------------------------------------------------------------------------
  // One caller's loop
  // ---------------------------------------------------------------------------

  /** What happens between a caller's read of the cell and its swap: maybe another thread's swap, maybe a spurious failure. */
  datatype Turn = Turn(other: Option<U64>, spurious: bool)

  /** The cell after the first `n` turns, as the other threads leave it. */
  function CellAfter(cell: U64, turns: seq<Turn>, n: nat): U64
    requires n <= |turns|
  {
    if n == 0 then cell
    else if turns[n - 1].other.Some? then turns[n - 1].other.value
    else CellAfter(cell, turns, n - 1)
  }

  /** The swap of turn `n` goes through: no spurious failure, and the cell is what the caller last saw. */
  predicate Swaps(cell: U64, turns: seq<Turn>, n: nat)
    requires n < |turns|
  {
    !turns[n].spurious && CellAfter(cell, turns, n + 1) == CellAfter(cell, turns, n)
  }

  class NonceGenerator {
    var last: U64

    constructor ()
      ensures last == 0
    {
      last := 0;
    }

    /** The weak compare-and-swap: on failure it reports what it found, and may fail though the value matched. */
    method CompareExchangeWeak(expected: U64, desired: U64, spurious: bool) returns (swapped: bool, observed: U64)
      modifies this
      ensures swapped <==> old(last) == expected && !spurious
      ensures observed == old(last)
      ensures last == if swapped then desired else old(last)
    {
      observed := last;
      swapped := last == expected && !spurious;
      if swapped {
        last := desired;
      }
    }

    /** Another thread's successful swap. */
    method SwapElsewhere(value: U64)
      modifies this
      ensures last == value
    {
      last := value;
    }

    /**
     `turns` is what befalls the attempts one after the other; when it is used up nothing disturbs the next one.
     The call stops at the first attempt that can go through, with the candidate for the cell as it then was.
     */
    method Next(now: U64, turns: seq<Turn>) returns (nonce: U64, attempt: nat)
      modifies this
      ensures attempt <= |turns| && (attempt < |turns| ==> Swaps(old(last), turns, attempt))
      ensures forall n :: 0 <= n < attempt ==> !Swaps(old(last), turns, n)
      ensures nonce == Candidate(now, CellAfter(old(last), turns, attempt)) && last == nonce
    {
      var seen := last;
      ghost var cell := last;
      attempt := 0;
      while attempt < |turns|
        invariant attempt <= |turns|
        invariant seen == last == CellAfter(cell, turns, attempt)
        invariant forall n :: 0 <= n < attempt ==> !Swaps(cell, turns, n)
      {
        var turn := turns[attempt];
        if turn.other.Some? {
          SwapElsewhere(turn.other.value);
        }
        nonce := Candidate(now, seen);
        var swapped, observed := CompareExchangeWeak(seen, nonce, turn.spurious);
        if swapped {
          return;
        }
        seen := observed;
        attempt := attempt + 1;
      }
      nonce := Candidate(now, seen);
      var swapped, _ := CompareExchangeWeak(seen, nonce, false);
    }
  }
}
