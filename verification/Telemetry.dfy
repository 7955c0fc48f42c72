/** The span recorder. Every process measures from its own origin, in whole microseconds of one monotonic
    clock; what the children measured is shifted onto the parent's timeline by the time at which the
    parent let them go. Clock readings are parameters, in nanoseconds. */
module Telemetry {
  import opened Wrappers

  datatype Phase = Phase(name: string, start: nat, end: nat)

  /** An exported span, in nanoseconds since the epoch; the root has no parent. */
  datatype Span = Span(name: string, root: bool, start: nat, end: nat)

  /** `as_micros`: whole microseconds. */
  function Micros(nanos: nat): nat {
    nanos / 1000
  }

  /** What a clock with this origin shows at `now`. */
  function Elapsed(origin: nat, now: nat): nat
    requires origin <= now
  {
    Micros(now - origin)
  }

  // ---- Arithmetic of whole microseconds -------------------------------------------------------------------

  lemma MicrosSplit(nanos: nat)
    ensures nanos == 1000 * Micros(nanos) + nanos % 1000
  {
  }

  lemma MicrosMonotone(a: nat, b: nat)
    requires a <= b
    ensures Micros(a) <= Micros(b)
  {
    MicrosSplit(a);
    MicrosSplit(b);
  }

  /** Rounding two parts down loses at most one microsecond of the whole. */
  lemma MicrosOfSum(a: nat, b: nat)
    ensures Micros(a) + Micros(b) <= Micros(a + b) <= Micros(a) + Micros(b) + 1
  {
    MicrosSplit(a);
    MicrosSplit(b);
    MicrosSplit(a + b);
  }

  // ---- Phases ---------------------------------------------------------------------------------------------

  /** The phase lies between the origin and `now`, as the clock shows them. */
  predicate Within(phase: Phase, origin: nat, now: nat)
    requires origin <= now
  {
    phase.start <= phase.end <= Elapsed(origin, now)
  }

  predicate AllWithin(phases: seq<Phase>, origin: nat, now: nat)
    requires origin <= now
  {
    forall p | p in phases :: Within(p, origin, now)
  }

  /** One after the other, none overlapping another. */
  predicate Ordered(phases: seq<Phase>) {
    && (forall i | 0 <= i < |phases| :: phases[i].start <= phases[i].end)
    && (forall i, j | 0 <= i < j < |phases| :: phases[i].end <= phases[j].start)
  }

  /** The phases of a child on the timeline of its parent. */
  function Shifted(prefix: string, offset: nat, phases: seq<Phase>): seq<Phase> {
    seq(|phases|, i requires 0 <= i < |phases| =>
      Phase(prefix + "." + phases[i].name, offset + phases[i].start, offset + phases[i].end))
  }

  // ---- The recorder ---------------------------------------------------------------------------------------

  class Recorder {
    const origin: nat
    const wallOrigin: nat
    var phases: seq<Phase>
    var open: Option<(string, nat)>
    ghost var read: nat
    ghost var own: seq<Phase>
    ghost var absorbed: multiset<Phase>

    /** The recorder's own phases are ordered and lie between its origin and its last reading, an open
        one comes after them, and the list holds these and what was absorbed, no more and no less. */
    ghost predicate Valid()
      reads this
    {
      && origin <= read
      && Ordered(own) && AllWithin(own, origin, read)
      && (open.Some? ==> open.value.1 <= Elapsed(origin, read) && forall p | p in own :: p.end <= open.value.1)
      && multiset(phases) == multiset(own) + absorbed
    }

    constructor (now: nat, wall: nat)
      ensures Valid() && origin == read == now && wallOrigin == wall
      ensures phases == own == [] && open == None && absorbed == multiset{}
    {
      origin, wallOrigin, phases, open := now, wall, [], None;
      read, own, absorbed := now, [], multiset{};
    }

    method ElapsedMicros(now: nat) returns (micros: nat)
      requires Valid() && read <= now
      modifies this`read
      ensures Valid() && read == now && micros == (now - origin) / 1000
    {
      OwnWithinLater(own, origin, read, now);
      MicrosMonotone(read - origin, now - origin);
      read := now;
      micros := Micros(now - origin);
    }

    method End(now: nat)
      requires Valid() && read <= now
      modifies this
      ensures Valid() && read == now && open == None && absorbed == old(absorbed)
      ensures old(open).None? ==> phases == old(phases) && own == old(own)
      ensures old(open).Some? ==>
              var phase := Phase(old(open).value.0, old(open).value.1, (now - origin) / 1000);
              phases == old(phases) + [phase] && own == old(own) + [phase]
    {
      ghost var was := own;
      var end := ElapsedMicros(now);
      if open.Some? {
        var (name, start) := open.value;
        open := None;
        phases := phases + [Phase(name, start, end)];
        own := own + [Phase(name, start, end)];
        OrderedOneMore(was, Phase(name, start, end));
      }
    }

    /** Ends the phase before, and starts one at the second reading. */
    method Begin(name: string, ended: nat, now: nat)
      requires Valid() && read <= ended <= now
      modifies this
      ensures Valid() && read == now && open == Some((name, (now - origin) / 1000)) && absorbed == old(absorbed)
      ensures old(open).None? ==> phases == old(phases) && own == old(own)
      ensures old(open).Some? ==>
              var phase := Phase(old(open).value.0, old(open).value.1, (ended - origin) / 1000);
              phases == old(phases) + [phase] && own == old(own) + [phase]
    {
      End(ended);
      ghost var bound := Elapsed(origin, ended);
      var start := ElapsedMicros(now);
      MicrosMonotone(ended - origin, now - origin);
      open := Some((name, start));
    }

    method Absorb(prefix: string, offset: nat, children: seq<Phase>)
      requires Valid()
      modifies this
      ensures Valid() && read == old(read) && open == old(open) && own == old(own)
      ensures |phases| == |old(phases)| + |children| && old(phases) <= phases
      ensures forall i | 0 <= i < |children| ::
                phases[|old(phases)| + i]
                == Phase(prefix + "." + children[i].name, offset + children[i].start, offset + children[i].end)
      ensures absorbed == old(absorbed) + multiset(Shifted(prefix, offset, children))
    {
      var i := 0;
      ghost var was, shifted := phases, Shifted(prefix, offset, children);
      while i < |children|
        invariant i <= |children| && phases == was + shifted[..i]
        invariant read == old(read) && open == old(open) && own == old(own) && absorbed == old(absorbed)
      {
        var phase := Phase(prefix + "." + children[i].name, offset + children[i].start, offset + children[i].end);
        assert shifted[..i + 1] == shifted[..i] + [phase];
        phases := phases + [phase];
        i := i + 1;
      }
      assert shifted[..|shifted|] == shifted;
      absorbed := absorbed + multiset(shifted);
    }

    /** Closes what is open and hands all phases over. */
    method Take(now: nat) returns (taken: seq<Phase>)
      requires Valid() && read <= now
      modifies this
      ensures Valid() && read == now && phases == [] && open == None
      ensures old(absorbed) == multiset{} ==> AllWithin(taken, origin, now)
      ensures taken == old(phases)
                       + (if old(open).None? then []
                          else [Phase(old(open).value.0, old(open).value.1, (now - origin) / 1000)])
    {
      End(now);
      taken := phases;
      if absorbed == multiset{} {
        assert multiset(phases) == multiset(own);
        forall p | p in taken ensures Within(p, origin, now) {
          assert p in multiset(phases) && p in own;
        }
      }
      phases, own, absorbed := [], [], multiset{};
    }

    /** The spans of the exported trace: every phase, on the wall clock, behind a root that begins with the
        recorder and ends with the latest of them. Without a phase nothing is exported. */
    method Export(root: string, now: nat) returns (spans: seq<Span>, ghost taken: seq<Phase>)
      requires Valid() && read <= now
      modifies this
      ensures Valid() && phases == [] && open == None
      ensures taken == old(phases)
                       + (if old(open).None? then []
                          else [Phase(old(open).value.0, old(open).value.1, (now - origin) / 1000)])
      ensures taken == [] ==> spans == []
      ensures taken != [] ==>
              && |spans| == |taken| + 1
              && spans[0].name == root && spans[0].root && spans[0].start == wallOrigin
              && (forall i | 0 <= i < |taken| ::
                    spans[i + 1] == Span(taken[i].name, false, wallOrigin + 1000 * taken[i].start,
                                         wallOrigin + 1000 * taken[i].end))
              && (forall i | 1 <= i < |spans| :: spans[i].end <= spans[0].end)
              && (exists i :: 1 <= i < |spans| && spans[i].end == spans[0].end)
    {
      var ended := Take(now);
      taken := ended;
      if ended == [] {
        return [], taken;
      }
      var total, latest := ended[0].end, 0;
      for i := 1 to |ended|
        invariant latest < |ended| && ended[latest].end == total
        invariant forall j | 0 <= j < i :: ended[j].end <= total
      {
        if ended[i].end > total {
          total, latest := ended[i].end, i;
        }
      }
      spans := [Span(root, true, wallOrigin, wallOrigin + 1000 * total)];
      for i := 0 to |ended|
        invariant |spans| == i + 1 && spans[0] == Span(root, true, wallOrigin, wallOrigin + 1000 * total)
        invariant forall j | 0 <= j < i ::
          spans[j + 1] == Span(ended[j].name, false, wallOrigin + 1000 * ended[j].start,
                               wallOrigin + 1000 * ended[j].end)
      {
        spans := spans + [Span(ended[i].name, false, wallOrigin + 1000 * ended[i].start,
                               wallOrigin + 1000 * ended[i].end)];
      }
      forall i | 1 <= i < |spans| ensures spans[i].end <= spans[0].end {
        var j := i - 1;
        assert ended[j].end <= total && spans[j + 1].end == wallOrigin + 1000 * ended[j].end;
      }
      assert spans[latest + 1].end == spans[0].end;
    }
  }

  lemma OwnWithinLater(own: seq<Phase>, origin: nat, now: nat, later: nat)
    requires origin <= now <= later && AllWithin(own, origin, now)
    ensures AllWithin(own, origin, later)
  {
    MicrosMonotone(now - origin, later - origin);
    forall p | p in own ensures Within(p, origin, later) { assert Within(p, origin, now); }
  }

  lemma OrderedOneMore(own: seq<Phase>, phase: Phase)
    requires Ordered(own) && phase.start <= phase.end && forall p | p in own :: p.end <= phase.start
    ensures Ordered(own + [phase])
  {
    forall i | 0 <= i < |own| ensures own[i].end <= phase.start { assert own[i] in own; }
  }

  // ---- Children on the parent's timeline ------------------------------------------------------------------

  /** The init starts its clock after it was released, and the parent closes its "init" phase after it has
      the init's phases: so these lie inside that phase. `begun` and `ended` are the readings that bound the
      phase, `released` the one that becomes the offset, `taken` the child's last. */
  lemma InitSpansLieInside(origin: nat, begun: nat, released: nat, childOrigin: nat, taken: nat, ended: nat,
                           phases: seq<Phase>)
    requires origin <= begun <= released <= childOrigin <= taken <= ended
    requires AllWithin(phases, childOrigin, taken)
    ensures forall p | p in Shifted("init", Elapsed(origin, released), phases) ::
              Elapsed(origin, begun) <= p.start <= p.end <= Elapsed(origin, ended)
  {
    var shifted := Shifted("init", Elapsed(origin, released), phases);
    MicrosMonotone(begun - origin, released - origin);
    MicrosOfSum(released - origin, taken - childOrigin);
    MicrosMonotone(released - origin + (taken - childOrigin), ended - origin);
    forall i | 0 <= i < |shifted|
      ensures Elapsed(origin, begun) <= shifted[i].start <= shifted[i].end <= Elapsed(origin, ended)
    {
      assert Within(phases[i], childOrigin, taken);
    }
  }

  /** The intermediate starts its clock after the fork, and sends its phases before the parent absorbs
      them: so they start no earlier than the fork and end no later than the parent's clock then shows. */
  lemma IntermediateSpansEndInTime(origin: nat, forked: nat, childOrigin: nat, taken: nat, absorbed: nat,
                                   phases: seq<Phase>)
    requires origin <= forked <= childOrigin <= taken <= absorbed
    requires AllWithin(phases, childOrigin, taken)
    ensures forall p | p in Shifted("intermediate", Elapsed(origin, forked), phases) ::
              Elapsed(origin, forked) <= p.start <= p.end <= Elapsed(origin, absorbed)
  {
    var shifted := Shifted("intermediate", Elapsed(origin, forked), phases);
    MicrosOfSum(forked - origin, taken - childOrigin);
    MicrosMonotone(forked - origin + (taken - childOrigin), absorbed - origin);
    forall i | 0 <= i < |shifted|
      ensures Elapsed(origin, forked) <= shifted[i].start <= shifted[i].end <= Elapsed(origin, absorbed)
    {
      assert Within(phases[i], childOrigin, taken);
    }
  }

  /** A shifted time is never late, and early by no more than the time the child took to start its clock
      and two microseconds of rounding. */
  lemma ShiftIsAccurate(origin: nat, released: nat, childOrigin: nat, at: nat)
    requires origin <= released <= childOrigin <= at
    ensures var shown := Elapsed(origin, released) + Elapsed(childOrigin, at);
            shown <= Elapsed(origin, at) <= shown + Micros(childOrigin - released) + 2
  {
    MicrosOfSum(released - origin, at - childOrigin);
    MicrosOfSum(released - origin + (at - childOrigin), childOrigin - released);
  }

  /** The order of a child's phases survives the shift. */
  lemma ShiftKeepsOrder(prefix: string, offset: nat, phases: seq<Phase>)
    ensures Ordered(phases) <==> Ordered(Shifted(prefix, offset, phases))
  {
    var shifted := Shifted(prefix, offset, phases);
    if Ordered(shifted) {
      forall i | 0 <= i < |phases| ensures phases[i].start <= phases[i].end {
        assert shifted[i].start <= shifted[i].end;
      }
      forall i, j | 0 <= i < j < |phases| ensures phases[i].end <= phases[j].start {
        assert shifted[i].end <= shifted[j].start;
      }
    }
  }
}
