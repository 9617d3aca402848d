/** The bitstream cache of the host program (host_api/api/transpose_fpga.c): a static
    record of the matrix size whose program is on the device, and the decision, per
    request, whether to keep, load, or replace that program. */
module BitstreamCache {
  import opened Fpga

  /** A matrix size `int N[2]`: rows, then columns. */
  datatype Dims = Dims(rows: int, cols: int)

  /** The initial value of the static `transpose_size`: nothing programmed yet. */
  const Unset := Dims(0, 0)

  /** The sizes a bitstream exists for. */
  predicate Supported(d: Dims)
  {
    d == Dims(8, 8) || d == Dims(16, 16) || d == Dims(32, 32) || d == Dims(64, 64) || d == Dims(128, 128)
  }

  /** The supported sizes are the square powers of two from 8 to 128; none is Unset. */
  lemma SupportedShape(d: Dims)
    ensures Supported(d) <==> d.rows == d.cols && d.rows in {8, 16, 32, 64, 128}
    ensures Supported(d) ==> d != Unset && d.rows % 8 == 0 && 8 <= d.rows <= 128
  {
  }

  /** A program change: init_program for a size, or cleanup_program. */
  datatype ProgramEvent = ProgramInit(size: Dims) | ProgramCleanup

  /** The outcome of one fpga_check_bitstream_ call: its return value as a flag, the new
      cached size and the program changes it makes. */
  datatype CheckResult = CheckResult(accepted: bool, cached: Dims, events: seq<ProgramEvent>)

  /** fpga_check_bitstream_ on the cached size `cached` and the request `n`. */
  function CheckStep(cached: Dims, n: Dims): (r: CheckResult)
    ensures r.accepted <==> Supported(n)
    ensures !r.accepted ==> r.cached == cached && r.events == []
    ensures r.accepted ==> r.cached == n
    ensures r.accepted ==> (r.events == [] <==> cached == n)
    ensures r.accepted && cached == Unset ==> r.events == [ProgramInit(n)]
    ensures r.accepted && cached != Unset && cached != n ==> r.events == [ProgramCleanup, ProgramInit(n)]
  {
    if !Supported(n) then CheckResult(false, cached, [])
    else if cached == Unset then CheckResult(true, n, [ProgramInit(n)])
    else if cached == n then CheckResult(true, cached, [])
    else CheckResult(true, n, [ProgramCleanup, ProgramInit(n)])
  }

  /** A sequence of calls: the final cached size and all program changes in order. */
  datatype Session = Session(cached: Dims, events: seq<ProgramEvent>)

  function Run(cached: Dims, ns: seq<Dims>): Session
    decreases |ns|
  {
    if ns == [] then Session(cached, [])
    else
      var r := CheckStep(cached, ns[0]);
      var rest := Run(r.cached, ns[1..]);
      Session(rest.cached, r.events + rest.events)
  }

  /** The program on the device after replaying program changes, or None when a change
      is out of place: an init while a program is loaded, or a cleanup with none. */
  function Apply(loaded: Option<Dims>, es: seq<ProgramEvent>): Option<Option<Dims>>
    decreases |es|
  {
    if es == [] then Some(loaded)
    else match es[0]
      case ProgramInit(d) => if loaded.Some? then None else Apply(Some(d), es[1..])
      case ProgramCleanup => if loaded.None? then None else Apply(None, es[1..])
  }

  /** What the device holds for a cached size. */
  function Loaded(cached: Dims): Option<Dims>
  {
    if cached == Unset then None else Some(cached)
  }

  predicate Reachable(cached: Dims)
  {
    cached == Unset || Supported(cached)
  }

  lemma {:induction false} ApplyConcat(loaded: Option<Dims>, a: seq<ProgramEvent>, b: seq<ProgramEvent>)
    ensures Apply(loaded, a + b) ==
      match Apply(loaded, a)
      case None => None
      case Some(l) => Apply(l, b)
    decreases |a|
  {
    if a == [] {
      assert a + b == b;
    } else {
      assert (a + b)[0] == a[0];
      assert (a + b)[1..] == a[1..] + b;
      match a[0]
      case ProgramInit(d) => if loaded.None? { ApplyConcat(Some(d), a[1..], b); }
      case ProgramCleanup => if loaded.Some? { ApplyConcat(None, a[1..], b); }
    }
  }

  /** One call keeps the device program in step with the cached size. */
  lemma StepInSync(cached: Dims, n: Dims)
    requires Reachable(cached)
    ensures var r := CheckStep(cached, n);
      Reachable(r.cached) && Apply(Loaded(cached), r.events) == Some(Loaded(r.cached))
  {
    var r := CheckStep(cached, n);
    if r.events == [ProgramCleanup, ProgramInit(n)] {
      assert r.events[1..] == [ProgramInit(n)];
    }
  }

  /** Any sequence of calls keeps the device program in step with the cached size: a
      program is loaded only when none is, unloaded only when one is, and the one loaded
      at the end is the cached size. */
  lemma {:induction false} RunInSync(cached: Dims, ns: seq<Dims>)
    requires Reachable(cached)
    ensures var s := Run(cached, ns);
      Reachable(s.cached) && Apply(Loaded(cached), s.events) == Some(Loaded(s.cached))
    decreases |ns|
  {
    if ns != [] {
      var r := CheckStep(cached, ns[0]);
      StepInSync(cached, ns[0]);
      RunInSync(r.cached, ns[1..]);
      ApplyConcat(Loaded(cached), r.events, Run(r.cached, ns[1..]).events);
    }
  }

  /** After any accepted call the cached size is the requested one. */
  lemma {:induction false} RunEndsAtLastAccepted(cached: Dims, ns: seq<Dims>)
    requires ns != [] && Supported(ns[|ns| - 1])
    ensures Run(cached, ns).cached == ns[|ns| - 1]
    decreases |ns|
  {
    if |ns| > 1 {
      RunEndsAtLastAccepted(CheckStep(cached, ns[0]).cached, ns[1..]);
    }
  }

  function Inits(es: seq<ProgramEvent>): (c: nat)
    ensures c <= |es|
    decreases |es|
  {
    if es == [] then 0 else (if es[0].ProgramInit? then 1 else 0) + Inits(es[1..])
  }

  function Cleanups(es: seq<ProgramEvent>): (c: nat)
    ensures c <= |es|
    decreases |es|
  {
    if es == [] then 0 else (if es[0].ProgramCleanup? then 1 else 0) + Cleanups(es[1..])
  }

  /** Inits and Cleanups unfolded at every suffix, for sequences written out in full. */
  lemma CountSuffixes(es: seq<ProgramEvent>)
    ensures forall i {:trigger es[i..]} :: 0 <= i < |es| ==>
      Inits(es[i..]) == (if es[i].ProgramInit? then 1 else 0) + Inits(es[i + 1..]) &&
      Cleanups(es[i..]) == (if es[i].ProgramCleanup? then 1 else 0) + Cleanups(es[i + 1..])
    ensures Inits(es[|es|..]) == 0 && Cleanups(es[|es|..]) == 0
  {
    forall i | 0 <= i < |es|
      ensures Inits(es[i..]) == (if es[i].ProgramInit? then 1 else 0) + Inits(es[i + 1..])
      ensures Cleanups(es[i..]) == (if es[i].ProgramCleanup? then 1 else 0) + Cleanups(es[i + 1..])
    {
      assert es[i..][1..] == es[i + 1..];
    }
  }

  /** A well-placed change sequence has as many inits as cleanups, plus one if it ends
      with a program loaded, minus one if it started with one. */
  lemma {:induction false} ApplyCounts(loaded: Option<Dims>, es: seq<ProgramEvent>, final: Option<Dims>)
    requires Apply(loaded, es) == Some(final)
    ensures Inits(es) + (if loaded.Some? then 1 else 0) == Cleanups(es) + (if final.Some? then 1 else 0)
    decreases |es|
  {
    if es != [] {
      match es[0]
      case ProgramInit(d) => ApplyCounts(Some(d), es[1..], final);
      case ProgramCleanup => ApplyCounts(None, es[1..], final);
    }
  }

  /** From the initial state, every init_program but the one still loaded is matched by a
      cleanup_program. */
  lemma SessionCounts(ns: seq<Dims>)
    ensures var s := Run(Unset, ns);
      Inits(s.events) == Cleanups(s.events) + (if s.cached == Unset then 0 else 1)
  {
    RunInSync(Unset, ns);
    ApplyCounts(None, Run(Unset, ns).events, Loaded(Run(Unset, ns).cached));
  }

  /** Asking twice for the same size loads its program once. */
  lemma SameSizeTwice(a: Dims)
    requires Supported(a)
    ensures Run(Unset, [a, a]) == Session(a, [ProgramInit(a)])
  {
    SupportedShape(a);
    assert [a, a][1..] == [a] && [a][1..] == [];
    assert Run(a, [a]) == Session(a, []);
  }

  /** Alternating between two sizes reloads on every change: three inits, two cleanups. */
  lemma Alternating(a: Dims, b: Dims)
    requires Supported(a) && Supported(b) && a != b
    ensures Run(Unset, [a, b, a]).events ==
      [ProgramInit(a), ProgramCleanup, ProgramInit(b), ProgramCleanup, ProgramInit(a)]
    ensures var es := Run(Unset, [a, b, a]).events; Inits(es) == 3 && Cleanups(es) == 2
  {
    SupportedShape(a);
    SupportedShape(b);
    var swap := [ProgramCleanup, ProgramInit(a)];
    assert [a, b, a][1..] == [b, a] && [b, a][1..] == [a] && [a][1..] == [];
    assert Run(b, [a]) == Session(a, swap);
    assert Run(a, [b, a]) == Session(a, [ProgramCleanup, ProgramInit(b)] + swap);
    var es := [ProgramInit(a)] + ([ProgramCleanup, ProgramInit(b)] + swap);
    assert Run(Unset, [a, b, a]).events == es;
    CountSuffixes(es);
    assert es[0..] == es;
  }
}
