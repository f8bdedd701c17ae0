/** Transfers get done: the same as StackProgress for a transfer set. In every joint run, while a transfer is in
    flight some step of a worker or of shutdown can be taken, each lowers by one what is left to do, and once it
    is nothing, no transfer is in flight. */
module TransferProgress {
  import opened Transfer
  import opened Service
  import opened DirectRead
  import opened TransferStack
  import opened BackendProgress
  import Sums
  import Memory
  import B = BackendRuns
  import M = TransferModel
  import R = TransferRuns

  function BackendSide(e: Event): Option<B.Event> {
    match e
    case Backend(be) => Some(be)
    case Finish(i, result) => Some(B.Finish(i, result))
    case Cancel => Some(B.Cancel)
    case _ => None
  }

  /** A worker or shutdown takes, delivers or records a request. */
  ghost predicate Works(s: Stack, e: Event)
    requires Sized(s)
  {
    Enabled(s, e) && BackendSide(e).Some? && Serves(s.desk.backend, BackendSide(e).value)
  }

  function Left(s: Stack): int { Load(s.desk.backend) }

  /** The event brings the backend no new request. */
  predicate Calm(e: Event) { !e.Submit? && !(e.Backend? && e.step.Submit?) }

  lemma SideEnabled(s: Stack, e: Event)
    requires Sized(s) && Enabled(s, e) && BackendSide(e).Some?
    ensures B.Enabled(s.desk.backend, BackendSide(e).value)
    ensures Apply(s, e).desk.backend == B.Apply(s.desk.backend, BackendSide(e).value)
  {
    hide Memory.Lays, B.Apply, M.OnComplete;
  }

  lemma WorkLowers(s: Stack, e: Event)
    requires Sized(s) && Works(s, e)
    ensures Left(Apply(s, e)) + 1 == Left(s)
  {
    hide B.Apply, Load, B.Enabled, Enabled, Apply, Serves;
    SideEnabled(s, e);
    ServeLowers(s.desk.backend, BackendSide(e).value);
  }

  lemma CalmKeeps(s: Stack, e: Event)
    requires Sized(s) && Calm(e) && !Works(s, e)
    ensures Left(Apply(s, e)) <= Left(s)
    ensures e != Backend(B.Shutdown) ==> Left(Apply(s, e)) == Left(s)
  {
    hide B.Apply, Load, B.Enabled, Serves, Enabled, R.Enabled, M.OnComplete, Memory.Overwrite;
    if Enabled(s, e) && BackendSide(e).Some? {
      SideEnabled(s, e);
      OthersKeep(s.desk.backend, BackendSide(e).value);
    }
  }

  function Whole(s: Stack, be: B.Event): Event
    requires B.Enabled(s.desk.backend, be)
  {
    match be
    case Finish(i, result) => if Mine(s.issuer, s.desk.backend.workers[i].item) then Finish(i, result) else Backend(be)
    case Cancel =>
      var drain := s.desk.backend.drain;
      if drain.uncounted || !Mine(s.issuer, drain.rest[0]) then Backend(be) else Cancel
    case _ => Backend(be)
  }

  lemma WholeWorks(s: Stack, be: B.Event)
    requires Sized(s) && Serves(s.desk.backend, be) && MayDeliver(s.issuer, s.desk, s.file, be)
    ensures Works(s, Whole(s, be))
  {
    hide Reported;
  }

  /** While something is left, and there is a worker at all, a worker or shutdown can take a step. */
  lemma LeftMoves(s: Stack) returns (e: Event)
    requires Sized(s) && StackOk(s) && 0 < |s.desk.ledgers| && 0 < Left(s)
    ensures Works(s, e)
  {
    hide R.WorldOk, B.WorldOk, Matched, LedgersOk, Works, Serves, MayDeliver, Load;
    var be := DeskMoves(s.issuer, s.desk, s.issued.mem, s.file);
    ServesEnabled(s.desk.backend, be);
    WholeWorks(s, be);
    e := Whole(s, be);
  }

  /** A transfer in flight is something left: the backend holds its request. */
  lemma InFlightIsLeft(s: Stack, r: nat)
    requires Sized(s) && StackOk(s)
    requires r < |s.issued.transfers.records| && s.issued.transfers.records[r].state.Submitted?
    ensures 0 < Left(s)
  {
    hide B.WorldOk, Has, Load, R.MemoryOk;
    var t := Token(r, s.issued.transfers.records[r].generation);
    assert M.Current(s.issued.transfers, t) && R.Outstanding(s.issued, t);
    assert Undelivered(s.issued.transfers.requests, s.issued.delivered, t) && HasToken(s.issuer, s.desk.backend, t);
    var x :| Has(s.desk.backend, x) && Mine(s.issuer, x) && x.request.token == t;
    HeldIsLoad(s.desk.backend, x);
  }

  /** While a transfer is in flight, a worker or shutdown can take a step, which lowers what is left by one. So a
      claim never waits for something that nobody is doing. */
  lemma InFlightMoves(s: Stack, r: nat) returns (e: Event)
    requires Sized(s) && StackOk(s) && 0 < |s.desk.ledgers|
    requires r < |s.issued.transfers.records| && s.issued.transfers.records[r].state.Submitted?
    ensures Works(s, e) && Left(Apply(s, e)) + 1 == Left(s)
  {
    hide StackOk, Works, Left;
    InFlightIsLeft(s, r);
    e := LeftMoves(s);
    WorkLowers(s, e);
  }

  /** No transfer is in flight, so every claim has its result. */
  predicate Settled(s: Stack) {
    && s.issued.transfers.counters.inFlight == 0
    && forall r :: 0 <= r < |s.issued.transfers.records| ==> !s.issued.transfers.records[r].state.Submitted?
  }

  ghost predicate Resting(s: Stack)
    requires Sized(s)
  {
    forall e :: !Works(s, e)
  }

  lemma NothingLeft(s: Stack)
    requires Sized(s) && StackOk(s) && Left(s) <= 0
    ensures Settled(s)
  {
    hide R.WorldOk, DeskOk, Left;
    forall r | 0 <= r < |s.issued.transfers.records|
      ensures !s.issued.transfers.records[r].state.Submitted? && M.SubmittedWeight(s.issued.transfers.records[r]) == 0 {
      if s.issued.transfers.records[r].state.Submitted? {
        InFlightIsLeft(s, r);
      }
    }
    SetInv(s.issued);
    Sums.SumBounds(s.issued.transfers.records, M.SubmittedWeight);
  }

  /** After any run, whatever it brought: if the backend has no step left, no transfer is in flight. */
  lemma WorkSettles(s: Stack, es: seq<Event>)
    requires Sized(s) && StackOk(s) && 0 < |s.desk.ledgers| && Resting(After(s, es))
    ensures Settled(After(s, es))
  {
    hide StackOk, Left, Settled, Works;
    RunProjects(s, es);
    var now := After(s, es);
    if 0 < Left(now) {
      var e := LeftMoves(now);
      assert false;
    }
    NothingLeft(now);
  }

  ghost function Work(s: Stack, es: seq<Event>): nat
    requires Sized(s)
  {
    if es == [] then 0
    else
      var last := |es| - 1;
      Work(s, es[..last]) + if Works(After(s, es[..last]), es[last]) then 1 else 0
  }

  /** In a run that brings no new work there are at most as many such steps as were left. */
  lemma {:induction false} WorkBounded(s: Stack, es: seq<Event>)
    requires Sized(s) && forall i :: 0 <= i < |es| ==> Calm(es[i])
    ensures 0 <= Left(After(s, es)) && Left(After(s, es)) + Work(s, es) <= Left(s)
    ensures Backend(B.Shutdown) !in es ==> Left(After(s, es)) + Work(s, es) == Left(s)
  {
    hide Apply, Load, Calm, Works;
    LoadIsNatural(After(s, es).desk.backend);
    if es != [] {
      var last := |es| - 1;
      WorkBounded(s, es[..last]);
      var before := After(s, es[..last]);
      assert es[last] in es;
      if Works(before, es[last]) {
        WorkLowers(before, es[last]);
      } else {
        CalmKeeps(before, es[last]);
      }
    }
  }

  /** And the backend can always finish: a run of exactly as many such steps as are left ends with no transfer in
      flight. */
  lemma {:induction false} WorkCompletes(s: Stack) returns (es: seq<Event>)
    requires Sized(s) && StackOk(s) && 0 < |s.desk.ledgers|
    ensures |es| == Work(s, es) == Left(s) && Settled(After(s, es))
    decreases Load(s.desk.backend)
  {
    hide StackOk, Apply, Works, Load, Settled;
    LoadIsNatural(s.desk.backend);
    if Left(s) == 0 {
      es := [];
      NothingLeft(s);
    } else {
      var e := LeftMoves(s);
      WorkLowers(s, e);
      StackStep(s, e);
      var more := WorkCompletes(Apply(s, e));
      es := [e] + more;
      FirstStep(s, e, more);
    }
  }

  lemma {:induction false} FirstStep(s: Stack, e: Event, es: seq<Event>)
    requires Sized(s)
    ensures After(s, [e] + es) == After(Apply(s, e), es)
    ensures Work(s, [e] + es) == Work(Apply(s, e), es) + if Works(s, e) then 1 else 0
  {
    hide Apply, Works;
    if es == [] {
      assert [e] + es == [e] && [e][..0] == [];
    } else {
      var last := |es| - 1;
      assert ([e] + es)[..|es|] == [e] + es[..last];
      FirstStep(s, e, es[..last]);
    }
  }
}
