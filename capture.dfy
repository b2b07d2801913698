/**
 * The camera of alert_system.py: the start-up search over capture
 * backends and device indices, and the handle that the main loop reads,
 * releases and reopens.
 *
 * The camera driver is an oracle.  Attempt `k` (the k-th capture handle
 * constructed, which is also the handle's id) opens iff
 * `dev.opens(k, c)` for its candidate `c`, and its probe read yields a
 * frame iff `dev.probes(k, c)`.  The attempt number is part of the
 * oracle because the same candidate can be tried twice and answer
 * differently.  What the program asks of the driver is recorded in
 * `events`.
 */
module Capture {
  import opened Base

  /** The capture backends the program names: DirectShow, Media Foundation, auto-detect. */
  datatype Backend = DShow | Msmf | AutoDetect

  /** A device index opened through a backend. */
  datatype Candidate = Candidate(backend: Backend, index: nat)

  /** A capture handle: its id (the attempt that constructed it), what it
      was constructed for, and whether it opened. */
  datatype Handle = Handle(id: nat, source: Candidate, isOpen: bool)

  /** A call on the capture driver. */
  datatype Event =
    | Open(id: nat, source: Candidate, isOpen: bool)
    | Read(id: nat, ok: bool)
    | Release(id: nat)

  datatype Device = Device(opens: (nat, Candidate) -> bool, probes: (nat, Candidate) -> bool)

  /** First phase: index 0 through each backend, in order. */
  const BackendCandidates: seq<Candidate> :=
    [Candidate(DShow, 0), Candidate(Msmf, 0), Candidate(AutoDetect, 0)]

  /** Second phase: indices 0, 1 and 2 through the default backend. */
  const IndexCandidates: seq<Candidate> :=
    [Candidate(AutoDetect, 0), Candidate(AutoDetect, 1), Candidate(AutoDetect, 2)]

  /** Every candidate of the start-up search, in the order it is tried. */
  const Plan: seq<Candidate> := BackendCandidates + IndexCandidates

  /** What the main loop reopens after a failed read. */
  const ReconnectCandidate: Candidate := Candidate(DShow, 0)

  /** Attempt `k` of the plan opens and yields a probe frame. */
  predicate Works(dev: Device, k: int)
    requires 0 <= k < |Plan|
  {
    dev.opens(k, Plan[k]) && dev.probes(k, Plan[k])
  }

  /** The first attempt at or after `from` that works. */
  function FirstWorking(dev: Device, from: nat): (r: Option<nat>)
    requires from <= |Plan|
    ensures r.Some? ==> from <= r.value < |Plan| && Works(dev, r.value)
    ensures r.Some? ==> forall j :: from <= j < r.value ==> !Works(dev, j)
    ensures r.None? ==> forall j :: from <= j < |Plan| ==> !Works(dev, j)
    decreases |Plan| - from
  {
    if from == |Plan| then None
    else if Works(dev, from) then Some(from)
    else FirstWorking(dev, from + 1)
  }

  /** The attempt the start-up search settles on, if any. */
  function Selection(dev: Device): Option<nat>
  {
    FirstWorking(dev, 0)
  }

  /** How many handles the start-up search constructs. */
  function Attempts(dev: Device): (n: nat)
    ensures n <= |Plan|
  {
    match Selection(dev)
    case Some(k) => k + 1
    case None => |Plan|
  }

  /** The driver calls of attempt `k`.  A handle that fails in the backend
      phase is always released; in the index phase only a handle that
      opened but gave no frame is released. */
  function AttemptEvents(dev: Device, k: int): seq<Event>
    requires 0 <= k < |Plan|
  {
    var c := Plan[k];
    if dev.opens(k, c) then
      if dev.probes(k, c) then [Open(k, c, true), Read(k, true)]
      else [Open(k, c, true), Read(k, false), Release(k)]
    else if k < |BackendCandidates| then [Open(k, c, false), Release(k)]
    else [Open(k, c, false)]
  }

  /** The driver calls of the first `n` attempts. */
  function TraceUpTo(dev: Device, n: nat): seq<Event>
    requires n <= |Plan|
  {
    if n == 0 then [] else TraceUpTo(dev, n - 1) + AttemptEvents(dev, n - 1)
  }

  /** The driver calls of the whole start-up search. */
  function SelectionTrace(dev: Device): seq<Event>
  {
    TraceUpTo(dev, Attempts(dev))
  }

  /** The handle `cap` holds once the search is over: the working one,
      else the last index-phase handle if it never opened (the source
      does not clear it), else none. */
  function SelectedCap(dev: Device): Option<Handle>
  {
    match Selection(dev)
    case Some(k) => Some(Handle(k, Plan[k], true))
    case None =>
      var last := |Plan| - 1;
      if dev.opens(last, Plan[last]) then None else Some(Handle(last, Plan[last], false))
  }

  function OpenedSources(events: seq<Event>): seq<Candidate>
  {
    if events == [] then []
    else (if events[0].Open? then [events[0].source] else []) + OpenedSources(events[1..])
  }

  function ReleasedIds(events: seq<Event>): set<nat>
  {
    set e | e in events && e.Release? :: e.id
  }

  /** The capture handle held in `cap` and the record of driver calls. */
  class Camera {
    var cap: Option<Handle>
    var nextId: nat
    var events: seq<Event>

    constructor ()
      ensures cap == None && nextId == 0 && events == []
    {
      cap, nextId, events := None, 0, [];
    }

    /** `cap = cv2.VideoCapture(...)`: a new handle that opens or not. */
    method OpenHandle(c: Candidate, isOpen: bool)
      modifies this
      ensures cap == Some(Handle(old(nextId), c, isOpen)) && nextId == old(nextId) + 1
      ensures events == old(events) + [Open(old(nextId), c, isOpen)]
    {
      cap := Some(Handle(nextId, c, isOpen));
      events := events + [Open(nextId, c, isOpen)];
      nextId := nextId + 1;
    }

    /** `cap.read()`, whose outcome the driver decides. */
    method ReadFrame(ok: bool)
      requires cap.Some?
      modifies this
      ensures cap == old(cap) && nextId == old(nextId)
      ensures events == old(events) + [Read(cap.value.id, ok)]
    {
      events := events + [Read(cap.value.id, ok)];
    }

    /** `cap.release()`. */
    method ReleaseHandle()
      requires cap.Some?
      modifies this
      ensures cap == old(cap) && nextId == old(nextId)
      ensures events == old(events) + [Release(cap.value.id)]
    {
      events := events + [Release(cap.value.id)];
    }

    /** One pass of the backend loop: open, probe, and on any failure
        release the handle and clear `cap`. */
    method TryBackend(dev: Device) returns (found: bool)
      requires nextId < |BackendCandidates|
      modifies this
      ensures nextId == old(nextId) + 1
      ensures found == Works(dev, old(nextId))
      ensures events == old(events) + AttemptEvents(dev, old(nextId))
      ensures cap == if found then Some(Handle(old(nextId), Plan[old(nextId)], true)) else None
    {
      var c := BackendCandidates[nextId];
      assert Plan[nextId] == c;
      OpenHandle(c, dev.opens(nextId, c));
      if cap.value.isOpen {
        var frameOk := dev.probes(nextId - 1, c);
        ReadFrame(frameOk);
        if frameOk {
          return true;
        }
        ReleaseHandle();
        cap := None;
      } else {
        ReleaseHandle();
        cap := None;
      }
      found := false;
    }

    /** One pass of the index loop: open, probe, and release the handle
        only when it opened but gave no frame. */
    method TryIndex(dev: Device) returns (found: bool)
      requires |BackendCandidates| <= nextId < |Plan|
      modifies this
      ensures nextId == old(nextId) + 1
      ensures found == Works(dev, old(nextId))
      ensures events == old(events) + AttemptEvents(dev, old(nextId))
      ensures cap == if found then Some(Handle(old(nextId), Plan[old(nextId)], true)) else SelectedAfter(dev, old(nextId))
    {
      var c := IndexCandidates[nextId - |BackendCandidates|];
      assert Plan[nextId] == c;
      OpenHandle(c, dev.opens(nextId, c));
      if cap.value.isOpen {
        var frameOk := dev.probes(nextId - 1, c);
        ReadFrame(frameOk);
        if frameOk {
          return true;
        }
        ReleaseHandle();
        cap := None;
      }
      found := false;
    }

    /** The start-up search: each backend at index 0, then, if none gave a
        frame, indices 0 to 2 on the default backend.  `ok` says whether
        the program goes on to its main loop. */
    method SelectCamera(dev: Device) returns (ok: bool)
      requires nextId == 0
      modifies this
      ensures ok <==> Selection(dev).Some?
      ensures cap == SelectedCap(dev)
      ensures nextId == Attempts(dev)
      ensures events == old(events) + SelectionTrace(dev)
    {
      cap := None;
      var found := TryBackends(dev, events);
      if !found {
        found := TryIndices(dev, old(events));
      }
      if found {
        SelectionIs(dev, nextId - 1);
      } else {
        SelectionNone(dev);
      }
      ok := cap != None && cap.value.isOpen;
    }

    /** The backend loop, stopping at the first handle that gives a frame. */
    method TryBackends(dev: Device, ghost before: seq<Event>) returns (found: bool)
      requires nextId == 0 && cap == None && events == before
      modifies this
      ensures nextId <= |BackendCandidates| && events == before + TraceUpTo(dev, nextId)
      ensures found ==> 0 < nextId <= |BackendCandidates| && Works(dev, nextId - 1) && NoneWorkBefore(dev, nextId - 1)
      ensures found ==> cap == Some(Handle(nextId - 1, Plan[nextId - 1], true))
      ensures !found ==> nextId == |BackendCandidates| && cap == None && NoneWorkBefore(dev, nextId)
    {
      found := false;
      while nextId < |BackendCandidates|
        invariant nextId <= |BackendCandidates|
        invariant events == before + TraceUpTo(dev, nextId)
        invariant NoneWorkBefore(dev, nextId)
        invariant cap == None
      {
        found := TryBackend(dev);
        if found {
          return;
        }
      }
    }

    /** The index loop, stopping at the first handle that gives a frame. */
    method TryIndices(dev: Device, ghost before: seq<Event>) returns (found: bool)
      requires nextId == |BackendCandidates| && cap == None
      requires events == before + TraceUpTo(dev, nextId) && NoneWorkBefore(dev, nextId)
      modifies this
      ensures nextId <= |Plan| && events == before + TraceUpTo(dev, nextId)
      ensures found ==> |BackendCandidates| < nextId <= |Plan| && Works(dev, nextId - 1) && NoneWorkBefore(dev, nextId - 1)
      ensures found ==> cap == Some(Handle(nextId - 1, Plan[nextId - 1], true))
      ensures !found ==> nextId == |Plan| && cap == SelectedAfter(dev, |Plan| - 1) && NoneWorkBefore(dev, nextId)
    {
      found := false;
      while nextId < |Plan|
        invariant |BackendCandidates| <= nextId <= |Plan|
        invariant events == before + TraceUpTo(dev, nextId)
        invariant NoneWorkBefore(dev, nextId)
        invariant nextId == |BackendCandidates| ==> cap == None
        invariant nextId > |BackendCandidates| ==> cap == SelectedAfter(dev, nextId - 1)
      {
        found := TryIndex(dev);
        if found {
          return;
        }
      }
    }
  }

  /** None of the first `n` attempts works. */
  ghost predicate NoneWorkBefore(dev: Device, n: nat)
    requires n <= |Plan|
  {
    forall j :: 0 <= j < n ==> !Works(dev, j)
  }

  lemma {:induction false} SelectionFrom(dev: Device, from: nat, k: nat)
    requires from <= k < |Plan| && Works(dev, k)
    requires forall j :: from <= j < k ==> !Works(dev, j)
    ensures FirstWorking(dev, from) == Some(k)
    decreases k - from
  {
    if from < k {
      SelectionFrom(dev, from + 1, k);
    }
  }

  lemma SelectionIs(dev: Device, k: nat)
    requires k < |Plan| && Works(dev, k) && NoneWorkBefore(dev, k)
    ensures Selection(dev) == Some(k) && Attempts(dev) == k + 1
    ensures SelectedCap(dev) == Some(Handle(k, Plan[k], true))
    ensures SelectionTrace(dev) == TraceUpTo(dev, k + 1)
  {
    SelectionFrom(dev, 0, k);
  }

  lemma SelectionNone(dev: Device)
    requires NoneWorkBefore(dev, |Plan|)
    ensures Selection(dev) == None && Attempts(dev) == |Plan|
    ensures SelectedCap(dev) == SelectedAfter(dev, |Plan| - 1)
    ensures SelectionTrace(dev) == TraceUpTo(dev, |Plan|)
  {
  }

  /** What `cap` holds after a failing index-phase attempt `k`. */
  function SelectedAfter(dev: Device, k: int): Option<Handle>
    requires 0 <= k < |Plan|
  {
    if dev.opens(k, Plan[k]) then None else Some(Handle(k, Plan[k], false))
  }

  // ---------------------------------------------------------------------
  // Properties of the start-up search

  /** The index phase is reached only when every backend failed. */
  lemma IndexPhaseOnlyAfterBackendsFail(dev: Device)
    ensures Attempts(dev) > |BackendCandidates| ==> forall b :: 0 <= b < |BackendCandidates| ==> !Works(dev, b)
    ensures Selection(dev).None? ==> Attempts(dev) == |Plan|
  {
  }

  lemma {:induction false} OpenedSourcesAppend(a: seq<Event>, b: seq<Event>)
    ensures OpenedSources(a + b) == OpenedSources(a) + OpenedSources(b)
  {
    if a == [] {
      assert a + b == b;
    } else {
      assert (a + b)[1..] == a[1..] + b;
      OpenedSourcesAppend(a[1..], b);
    }
  }

  lemma AttemptOpensOnce(dev: Device, k: int)
    requires 0 <= k < |Plan|
    ensures OpenedSources(AttemptEvents(dev, k)) == [Plan[k]]
  {
    var a := AttemptEvents(dev, k);
    assert OpenedSources(a[|a|..]) == [];
    if |a| > 2 {
      assert OpenedSources(a[2..]) == OpenedSources(a[3..]);
    }
    if |a| > 1 {
      assert OpenedSources(a[1..]) == OpenedSources(a[2..]);
    }
  }

  /** The search constructs one handle per candidate, in the order of the
      plan: backends DirectShow, Media Foundation, auto-detect at index 0,
      then indices 0, 1, 2. */
  lemma {:induction false} TriesInPlanOrder(dev: Device, n: nat)
    requires n <= |Plan|
    ensures OpenedSources(TraceUpTo(dev, n)) == Plan[..n]
  {
    if n > 0 {
      TriesInPlanOrder(dev, n - 1);
      OpenedSourcesAppend(TraceUpTo(dev, n - 1), AttemptEvents(dev, n - 1));
      AttemptOpensOnce(dev, n - 1);
      assert Plan[..n] == Plan[..n - 1] + [Plan[n - 1]];
    }
  }

  /** No attempt's calls end with a failed read. */
  lemma {:induction false} TraceEndsSettled(dev: Device, n: nat)
    requires n <= |Plan|
    ensures TraceUpTo(dev, n) != [] ==> !(TraceUpTo(dev, n)[|TraceUpTo(dev, n)| - 1].Read? && !TraceUpTo(dev, n)[|TraceUpTo(dev, n)| - 1].ok)
  {
    if n > 0 {
      var t := TraceUpTo(dev, n);
      var a := AttemptEvents(dev, n - 1);
      assert t[|t| - 1] == a[|a| - 1];
    }
  }

  /** Every failed read in `t` is followed at once by the release of its handle. */
  ghost predicate ReleasedAfterFailedRead(t: seq<Event>)
  {
    forall i :: 0 <= i < |t| && t[i].Read? && !t[i].ok ==> i + 1 < |t| && t[i + 1] == Release(t[i].id)
  }

  lemma ReleasedAfterFailedReadAppend(p: seq<Event>, a: seq<Event>)
    requires ReleasedAfterFailedRead(p) && ReleasedAfterFailedRead(a)
    requires p != [] ==> !(p[|p| - 1].Read? && !p[|p| - 1].ok)
    ensures ReleasedAfterFailedRead(p + a)
  {
    var t := p + a;
    forall i | 0 <= i < |t| && t[i].Read? && !t[i].ok
      ensures i + 1 < |t| && t[i + 1] == Release(t[i].id)
    {
      if i < |p| {
        assert t[i] == p[i];
        assert t[i + 1] == p[i + 1];
      } else {
        assert t[i] == a[i - |p|];
        assert t[i + 1] == a[i - |p| + 1];
      }
    }
  }

  /** A handle whose probe read failed is released by the very next call,
      before any other candidate is tried. */
  lemma {:induction false} FailedProbeReleasedNext(dev: Device, n: nat)
    requires n <= |Plan|
    ensures ReleasedAfterFailedRead(TraceUpTo(dev, n))
  {
    if n > 0 {
      FailedProbeReleasedNext(dev, n - 1);
      TraceEndsSettled(dev, n - 1);
      var a := AttemptEvents(dev, n - 1);
      assert ReleasedAfterFailedRead(a);
      ReleasedAfterFailedReadAppend(TraceUpTo(dev, n - 1), a);
    }
  }

  lemma ReleasedIdsAppend(a: seq<Event>, b: seq<Event>)
    ensures ReleasedIds(a + b) == ReleasedIds(a) + ReleasedIds(b)
  {
    assert forall e :: e in a + b <==> e in a || e in b;
  }

  /** A failed attempt is released whenever it opened (its probe failed);
      one that never opened is released only in the backend phase. */
  lemma {:induction false} ReleasedAttempts(dev: Device, n: nat)
    requires n <= |Plan|
    ensures ReleasedIds(TraceUpTo(dev, n))
         == set k | 0 <= k < n && !Works(dev, k) && (k < |BackendCandidates| || dev.opens(k, Plan[k]))
  {
    if n > 0 {
      ReleasedAttempts(dev, n - 1);
      var a := AttemptEvents(dev, n - 1);
      ReleasedIdsAppend(TraceUpTo(dev, n - 1), a);
      var k := n - 1;
      if !Works(dev, k) && (k < |BackendCandidates| || dev.opens(k, Plan[k])) {
        assert Release(k) in a;
        assert ReleasedIds(a) == {k};
      } else {
        assert ReleasedIds(a) == {};
      }
    }
  }
}
