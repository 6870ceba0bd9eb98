/** Sums of a per-request quantity over everything the scheduler holds, and how each
    operation changes them.  Used for completion counts, token conservation and the
    termination measure. */
module Totals {
  import opened Protocol
  import opened KVCache
  import opened Scheduling
  import opened Engine

  type Weight = RequestState -> int

  ghost function SumStates(f: Weight, states: seq<RequestState>): int {
    if states == [] then 0 else f(states[0]) + SumStates(f, states[1..])
  }

  ghost function SumRunning(f: Weight, order: seq<RequestId>, running: map<RequestId, RequestState>): int
    requires forall id <- order :: id in running
  {
    if order == [] then 0 else f(running[order[0]]) + SumRunning(f, order[1..], running)
  }

  ghost function Total(f: Weight, s: Sched): int
    requires IdsOk(s)
  {
    SumStates(f, s.waiting) + SumRunning(f, s.order, s.running)
  }

  lemma {:induction false} SumAppend(f: Weight, states: seq<RequestState>, more: seq<RequestState>)
    ensures SumStates(f, states + more) == SumStates(f, states) + SumStates(f, more)
  {
    if states == [] {
      assert states + more == more;
    } else {
      assert (states + more)[1..] == states[1..] + more;
      SumAppend(f, states[1..], more);
    }
  }

  lemma {:induction false} SumRunningAppend(f: Weight, order: seq<RequestId>, running: map<RequestId, RequestState>,
                                            id: RequestId, r: RequestState)
    requires (forall a <- order :: a in running) && id !in order
    ensures SumRunning(f, order + [id], running[id := r]) == SumRunning(f, order, running) + f(r)
  {
    if order == [] {
      assert order + [id] == [id];
    } else {
      assert (order + [id])[1..] == order[1..] + [id];
      SumRunningAppend(f, order[1..], running, id, r);
    }
  }

  /** The sum only looks at the listed requests. */
  lemma {:induction false} SumRunningSame(f: Weight, order: seq<RequestId>, running: map<RequestId, RequestState>,
                                          running': map<RequestId, RequestState>)
    requires forall a <- order :: a in running && a in running' && running'[a] == running[a]
    ensures SumRunning(f, order, running') == SumRunning(f, order, running)
  {
    if order != [] { SumRunningSame(f, order[1..], running, running'); }
  }

  lemma {:induction false} SumRunningUpdate(f: Weight, order: seq<RequestId>, running: map<RequestId, RequestState>,
                                            id: RequestId, r: RequestState)
    requires (forall a <- order :: a in running) && Distinct(order) && id in order
    ensures SumRunning(f, order, running[id := r]) == SumRunning(f, order, running) - f(running[id]) + f(r)
  {
    if order[0] == id {
      SumRunningSame(f, order[1..], running, running[id := r]);
    } else {
      assert order == [order[0]] + order[1..];
      SumRunningUpdate(f, order[1..], running, id, r);
    }
  }

  lemma {:induction false} SumRunningWithout(f: Weight, order: seq<RequestId>, running: map<RequestId, RequestState>,
                                             id: RequestId)
    requires (forall a <- order :: a in running) && Distinct(order) && id in order
    ensures forall a <- Without(order, id) :: a in running - {id}
    ensures SumRunning(f, Without(order, id), running - {id}) == SumRunning(f, order, running) - f(running[id])
  {
    WithoutDistinct(order, id);
    if order[0] == id {
      SumRunningSame(f, order[1..], running, running - {id});
    } else {
      assert order == [order[0]] + order[1..];
      WithoutDistinct(order[1..], id);
      SumRunningWithout(f, order[1..], running, id);
      var rest := Without(order[1..], id);
      assert Without(order, id)[1..] == rest;
    }
  }

  // ------------------------------------------------------- scheduler operations

  lemma TotalAdd(cfg: Config, f: Weight, s: Sched, req: EngineRequest)
    requires IdsOk(s) && AddRequest(cfg, s, req).Some?
    ensures IdsOk(AddRequest(cfg, s, req).value)
    ensures Total(f, AddRequest(cfg, s, req).value) == Total(f, s) + f(RequestState(req, [], 0))
  {
    hide ContextLimit;
    SumAppend(f, s.waiting, [RequestState(req, [], 0)]);
  }

  lemma TotalAdmitOne(cfg: Config, f: Weight, s: Sched)
    requires IdsOk(s) && s.waiting != []
    ensures IdsOk(AdmitOne(cfg, s)) && Total(f, AdmitOne(cfg, s)) == Total(f, s)
  {
    hide CanReserve, Create, Release;
    var r := s.waiting[0];
    AdmitOneIds(cfg, s);
    SumAppend(f, s.waiting[1..], [r]);
    assert s.waiting[0] in s.waiting;
    SumRunningAppend(f, s.order, s.running, r.req.id, r);
  }

  lemma {:induction false} TotalAdmit(cfg: Config, f: Weight, s: Sched, attempts: nat)
    requires IdsOk(s)
    ensures IdsOk(AdmitFrom(cfg, s, attempts)) && Total(f, AdmitFrom(cfg, s, attempts)) == Total(f, s)
    decreases attempts
  {
    hide IdsOk, AdmitOne, Total;
    if !(s.waiting == [] || |s.order| >= cfg.maxNumSeqs || attempts == 0) {
      TotalAdmitOne(cfg, f, s);
      TotalAdmit(cfg, f, AdmitOne(cfg, s), attempts - 1);
    }
  }

  lemma TotalSchedule(cfg: Config, f: Weight, s: Sched)
    requires SchedInv(cfg, s, [])
    ensures IdsOk(s) && IdsOk(Schedule(cfg, s).0) && Total(f, Schedule(cfg, s).0) == Total(f, s)
  {
    hide SchedInv, AdmitFrom, PlanFrom;
    SchedInvIds(cfg, s, []);
    ScheduleInv(cfg, s);
    SchedInvIds(cfg, Schedule(cfg, s).0, Schedule(cfg, s).1.items);
    TotalAdmit(cfg, f, s, |s.waiting|);
  }

  lemma TotalUpdate(f: Weight, s: Sched, id: RequestId, r: RequestState)
    requires IdsOk(s) && id in s.running && r.req.id == id
    ensures IdsOk(s.(running := s.running[id := r]))
    ensures Total(f, s.(running := s.running[id := r])) == Total(f, s) - f(s.running[id]) + f(r)
  {
    SumRunningUpdate(f, s.order, s.running, id, r);
  }

  lemma TotalFinish(f: Weight, s: Sched, id: RequestId)
    requires IdsOk(s) && id in s.running
    ensures IdsOk(Finish(s, id)) && Total(f, Finish(s, id)) == Total(f, s) - f(s.running[id])
  {
    hide Without, Release;
    FinishKeepsIds(s, id);
    SumRunningWithout(f, s.order, s.running, id);
  }

  lemma TotalAbort(f: Weight, s: Sched, id: RequestId)
    requires IdsOk(s) && AbortRequest(s, id).Some?
    ensures IdsOk(AbortRequest(s, id).value)
    ensures Total(f, AbortRequest(s, id).value) + SumStates(f, Aborted(s, id)) == Total(f, s)
  {
    if id in s.running {
      TotalFinish(f, s, id);
      assert SumStates(f, [s.running[id]]) == f(s.running[id]);
    } else {
      var i := FindWaiting(s.waiting, id);
      DropWaiting(s, i);
      assert s.waiting == s.waiting[..i] + [s.waiting[i]] + s.waiting[i + 1..];
      SumAppend(f, s.waiting[..i], [s.waiting[i]]);
      SumAppend(f, s.waiting[..i] + [s.waiting[i]], s.waiting[i + 1..]);
      SumAppend(f, s.waiting[..i], s.waiting[i + 1..]);
    }
  }
}
