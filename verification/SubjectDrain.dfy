/**
The drain as the source writes it: shared fields changed in place by handlers, and the worker's
own books. Every method is proved against the step of the same name.
*/
module SubjectDrain {
  import opened Basics
  import opened Drain

  class Drainer {
    var current: Option<nat>
    var queue: seq<Intent>
    var snapshots: map<Subject, Snapshot>
    var fences: map<Subject, Fence>
    var rebinds: set<Subject>
    var nextSession: nat
    var worker: Worker

    ghost function Handlers(): Shared
      reads this
    {
      Shared(current, queue, snapshots, fences, rebinds, nextSession)
    }

    ghost function View(): State
      reads this
    {
      State(Handlers(), worker)
    }

    constructor (published: map<Subject, Fence>)
      ensures View() == Init(published)
    {
      current, queue, snapshots, fences, rebinds, nextSession := None, [], map[], published, {}, 0;
      worker := Worker(None, map[], {}, {}, {}, map[], [], 0, 0, Idle, []);
    }

    /** Filter the queue in place. */
    method DropInstalls(t: Target)
      modifies this`queue
      ensures queue == Without(old(queue), t)
    {
      var kept := [];
      for i := 0 to |queue|
        invariant queue == old(queue) && kept + Without(queue[i..], t) == Without(queue, t)
      {
        if !(queue[i].job.Install? && queue[i].target == t) { kept := kept + [queue[i]]; }
        assert queue[i..][1..] == queue[i + 1..];
      }
      queue := kept;
    }

    method EnqueueInstall(next: Intent)
      modifies this`queue
      ensures queue == Enqueue(old(queue), next)
    {
      for i := 0 to |queue|
        invariant queue == old(queue) && forall j :: 0 <= j < i ==> !IsInstall(queue[j], next.target.subj)
      {
        if IsInstall(queue[i], next.target.subj) {
          if queue[i].target == next.target && queue[i].epoch == next.epoch {
            queue := queue[i := next];
            return;
          }
          DropInstalls(queue[i].target);
          queue := queue + [next];
          return;
        }
      }
      queue := queue + [next];
    }

    /** An intent for the zero fence, or one whose target cannot be encoded, is not recorded. */
    method RecordIntent(t: Target, op: Op, encodes: bool)
      modifies this
      ensures worker == old(worker)
      ensures Handlers() == if t.fence == Fence("", "") || !encodes then old(Handlers()) else Record(old(Handlers()), t, op)
    {
      if t.fence == Fence("", "") || !encodes { return; }
      if op == Unload {
        DropInstalls(t);
        if t.subj in fences && fences[t.subj] == t.fence {
          fences := fences - {t.subj};
          snapshots := snapshots - {t.subj};
        }
      } else {
        if t.subj in fences && fences[t.subj] != t.fence {
          DropInstalls(Target(t.subj, fences[t.subj]));
          snapshots := snapshots - {t.subj};
        }
        fences := fences[t.subj := t.fence];
      }
      queue := queue + [Intent(t, Lifecycle(op), current)];
    }

    /** `frozen` is the marshalled snapshot, or `None` when it could not be made or is too large. */
    method RecordSnapshot(t: Target, frozen: Option<Snapshot>)
      modifies this`queue, this`snapshots
      ensures Handlers() == if frozen.None? then old(Handlers()) else Retain(old(Handlers()), t, frozen.value)
    {
      if t.subj !in fences || fences[t.subj] != t.fence { return; }
      if t.subj !in snapshots && |snapshots| >= MAX_SUBJECTS { return; }
      if frozen.None? { return; }
      snapshots := snapshots[t.subj := frozen.value];
      EnqueueInstall(Intent(t, Install(frozen.value), current));
    }

    /** A new child replaces the queue by a replay of the registered subjects, in the sorted `order`. */
    method PublishChild(order: seq<Subject>)
      requires Enumerates(order, fences.Keys)
      modifies this
      ensures worker == old(worker) && Handlers() == Publish(old(Handlers()), order)
    {
      current, nextSession := Some(nextSession), nextSession + 1;
      ghost var h := Handlers();
      queue := [];
      for i := 0 to |order|
        invariant worker == old(worker) && Handlers() == h.(queue := Replay(h, order[..i]))
      {
        var s := order[i];
        assert order[..i + 1][..i] == order[..i];
        var t := Target(s, fences[s]);
        queue := queue + [Intent(t, Lifecycle(Register), current)];
        if s in snapshots { EnqueueInstall(Intent(t, Install(snapshots[s]), current)); }
      }
      assert order[..|order|] == order;
    }

    /** `session` names the client that asks; a client that was replaced is ignored. */
    method DetachChild(session: nat)
      modifies this`current, this`queue
      ensures Handlers() == Detach(old(Handlers()), session)
    {
      if current == Some(session) { current, queue := None, []; }
    }

    /** Does anything still reserve the subject's counter? Scans the queue for a Register. */
    method IsReserved(s: Subject) returns (reserved: bool)
      ensures reserved <==> Reserved(Handlers(), s)
    {
      reserved := s in fences || s in rebinds;
      for i := 0 to |queue|
        invariant reserved <==> Reserved(Handlers().(queue := queue[..i]), s)
      {
        if queue[i].target.subj == s && queue[i].job == Lifecycle(Register) && (queue[i].epoch.None? || queue[i].epoch == current) {
          reserved := true;
          break;
        }
      }
    }

    /** May the install be applied again? Not once it is stale or a successor is queued. */
    method IsRetryable(i: Intent) returns (retry: bool)
      requires !worker.busy.Idle?
      ensures retry <==> MayRetry(View(), i)
    {
      if current != Some(worker.busy.session) || !(i.target.subj in fences && fences[i.target.subj] == i.target.fence) { return false; }
      for k := 0 to |queue|
        invariant forall j :: 0 <= j < k ==> !(queue[j].job.Install? && queue[j].target == i.target && queue[j].epoch == i.epoch)
      {
        if queue[k].job.Install? && queue[k].target == i.target && queue[k].epoch == i.epoch { return false; }
      }
      return true;
    }

    /** One turn of the worker's loop up to the point where it leaves the lock. */
    method TakeNext()
      requires worker.busy.Idle?
      modifies this`queue, this`worker
      ensures View() == Take(old(View()))
    {
      if worker.owner != current {
        worker := worker.(owner := current, installers := map[], retired := {}, unsent := {}, dropped := {}, counters := map[], lastSeq := 0);
      }
      if current.None? || queue == [] { return; }
      var intent := queue[0];
      queue := queue[1..];
      var held := intent.target.subj in fences && fences[intent.target.subj] == intent.target.fence;
      var valid := (if intent.job == Lifecycle(Unload) then !held else held) && (intent.epoch.None? || intent.epoch == current);
      if !valid && intent.job != Lifecycle(Unload) { DropInstalls(intent.target); }
      if !valid { return; }
      if intent.job.Install? {
        if intent.target in worker.installers && intent.target !in worker.retired {
          worker := worker.(busy := Installing(intent, current.value, worker.nextTicket, Ready), nextTicket := worker.nextTicket + 1);
        } else {
          worker := worker.(dropped := worker.dropped + {(intent.target, intent.job.snap)});
        }
        return;
      }
      if intent.job.op == Unload {
        worker := worker.(installers := worker.installers - {intent.target}, retired := worker.retired - {intent.target});
      }
      worker := worker.(busy := Commanding(intent.job.op, intent.target, current.value, false));
    }

    /** What follows a lifecycle command's outcome; `built` is whether a new installer could be made. */
    method Conclude(ok: bool, built: bool)
      requires worker.busy.Commanding? && CountersInRange(worker)
      modifies this`queue, this`worker
      ensures View() == Concluded(old(View()), ok, built)
    {
      var t, op, live := worker.busy.target, worker.busy.op, current == Some(worker.busy.session);
      if live && op == Unload && ok {
        var reserved := IsReserved(t.subj);
        if !reserved { worker := worker.(counters := worker.counters - {t.subj}); }
      }
      if live && op == Register {
        if !ok {
          worker := worker.(dropped := worker.dropped + Drops(queue, t));
          DropInstalls(t);
          worker := worker.(installers := worker.installers - {t}, retired := worker.retired + {t});
        } else if t !in worker.installers {
          worker := WithCounter(worker, t.subj);
          if built {
            var cell := worker.counters[t.subj];
            worker := worker.(retired := worker.retired - {t},
                              installers := worker.installers[t := Installer(worker.cells[cell].value, 0, cell)]);
          } else {
            if t.subj in fences && fences[t.subj] == t.fence {
              worker := worker.(dropped := worker.dropped + Drops(queue, t));
              DropInstalls(t);
            }
            worker := worker.(retired := worker.retired + {t});
          }
        }
      }
      worker := worker.(busy := Idle);
    }

    /** Hand the taken command to the lifecycle client. */
    method SendCommand(expired: bool)
      requires worker.busy.Commanding? && CountersInRange(worker)
      modifies this`queue, this`worker
      ensures View() == Send(old(View()), expired)
    {
      hide Concluded;
      if expired || worker.lastSeq == MAX_INT64 {
        if worker.busy.op == Unload { worker := worker.(unsent := worker.unsent + {worker.busy.target}); }
        Conclude(false, false);
      } else {
        var command := Sent(worker.busy.session, worker.lastSeq + 1, worker.busy.op, worker.busy.target);
        if worker.busy.op == Unload { worker := worker.(unsent := worker.unsent - {worker.busy.target}); }
        worker := worker.(wire := worker.wire + [command], busy := worker.busy.(sent := true));
      }
    }

    /** A matching receipt arrives, from the send or from a later reconciliation. */
    method ReceiveAnswer(ok: bool, built: bool)
      requires worker.busy.Commanding? && CountersInRange(worker)
      modifies this`queue, this`worker
      ensures View() == Answer(old(View()), ok, built)
    {
      hide Concluded;
      var next := worker.lastSeq + 1;
      worker := worker.(wire := worker.wire + [Receipt(worker.busy.session, next, worker.busy.op, worker.busy.target, ok)], lastSeq := next);
      Conclude(ok, built);
    }

    /** Act on a confirmed outcome of an install. */
    method Settle(how: Settlement, value: int)
      requires worker.busy.Installing?
      modifies this`queue, this`worker
      ensures View() == Resolve(old(View()), how, value)
    {
      var t := worker.busy.intent.target;
      worker := worker.(wire := worker.wire + [Settled(worker.busy.session, t, worker.busy.ticket, value, how, SnapOf(worker.busy.intent))]);
      match how {
        case Committed => worker := worker.(busy := Idle);
        case Rejected => FailInstall();
        case Aborted => ContinueInstall();
      }
    }

    method FailInstall()
      requires worker.busy.Installing?
      modifies this`queue, this`worker
      ensures View() == Terminal(old(View()))
    {
      var t := worker.busy.intent.target;
      worker := worker.(dropped := worker.dropped + GivenUpSnaps(worker.busy.intent));
      if current == Some(worker.busy.session) {
        worker := worker.(dropped := worker.dropped + Drops(queue, t));
        DropInstalls(t);
      }
      worker := worker.(busy := Idle, installers := worker.installers - {t}, retired := worker.retired + {t});
    }

    method ContinueInstall()
      requires worker.busy.Installing?
      modifies this`worker
      ensures View() == AfterAbort(old(View()))
    {
      var retry := IsRetryable(worker.busy.intent);
      worker := worker.(busy := if retry then worker.busy.(phase := Again) else Idle);
    }

    /** One call of the coordinator's Apply through the offset transport. */
    method ApplyInstall(a: Attempt)
      requires InstallerInPlace(worker)
      modifies this`queue, this`worker
      ensures View() == Apply(old(View()), a)
    {
      var m := worker.installers[worker.busy.intent.target];
      if worker.busy.phase.Again? {
        var retry := IsRetryable(worker.busy.intent);
        if !retry { worker := worker.(busy := Idle); return; }
      }
      if a.Invalid? || m.local == MAX_INT64 { FailInstall(); return; }
      if a.NotSent? { ContinueInstall(); return; }
      if m.local + 1 > MAX_INT64 - m.base { FailInstall(); return; }
      worker := Prepared(worker);
      if a.Done? { Settle(a.how, ToWire(m.base, m.local + 1)); }
    }

    /** One reconciliation of the outstanding attempt. */
    method ReconcileInstall(how: Option<Settlement>)
      requires InstallerInPlace(worker)
      modifies this`queue, this`worker
      ensures View() == Reconcile(old(View()), how)
    {
      var m := worker.installers[worker.busy.intent.target];
      if how.Some? { Settle(how.value, ToWire(m.base, m.local)); }
    }
  }
}
