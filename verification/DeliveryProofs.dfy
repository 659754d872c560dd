/** No loss, over every run of the whole system. */
module DeliveryProofs {
  import opened Text
  import opened Subscriber
  import opened Outbox
  import opened Delivery
  import SubscriberProofs
  import Publisher

  /** No row goes away, and a row keeps its event and its bytes. */
  ghost predicate RowsKept(rows: Rows, rows': Rows) {
    forall id :: id in rows ==> id in rows' && rows'[id].eventId == rows[id].eventId && rows'[id].body == rows[id].body
  }

  lemma ApplyKeepsRows(rows: Rows, op: StoreOp)
    ensures RowsKept(rows, Apply(rows, op))
    ensures EventIdsUnique(rows) ==> EventIdsUnique(Apply(rows, op))
  {
    forall id | id in rows ensures Apply(rows, op)[id].eventId == rows[id].eventId && Apply(rows, op)[id].body == rows[id].body {}
  }

  /** A process whose record and history did not change stays fine. */
  lemma ProcUntouched(s: Sys, s': Sys, p: nat)
    requires ProcOk(s, p) && p in s.procs && p in s'.procs && s'.procs[p] == s.procs[p] && s'.wiring == s.wiring
    requires RowsKept(s.rows, s'.rows)
    requires forall t :: t in s.owner ==> t in s'.owner && s'.owner[t] == s.owner[t]
    requires forall t :: t in s.owner && s.owner[t] == p ==> (t in s'.routes <==> t in s.routes) && (t in s.routes ==> s'.routes[t] == s.routes[t])
    ensures ProcOk(s', p)
  {
    var q := s.procs[p];
    forall k | 0 <= k < |q.links| ensures LinkOk(s', q, k) {
      assert LinkOk(s, q, k);
      assert Tags(q)[k] == q.links[k].tag;
    }
  }

  /** Only rows and the clock differ, and no row lost its event, its bytes or its attempts. */
  lemma RowsOnly(s: Sys, s': Sys)
    requires Inv(s) && s' == s.(now := s'.now, rows := s'.rows) && RowsKept(s.rows, s'.rows) && EventIdsUnique(s'.rows)
    requires forall id :: id in s.rows ==> s.rows[id].attempts <= s'.rows[id].attempts
    requires forall id :: RowOk(s', id)
    ensures Inv(s')
  {
    forall p ensures ProcOk(s', p) {
      assert ProcOk(s, p);
      if p in s.procs { ProcUntouched(s, s', p); }
    }
    forall t ensures TagOk(s', t) { assert TagOk(s, t); }
    forall n ensures SubOk(s', n) { assert SubOk(s, n); }
  }

  lemma TickStep(s: Sys, step: Step)
    requires Inv(s) && step.Tick?
    ensures Inv(Next(s, step))
  {
    forall id ensures RowOk(Next(s, step), id) { assert RowOk(s, id); }
    RowsOnly(s, Next(s, step));
  }

  lemma ProduceStep(s: Sys, step: Step)
    requires Inv(s) && Enabled(s, step) && step.Produce?
    ensures Inv(Next(s, step))
  {
    forall id ensures RowOk(Next(s, step), id) { assert RowOk(s, id); }
    RowsOnly(s, Next(s, step));
  }

  lemma BindStep(s: Sys, step: Step)
    requires Inv(s) && Enabled(s, step) && step.Bind?
    ensures Inv(Next(s, step))
  {
    var s' := Next(s, step);
    NewSubOk(step.limit);
    forall p ensures ProcOk(s', p) {
      assert ProcOk(s, p);
      if p in s.procs { ProcUntouched(s, s', p); }
    }
    forall t ensures TagOk(s', t) { assert TagOk(s, t); }
    forall n ensures SubOk(s', n) { assert SubOk(s, n); }
    forall id ensures RowOk(s', id) { assert RowOk(s, id); }
  }

  /** Only one process differs. */
  lemma ProcOnly(s: Sys, s': Sys, p: nat)
    requires Inv(s) && p in s'.procs && s' == s.(procs := s.procs[p := s'.procs[p]]) && ProcOk(s', p)
    ensures Inv(s')
  {
    forall r ensures ProcOk(s', r) {
      assert ProcOk(s, r);
      if r in s.procs && r != p { ProcUntouched(s, s', r); }
    }
    forall t ensures TagOk(s', t) { assert TagOk(s, t); }
    forall n ensures SubOk(s', n) { assert SubOk(s, n); }
    forall id ensures RowOk(s', id) { assert RowOk(s, id); }
  }

  lemma SpawnStep(s: Sys, step: Step)
    requires Inv(s) && Enabled(s, step) && step.Spawn?
    ensures Inv(Next(s, step))
  {
    ProcOnly(s, Next(s, step), step.p);
  }

  /** A process that drops its pass still answers for what it sent. */
  lemma DropPass(s: Sys, s': Sys, p: nat)
    requires ProcOk(s, p) && p in s.procs && p in s'.procs
    requires s'.wiring == s.wiring && s'.rows == s.rows && s'.routes == s.routes && s'.owner == s.owner
    requires s'.procs[p] == s.procs[p].(alive := s'.procs[p].alive, todo := [], awaiting := None)
    ensures ProcOk(s', p)
  {
    var q, q' := s.procs[p], s'.procs[p];
    assert Tags(q') == Tags(q)[..|q.links|];
    forall k | 0 <= k < |q.links| ensures LinkOk(s', q', k) { assert LinkOk(s, q, k); }
  }

  lemma DropStep(s: Sys, step: Step)
    requires Inv(s) && Enabled(s, step) && (step.Abort? || step.Die?)
    ensures Inv(Next(s, step))
  {
    assert ProcOk(s, step.p);
    DropPass(s, Next(s, step), step.p);
    ProcOnly(s, Next(s, step), step.p);
  }

  lemma NewSubOk(limit: nat)
    ensures SubInv(NewSub(limit))
  {
    var s := NewSub(limit);
    forall t ensures CopyInv(s.queue, t) && VerdictOk(s, t) {}
    forall d ensures HandlerOk(s, d) {}
  }

  /** A lease numbers its attempts past every earlier one. */
  lemma LeaseIsFresh(s: Sys, step: Step)
    requires Inv(s) && Enabled(s, step) && step.LeaseBatch?
    ensures var tags := Next(s, step).procs[step.p].todo;
      forall i :: 0 <= i < |tags| ==> tags[i] !in s.owner && tags[i] !in s.routes
  {
    var tags := Next(s, step).procs[step.p].todo;
    forall i | 0 <= i < |tags| ensures tags[i] !in s.owner && tags[i] !in s.routes {
      assert TagOk(s, tags[i]);
    }
  }

  lemma DistinctAppend(a: seq<Tag>, b: seq<Tag>)
    requires Distinct(a) && Distinct(b) && forall i, j :: 0 <= i < |a| && 0 <= j < |b| ==> a[i] != b[j]
    ensures Distinct(a + b)
  {
  }

  /** Attaching a publisher publishes nothing and leaves the new one unused. */
  lemma WithPublisherOk(q: Proc, wiring: Wiring)
    requires Publisher.Inv(q.chan)
    ensures var q' := WithPublisher(q, wiring);
      && q' == q.(chan := q'.chan, publisher := q'.publisher) && Publisher.Inv(q'.chan) && q'.chan.pubs == q.chan.pubs
      && (wiring == PublisherPerPass ==> forall k :: 0 <= k < |q.chan.pubs| ==> q.chan.pubs[k].owner != q'.publisher)
  {
    Publisher.StepKeepsInv(q.chan, Publisher.Attach);
  }

  /** A process that leased more: its own attempts so far, then the new ones. */
  lemma LeaseOwn(s: Sys, s': Sys, p: nat, tags: seq<Tag>)
    requires ProcOk(s, p) && p in s.procs && p in s'.procs && s.procs[p].todo == [] && s.procs[p].awaiting.None?
    requires s'.procs[p] == WithPublisher(s.procs[p], s.wiring).(todo := tags)
    requires s'.wiring == s.wiring && s'.routes == s.routes && RowsKept(s.rows, s'.rows)
    requires forall i, j :: 0 <= i < j < |tags| ==> tags[i].row != tags[j].row
    requires forall i :: 0 <= i < |tags| ==> tags[i] !in s.owner && tags[i] !in s.routes && tags[i] in s'.owner && s'.owner[tags[i]] == p
    requires forall t :: t in s.owner ==> t in s'.owner && s'.owner[t] == s.owner[t]
    ensures ProcOk(s', p)
  {
    var q, q' := s.procs[p], s'.procs[p];
    WithPublisherOk(q, s.wiring);
    assert Tags(q') == Tags(q) + tags;
    DistinctAppend(Tags(q), tags);
    forall k | 0 <= k < |q.links| ensures LinkOk(s', q', k) { assert LinkOk(s, q, k); }
  }

  lemma LeaseProcs(s: Sys, step: Step, p: nat)
    requires Inv(s) && Enabled(s, step) && step.LeaseBatch?
    ensures ProcOk(Next(s, step), p)
  {
    var s' := Next(s, step);
    LeaseIsFresh(s, step);
    ApplyKeepsRows(s.rows, LeaseOp(s, step));
    assert ProcOk(s, p);
    if p in s.procs && p != step.p { ProcUntouched(s, s', p); }
    else if p in s.procs { LeaseOwn(s, s', p, s'.procs[p].todo); }
  }

  function LeaseOp(s: Sys, step: Step): StoreOp
    requires step.LeaseBatch? && step.p in s.procs
  {
    Lease(s.procs[step.p].workerId, (set i | i in step.picks), s.now, step.leaseMs, step.maxAttempts)
  }

  lemma LeaseStep(s: Sys, step: Step)
    requires Inv(s) && Enabled(s, step) && step.LeaseBatch?
    ensures Inv(Next(s, step))
  {
    var s' := Next(s, step);
    LeaseIsFresh(s, step);
    ApplyKeepsRows(s.rows, LeaseOp(s, step));
    forall p ensures ProcOk(s', p) { LeaseProcs(s, step, p); }
    forall t ensures TagOk(s', t) { assert TagOk(s, t); }
    forall n ensures SubOk(s', n) { assert SubOk(s, n); }
    forall id ensures RowOk(s', id) { assert RowOk(s, id); }
  }

  /** Under the shipped wiring every send is careful: this pass's publisher never had this event. */
  lemma PerPassIsCareful(s: Sys, step: Step)
    requires Inv(s) && s.wiring == PublisherPerPass
    ensures Careful(s, step)
  {
    if step.Send? && Enabled(s, step) {
      var q := s.procs[step.p];
      assert ProcOk(s, step.p) && PassOk(q) && Unsent(q)[0] == q.todo[0];
      forall k | 0 <= k < |q.chan.pubs| && q.chan.pubs[k].owner == q.publisher
        ensures q.chan.pubs[k].messageId != Publication(s, step.p).messageId
      {
        assert LinkOk(s, q, k) && q.links[k].tag.row != q.todo[0].row;
      }
    }
  }

  /** The first record moves from the unsent ones to the sent ones. */
  lemma SendOwn(s: Sys, s': Sys, p: nat)
    requires ProcOk(s, p) && Enabled(s, Send(p)) && Careful(s, Send(p)) && s' == Next(s, Send(p))
    ensures ProcOk(s', p)
  {
    var q, q' := s.procs[p], s'.procs[p];
    Publisher.StepKeepsInv(q.chan, Publication(s, p));
    assert Tags(q')[|q.links|] == q.todo[0] == Tags(q)[|q.links|];
    assert Tags(q') == Tags(q);
    forall k | 0 <= k < |q'.links| ensures LinkOk(s', q', k) { if k < |q.links| { assert LinkOk(s, q, k); } }
    if s.wiring == PublisherPerPass { SendPass(s, q, q'); }
  }

  lemma SendPass(s: Sys, q: Proc, q': Proc)
    requires |q.links| == |q.chan.pubs| && PassOk(q) && q.todo != [] && q.awaiting.None?
    requires q'.todo == q.todo && q'.awaiting.Some? && q'.publisher == q.publisher
    requires q'.links == q.links + [Link(q.todo[0], None)] && |q'.chan.pubs| == |q.chan.pubs| + 1
    requires forall k :: 0 <= k < |q.chan.pubs| ==> q'.chan.pubs[k] == q.chan.pubs[k]
    ensures PassOk(q')
  {
    var u, u' := Unsent(q), Unsent(q');
    assert u == q.todo && u' == q.todo[1..];
    forall k, i | 0 <= k < |q'.links| && 0 <= i < |u'| && q'.chan.pubs[k].owner == q'.publisher ensures q'.links[k].tag.row != u'[i].row {
      assert u'[i] == u[i + 1];
      if k == |q.links| { assert q'.links[k].tag == u[0]; } else { assert q'.links[k] == q.links[k]; }
    }
    forall i, j | 0 <= i < j < |u'| ensures u'[i].row != u'[j].row {
      assert u'[i] == u[i + 1] && u'[j] == u[j + 1];
    }
  }

  lemma SendStep(s: Sys, step: Step)
    requires Inv(s) && Enabled(s, step) && step.Send? && Careful(s, step)
    ensures Inv(Next(s, step))
  {
    assert ProcOk(s, step.p);
    SendOwn(s, Next(s, step), step.p);
    ProcOnly(s, Next(s, step), step.p);
  }

  /** A process with the same records and publications, whatever the broker made of them. */
  lemma ProcReshaped(s: Sys, s': Sys, p: nat)
    requires ProcOk(s, p) && p in s.procs && p in s'.procs && s'.wiring == s.wiring && s'.owner == s.owner
    requires s'.procs[p] == s.procs[p].(chan := s'.procs[p].chan, links := s'.procs[p].links)
    requires Publisher.Inv(s'.procs[p].chan) && |s'.procs[p].links| == |s.procs[p].links| == |s'.procs[p].chan.pubs|
    requires forall k :: 0 <= k < |s.procs[p].links| ==> s'.procs[p].links[k].tag == s.procs[p].links[k].tag
    requires forall k :: 0 <= k < |s.procs[p].links| ==> s'.procs[p].chan.pubs[k].owner == s.procs[p].chan.pubs[k].owner
    requires forall k :: 0 <= k < |s.procs[p].links| ==> LinkOk(s', s'.procs[p], k)
    requires forall i :: |s.procs[p].links| <= i < |Tags(s.procs[p])| ==> Tags(s.procs[p])[i] !in s'.routes
    ensures ProcOk(s', p)
  {
    assert Unsent(s'.procs[p]) == Unsent(s.procs[p]);
    assert Tags(s'.procs[p]) == Tags(s.procs[p]);
  }

  /** The broker decided on publication `k` of its own channel. */
  lemma RouteOwn(s: Sys, s': Sys, p: nat, k: nat)
    requires ProcOk(s, p) && Enabled(s, Route(p, k)) && s' == Next(s, Route(p, k))
    ensures ProcOk(s', p)
  {
    var q, q' := s.procs[p], s'.procs[p];
    assert Tags(q)[k] == q.links[k].tag;
    forall j | 0 <= j < |q.links| ensures LinkOk(s', q', j) {
      assert LinkOk(s, q, j) && Tags(q)[j] == q.links[j].tag;
    }
    forall i | |q.links| <= i < |Tags(q)| ensures Tags(q)[i] !in s'.routes {
      assert Tags(q)[i] != Tags(q)[k];
    }
    ProcReshaped(s, s', p);
  }

  lemma RouteProcs(s: Sys, step: Step, p: nat)
    requires Inv(s) && Enabled(s, step) && step.Route?
    ensures ProcOk(Next(s, step), p)
  {
    var q := s.procs[step.p];
    assert ProcOk(s, step.p) && Tags(q)[step.k] == q.links[step.k].tag;
    assert ProcOk(s, p);
    if p in s.procs && p != step.p { ProcUntouched(s, Next(s, step), p); }
    else if p in s.procs { RouteOwn(s, Next(s, step), p, step.k); }
  }

  lemma RouteSubs(s: Sys, step: Step, n: string)
    requires Inv(s) && Enabled(s, step) && step.Route?
    ensures SubOk(Next(s, step), n)
  {
    var q := s.procs[step.p];
    var tag := q.links[step.k].tag;
    assert ProcOk(s, step.p) && LinkOk(s, q, step.k) && SubOk(s, n);
    if n in s.subs {
      assert tag !in s.subs[n].queue.content;
      SubscriberProofs.AcceptKeeps(s.subs[n], tag, s.rows[tag.row].body);
    }
  }

  lemma RouteStep(s: Sys, step: Step)
    requires Inv(s) && Enabled(s, step) && step.Route?
    ensures Inv(Next(s, step))
  {
    var s' := Next(s, step);
    var q := s.procs[step.p];
    var tag := q.links[step.k].tag;
    assert ProcOk(s, step.p) && LinkOk(s, q, step.k) && Tags(q)[step.k] == tag && TagOk(s, tag);
    forall p ensures ProcOk(s', p) { RouteProcs(s, step, p); }
    forall n ensures SubOk(s', n) { RouteSubs(s, step, n); }
    forall t ensures TagOk(s', t) { assert TagOk(s, t); }
    forall id ensures RowOk(s', id) { assert RowOk(s, id); }
  }

  /** A broker event settles promises and marks returns; it renames and moves nothing. */
  lemma BrokerKeepsNames(q: Proc, e: Publisher.Event)
    requires BrokerMay(q, e)
    ensures var c := Publisher.Step(q.chan, e);
      && |c.pubs| == |q.chan.pubs|
      && (forall k :: 0 <= k < |c.pubs| ==> c.pubs[k].owner == q.chan.pubs[k].owner && c.pubs[k].messageId == q.chan.pubs[k].messageId)
  {
  }

  /** A promise resolves only for a publication the broker routed and, if nobody took it, returned. */
  lemma BrokerResolves(q: Proc, e: Publisher.Event, k: nat)
    requires BrokerMay(q, e) && k < |q.links| == |q.chan.pubs| && Publisher.Step(q.chan, e).pubs[k].settled == Some(Publisher.Resolved)
    ensures q.chan.pubs[k].settled == Some(Publisher.Resolved)
         || (q.links[k].audience.Some? && (q.links[k].audience.value == {} ==> q.chan.pubs[k].returned))
    ensures q.chan.pubs[k].returned ==> Publisher.Step(q.chan, e).pubs[k].returned
  {
  }

  lemma BrokerOwn(s: Sys, s': Sys, p: nat, e: Publisher.Event)
    requires ProcOk(s, p) && Enabled(s, Broker(p, e)) && s' == Next(s, Broker(p, e))
    ensures ProcOk(s', p)
  {
    var q := s.procs[p];
    Publisher.StepKeepsInv(q.chan, e);
    BrokerKeepsNames(q, e);
    forall k | 0 <= k < |q.links| ensures LinkOk(s', s'.procs[p], k) {
      assert LinkOk(s, q, k);
      if Publisher.Step(q.chan, e).pubs[k].settled == Some(Publisher.Resolved) { BrokerResolves(q, e, k); }
    }
    ProcReshaped(s, s', p);
  }

  lemma BrokerStep(s: Sys, step: Step)
    requires Inv(s) && Enabled(s, step) && step.Broker?
    ensures Inv(Next(s, step))
  {
    assert ProcOk(s, step.p);
    BrokerOwn(s, Next(s, step), step.p, step.event);
    ProcOnly(s, Next(s, step), step.p);
  }

  lemma DistinctRemove(a: seq<Tag>, i: nat)
    requires Distinct(a) && i < |a|
    ensures Distinct(a[..i] + a[i + 1..])
  {
  }

  /** A process that is done with the first record of its pass. */
  lemma MarkOwn(s: Sys, s': Sys, p: nat)
    requires ProcOk(s, p) && p in s.procs && p in s'.procs && s.procs[p].todo != []
    requires s'.procs[p] == s.procs[p].(todo := s.procs[p].todo[1..], awaiting := None)
    requires s'.wiring == s.wiring && s'.routes == s.routes && s'.owner == s.owner && RowsKept(s.rows, s'.rows)
    ensures ProcOk(s', p)
  {
    var q, q' := s.procs[p], s'.procs[p];
    if q.awaiting.Some? {
      assert Unsent(q') == Unsent(q);
      assert Tags(q') == Tags(q);
    } else {
      assert Unsent(q') == Unsent(q)[1..];
      assert Tags(q') == Tags(q)[..|q.links|] + Tags(q)[|q.links| + 1..];
      DistinctRemove(Tags(q), |q.links|);
    }
    forall k | 0 <= k < |q.links| ensures LinkOk(s', q', k) { assert LinkOk(s, q, k); }
  }

  lemma MarkProcs(s: Sys, step: Step, p: nat)
    requires Inv(s) && Enabled(s, step) && step.Mark? && RowsKept(s.rows, Next(s, step).rows)
    ensures ProcOk(Next(s, step), p)
  {
    var s' := Next(s, step);
    assert ProcOk(s, p);
    if p in s.procs && p != step.p { ProcUntouched(s, s', p); }
    else if p in s.procs { MarkOwn(s, s', p); }
  }

  /** The statement a process ends its first record with. */
  function MarkOp(s: Sys, step: Step): StoreOp
    requires step.Mark? && Enabled(s, step)
  {
    var q := s.procs[step.p];
    if Verdict(q).value == Publisher.Resolved then MarkPublished(q.todo[0].row, q.workerId, q.todo[0].attempt)
    else MarkFailed(q.todo[0].row, q.workerId, step.maxAttempts)
  }

  lemma MarkRows(s: Sys, step: Step, id: nat)
    requires Inv(s) && Enabled(s, step) && step.Mark?
    ensures RowOk(Next(s, step), id)
  {
    var q := s.procs[step.p];
    assert ProcOk(s, step.p) && RowOk(s, id);
    if q.awaiting.Some? { assert LinkOk(s, q, q.awaiting.value); }
  }

  lemma MarkStep(s: Sys, step: Step)
    requires Inv(s) && Enabled(s, step) && step.Mark?
    ensures Inv(Next(s, step))
  {
    var s' := Next(s, step);
    ApplyKeepsRows(s.rows, MarkOp(s, step));
    forall p ensures ProcOk(s', p) { MarkProcs(s, step, p); }
    forall t ensures TagOk(s', t) { assert TagOk(s, t); }
    forall n ensures SubOk(s', n) { assert SubOk(s, n); }
    forall id ensures RowOk(s', id) { MarkRows(s, step, id); }
  }

  /** Only a new copy changes what a queue ever held. */
  lemma ConsumeContent(sub: Sub, d: SubStep)
    requires SubEnabled(sub, d) && !d.Accept?
    ensures SubNext(sub, d).queue.content == sub.queue.content
  {
  }

  lemma NewSubState(s: Sys, s': Sys, name: string)
    requires Inv(s) && name in s.subs && name in s'.subs && SubInv(s'.subs[name])
    requires s' == s.(subs := s.subs[name := s'.subs[name]]) && s'.subs[name].queue.content == s.subs[name].queue.content
    ensures Inv(s')
  {
    forall p ensures ProcOk(s', p) { assert ProcOk(s, p); if p in s.procs { ProcUntouched(s, s', p); } }
    forall t ensures TagOk(s', t) { assert TagOk(s, t); }
    forall n ensures SubOk(s', n) { assert SubOk(s, n); }
    forall id ensures RowOk(s', id) { assert RowOk(s, id); }
  }

  lemma ConsumeStep(s: Sys, step: Step)
    requires Inv(s) && Enabled(s, step) && step.Consume?
    ensures Inv(Next(s, step))
  {
    assert SubOk(s, step.name);
    SubscriberProofs.StepKeepsSub(s.subs[step.name], step.step);
    ConsumeContent(s.subs[step.name], step.step);
    NewSubState(s, Next(s, step), step.name);
  }

  lemma StepKeeps(s: Sys, step: Step)
    requires Inv(s) && Enabled(s, step) && (s.wiring == PublisherPerPass || Careful(s, step))
    ensures Inv(Next(s, step)) && Next(s, step).wiring == s.wiring
  {
    match step
    case Tick(_) => TickStep(s, step);
    case Produce(_, _, _) => ProduceStep(s, step);
    case Bind(_, _) => BindStep(s, step);
    case Spawn(_, _) => SpawnStep(s, step);
    case LeaseBatch(_, _, _, _) => LeaseStep(s, step);
    case Send(_) =>
      if s.wiring == PublisherPerPass { PerPassIsCareful(s, step); }
      SendStep(s, step);
    case Route(_, _) => RouteStep(s, step);
    case Broker(_, _) => BrokerStep(s, step);
    case Mark(_, _) => MarkStep(s, step);
    case Consume(_, _) => ConsumeStep(s, step);
    case Abort(_) => DropStep(s, step);
    case Die(_) => DropStep(s, step);
  }

  lemma {:induction false} RunKeeps(s: Sys, steps: seq<Step>)
    requires Inv(s) && Legal(s, steps) && (s.wiring == PublisherPerPass || CarefulRun(s, steps))
    ensures Inv(Run(s, steps))
    decreases steps
  {
    if steps != [] {
      StepKeeps(s, steps[0]);
      RunKeeps(Next(s, steps[0]), steps[1..]);
    }
  }

  /** The copy is still somewhere the subscriber can get it, or its effect is committed. */
  ghost predicate Safe(sub: Sub, t: Tag, body: Body) {
    && t in sub.queue.content && sub.queue.content[t] == body
    && (t in sub.queue.ready || t in sub.queue.unacked || t in sub.queue.dead || (t in sub.queue.acked && body in sub.store.effects))
  }

  /** One place, one lease attempt of an existing row, that row's bytes. */
  ghost predicate Accounted(s: Sys, sub: Sub, t: Tag) {
    && Places(sub.queue, t) == 1
    && t.row in s.rows && t.attempt <= s.rows[t.row].attempts
    && Safe(sub, t, s.rows[t.row].body)
  }

  /** A row marked published was taken by a queue, and no queue that took it can lose it. */
  ghost predicate Delivered(s: Sys, id: nat) {
    id in s.rows && s.rows[id].publishedAs.Some? ==>
      var t := Tag(id, s.rows[id].publishedAs.value);
      && t in s.routes && s.routes[t] != {}
      && (forall name :: name in s.routes[t] ==> name in s.subs && Safe(s.subs[name], t, s.rows[id].body))
  }

  ghost predicate NothingLost(s: Sys) {
    && (forall id :: Delivered(s, id))
    && (forall name, t :: name in s.subs && t in s.subs[name].queue.content ==> Accounted(s, s.subs[name], t))
  }

  lemma CopyIsAccounted(s: Sys, name: string, t: Tag)
    requires Inv(s) && name in s.subs && t in s.subs[name].queue.content
    ensures Accounted(s, s.subs[name], t)
  {
    assert SubOk(s, name) && TagOk(s, t);
    assert CopyInv(s.subs[name].queue, t) && VerdictOk(s.subs[name], t);
    if t in s.subs[name].queue.acked { CommittedHasEffect(s.subs[name].store, s.subs[name].queue.content[t]); }
  }

  lemma InvLosesNothing(s: Sys)
    requires Inv(s)
    ensures NothingLost(s)
  {
    forall name, t | name in s.subs && t in s.subs[name].queue.content ensures Accounted(s, s.subs[name], t) {
      CopyIsAccounted(s, name, t);
    }
    forall id ensures Delivered(s, id) {
      assert RowOk(s, id);
      if id in s.rows && s.rows[id].publishedAs.Some? {
        assert TagOk(s, Tag(id, s.rows[id].publishedAs.value));
      }
    }
  }

  /**
   * End-to-end no loss, for the relay as it is wired. In every state that any interleaving
   * reaches, with stalled and dead workers, lost channels, timeouts, retries before a late
   * confirm, redeliveries and consumer crashes: a row marked published was taken by at
   * least one queue, and for every queue that took it the event is applied, or its copy is
   * ready, unacked or in the dead-letter queue. Each copy in a queue is in one place only,
   * and stems from one lease attempt, so a queue holds at most `attempts` copies of a row.
   */
  lemma NoLoss(steps: seq<Step>)
    requires Legal(Empty(PublisherPerPass), steps)
    ensures NothingLost(Run(Empty(PublisherPerPass), steps))
  {
    InitOk(PublisherPerPass);
    RunKeeps(Empty(PublisherPerPass), steps);
    InvLosesNothing(Run(Empty(PublisherPerPass), steps));
  }

  /** The same for a caller that keeps one publisher, as long as it never resends what it has not seen confirmed. */
  lemma NoLossWithOnePublisher(steps: seq<Step>)
    requires Legal(Empty(OnePublisher), steps) && CarefulRun(Empty(OnePublisher), steps)
    ensures NothingLost(Run(Empty(OnePublisher), steps))
  {
    InitOk(OnePublisher);
    RunKeeps(Empty(OnePublisher), steps);
    InvLosesNothing(Run(Empty(OnePublisher), steps));
  }

  lemma CommittedHasEffect(st: Store, body: Body)
    requires StoreInv(st) && Committed(st, body)
    ensures body in st.effects
  {
    assert st.inbox[body.eventId].of in st.effects;
  }

  lemma InitOk(wiring: Wiring)
    ensures Inv(Empty(wiring))
  {
    var s := Empty(wiring);
    forall p ensures ProcOk(s, p) {}
    forall t ensures TagOk(s, t) {}
    forall n ensures SubOk(s, n) {}
    forall id ensures RowOk(s, id) {}
  }
}
