/** The records of every produce are its client's, through whole runs. */
module Requests {
  import opened WalFrame
  import opened Wal
  import opened Writer
  import opened ProducePayload
  import opened Partition
  import opened PartitionRuns

  /** What was sent for each produce is what its client asked for. */
  ghost predicate RequestsOk(sent: seq<seq<Record>>, requests: seq<Request>) {
    && |sent| == |requests|
    && forall i :: 0 <= i < |sent| ==> Carries(sent[i], requests[i].incoming, requests[i].clocks)
  }

  lemma StepKeepsRequests(f: Framing, c: World, e: Event)
    requires RequestsOk(c.hist.sent, c.trace.requests) && Enabled(f, c.sys, e)
    ensures RequestsOk(Next(f, c, e).hist.sent, Next(f, c, e).trace.requests)
  {
    if e.Produce? {
      StampedCarries(e.incoming, e.clocks, c.sys.process.writer.nextOffset);
    }
  }

  lemma {:induction false} RunKeepsRequests(f: Framing, care: Care, c: World, es: seq<Event>, d: World)
    requires RequestsOk(c.hist.sent, c.trace.requests) && Leads(f, care, c, es, d)
    ensures RequestsOk(d.hist.sent, d.trace.requests)
    decreases |es|
  {
    if es != [] {
      StepKeepsRequests(f, c, es[0]);
      RunKeepsRequests(f, care, Next(f, c, es[0]), es[1..], d);
    }
  }

  lemma ReachedRequests(f: Framing, care: Care, c: World)
    requires Reached(f, care, c)
    ensures RequestsOk(c.hist.sent, c.trace.requests)
  {
    var es :| Leads(f, care, Initial(), es, c);
    RunKeepsRequests(f, care, Initial(), es, c);
  }

  /** Record `k` of an acknowledged produce, as its client packed it. */
  ghost predicate IsClients(c: World, r: Record, id: nat, k: nat) {
    && id < |c.trace.requests|
    && var q := c.trace.requests[id];
       k < |q.incoming| == |q.clocks| && CarriesOne(r, q.incoming[k], q.clocks[k])
  }
}
