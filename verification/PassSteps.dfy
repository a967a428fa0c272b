/** What a pass may have learnt between two points of a handler. */
module PassSteps {
  import opened Wrappers
  import opened YamlTree
  import opened Protocol

  /** Between `p` and `q` the pass has only read. */
  predicate ReadOnly(p: Pass, q: Pass) {
    && q.active == p.active && q.rank == p.rank && q.lost == p.lost && q.stamp == p.stamp
    && q.flux.last == p.flux.last && q.work == p.work.(scaled := q.work.scaled)
    && (p.trouble ==> q.trouble) && (p.negative ==> q.negative)
    && (p.flux.released ==> q.flux.released)
  }

  predicate Faulty(p: Pass) { p.trouble || p.negative }

  lemma Failed(p: Pass, q: Pass)
    requires q == p.(trouble := true)
    ensures ReadOnly(p, q) && Faulty(q)
  {
  }

  lemma StillFaulty(p: Pass, q: Pass)
    requires ReadOnly(p, q)
    ensures Faulty(p) ==> Faulty(q)
  {
  }

  lemma NoteCallKeepsActive(cfg: Config, p: Pass, call: Call)
    ensures NoteCall(cfg, p, call).active == p.active
  {
  }

  /** From `p` to `q` the pass has only set replicas. */
  predicate ScalingOn(p: Pass, q: Pass) {
    q == p.(flux := p.flux.(holding := q.flux.holding), seen := p.seen.(down := q.seen.down),
            work := p.work.(scaled := q.work.scaled))
  }

  lemma StillScaled(p: Pass, q: Pass, workloads: seq<string>, count: nat)
    requires Scaled(p, workloads, count) && q.work.scaled == p.work.scaled
    ensures Scaled(q, workloads, count)
  {
  }

  /** What a handler's outcome says of the persisted request: called again at once, it has advanced; nothing
      more to do, it is over; called again after a while, after one of `waits`. */
  predicate Leads(out: Outcome, advanced: bool, over: bool, waits: set<nat>) {
    && out != Panic && (out == Requeue ==> advanced) && (out == Done ==> over) && (out.RequeueAfter? ==> out.seconds in waits)
  }

  lemma UnwritableIsUnreadable(cfg: Config, file: Yaml, version: string)
    requires Edit(cfg, file, version).Err?
    ensures !Readable(cfg, file)
  {
    if Readable(cfg, file) { ReadableIsWritable(file, cfg.Path(), version); }
  }
}
