/** The data side of the dispatcher pipeline: from the senders through the channel and the batches into the caches. */
module DispatcherStream {
  import opened CacheWriter
  import opened Dispatcher
  import opened DispatcherControl

  ghost predicate StreamOk(cfg: Config, s: State)
    requires cfg.batchSize >= 1
  {
    StreamInv(cfg.batchSize, |cfg.caches|, s.out)
  }

  /** A send finds the channel open and with room. */
  lemma TaskStream(cfg: Config, s: State, i: nat, choice: Choice)
    requires WellFormed(cfg) && ControlInv(cfg, s) && StreamOk(cfg, s) && TaskEnabled(cfg, s, i, choice)
    ensures StreamOk(cfg, NextTask(cfg, s, i, choice))
  {
    TaskMoves(cfg, s, i, choice);
    if s.pcs[i].Sending? {
      PendingKeepsOpen(cfg, s, i);
      hide StreamInv, ControlInv;
      SendStream(cfg.batchSize, |cfg.caches|, s.out, s.pcs[i].item);
    }
    hide NextTask, StreamInv, ControlInv;
  }

  /** Every step keeps the stream: written, pending and in the channel, one after the other, is what was sent. */
  lemma StreamStepKept(cfg: Config, s: State, step: Step)
    requires WellFormed(cfg) && ControlInv(cfg, s) && StreamOk(cfg, s) && Enabled(cfg, s, step)
    ensures StreamOk(cfg, Next(cfg, s, step))
  {
    hide StreamInv, ControlInv;
    match step
    case MainStep =>
      CloseStream(cfg.batchSize, |cfg.caches|, s.out);
    case TaskStep(i, choice) => TaskStream(cfg, s, i, choice);
    case Monitor(m) => StreamKept(cfg.batchSize, |cfg.caches|, s.out, m);
  }
}
