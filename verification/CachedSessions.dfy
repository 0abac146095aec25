/** What the caches hold for a session key, and when that is recent enough. */
module CachedSessions {
  import opened Wrappers

  datatype Session = Session(blockHeight: int, body: string)

  /** What a cache holds under a key, when it holds something: a session, or anything that does not decode to one. */
  datatype Entry = Garbage | Cached(session: Session)

  /** A reply of one cache; None is a miss or an error. */
  type Reply = Option<Entry>

  predicate IsFresh(reply: Reply, height: int) {
    reply.Some? && reply.value.Cached? && reply.value.session.blockHeight >= height
  }
}
