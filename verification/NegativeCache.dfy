/** When a race without an answer may be remembered as a miss
    (internal/service/service.go, shouldCacheNegativeResult). */
module NegativeCache {
  datatype Label = OK | BAD | RTO | CANCEL | WAIT | SKIP

  /** One source's entry in the status map of a race. */
  datatype Outcome = Outcome(word: Label, degraded: bool)

  predicate Blocks(o: Outcome) { o.degraded || o.word in {RTO, CANCEL, WAIT} }

  /** Somebody missed, and nobody has an excuse. */
  ghost predicate Cacheable<K(!new)>(status: map<K, Outcome>) {
    && (exists k :: k in status && status[k].word == BAD)
    && forall k | k in status :: !Blocks(status[k])
  }

  method ShouldCacheNegative<K(==, !new)>(status: map<K, Outcome>) returns (cache: bool)
    ensures cache <==> Cacheable(status)
  {
    if |status| == 0 {
      return false;
    }
    var sawMiss := false;
    var rest := status.Keys;
    while rest != {}
      invariant rest <= status.Keys
      invariant forall k | k in status && k !in rest :: !Blocks(status[k])
      invariant sawMiss <==> exists k :: k in status && k !in rest && status[k].word == BAD
      decreases |rest|
    {
      var k :| k in rest;
      rest := rest - {k};
      if status[k].degraded {
        return false;
      }
      match status[k].word {
        case BAD => sawMiss := true;
        case RTO => return false;
        case CANCEL => return false;
        case WAIT => return false;
        case _ =>
      }
    }
    return sawMiss;
  }
}
