/** What the executor makes of its callers' keys: a key that has started a process is answered from that process. */
module KeyedExecutor {
  /** One call; `reached` says whether it came as far as starting anything. */
  datatype Ask<K> = Ask(key: K, reached: bool)

  /** The keys under which a process was started, in order. */
  function Started<K(==)>(asks: seq<Ask<K>>): seq<K> {
    if asks == [] then []
    else
      var before, last := Started(asks[..|asks| - 1]), asks[|asks| - 1];
      if last.reached && last.key !in before then before + [last.key] else before
  }

  /** A key starts a process at most once, and exactly if some call under it came through. */
  lemma {:induction false} KeysStartOnce<K>(asks: seq<Ask<K>>)
    ensures forall p, q :: 0 <= p < q < |Started(asks)| ==> Started(asks)[p] != Started(asks)[q]
    ensures forall key :: key in Started(asks) <==> Ask(key, true) in asks
  {
    if asks != [] {
      var rest, last := asks[..|asks| - 1], asks[|asks| - 1];
      KeysStartOnce(rest);
      assert asks == rest + [last];
    }
  }
}
