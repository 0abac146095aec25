/** Cache and deduplication keys: printers, and the parser of fishermen keys in the cherry picker. */
module Keys {
  import opened Wrappers
  import opened Text

  /** fishermen: "%s{%s}-%s-failure". */
  function NodeFailureKey(blockchain: string, commitHash: string, node: string): string {
    commitHash + "{" + blockchain + "}-" + node + "-failure"
  }

  /** cherry picker: (public key, chain) of a cache key; None is the out-of-range panic on a key without a dash. */
  function PublicKeyAndChain(key: string): (r: Option<(string, string)>)
    ensures r.Some? ==> Free('-', r.value.0) && Free('-', r.value.1) && Free('{', r.value.1) && Free('}', r.value.1)
  {
    var chainIdx := Index(key, '{');
    if chainIdx == |key| then Some(("", ""))
    else
      var split := Split(key[chainIdx..], '-');
      if |split| < 2 then None
      else
        SplitPartFree(key[chainIdx..], '-', 0);
        SplitPartFree(key[chainIdx..], '-', 1);
        RemoveAllKeepsFree(split[0], '{', '-');
        RemoveAllKeepsFree(RemoveAll(split[0], '{'), '}', '-');
        RemoveAllKeepsFree(RemoveAll(split[0], '{'), '}', '{');
        Some((split[1], RemoveAll(RemoveAll(split[0], '{'), '}')))
  }

  /** Key of the AppData map of one region. */
  function AppDataKey(publicKey: string, chain: string): string {
    publicKey + "-" + chain
  }

  /** Key of the shared map of sessions already seen in a run. */
  function SessionInStoreKey(publicKey: string, chain: string, sessionKey: string): string {
    publicKey + "-" + chain + "-" + sessionKey
  }

  /** gateway: "%s%s-%s-%s". */
  function SessionCacheKey(prefix: string, publicKey: string, chain: string, commitHash: string): string {
    commitHash + prefix + "-" + publicKey + "-" + chain
  }

  /**
   Parsing undoes printing exactly for dash-free nodes and dash- and brace-free chains, provided the commit hash
   holds no opening brace.
   */
  lemma NodeFailureKeyRoundTrip(blockchain: string, commitHash: string, node: string)
    requires Free('{', commitHash)
    ensures PublicKeyAndChain(NodeFailureKey(blockchain, commitHash, node)) == Some((node, blockchain))
       <==> Free('-', node) && Free('-', blockchain) && Free('{', blockchain) && Free('}', blockchain)
  {
    var key := NodeFailureKey(blockchain, commitHash, node);
    var chainPart := "{" + blockchain + "}";
    var tail := chainPart + "-" + node + "-failure";
    assert tail == ['{'] + tail[1..];
    assert key == commitHash + ['{'] + tail[1..];
    IndexAfterFree(commitHash, '{', tail[1..]);
    assert key[|commitHash|..] == tail;
    if Free('-', node) && Free('-', blockchain) && Free('{', blockchain) && Free('}', blockchain) {
      SplitTail(chainPart, node);
      StripBraces(blockchain);
    }
  }

  /** The printed key ends its last part in "failure", after the node. */
  lemma NodeFailureKeyParts(blockchain: string, commitHash: string, node: string)
    requires Free('-', commitHash) && Free('-', node) && Free('-', blockchain)
    ensures Split(NodeFailureKey(blockchain, commitHash, node), '-') ==
      [commitHash + "{" + blockchain + "}", node, "failure"]
  {
    var head := commitHash + "{" + blockchain + "}";
    assert NodeFailureKey(blockchain, commitHash, node) == head + "-" + node + "-failure";
    hide Split, NodeFailureKey;
    SplitTail(head, node);
  }

  /**
   A session cache key is commit hash and prefix, then public key, then chain: the last two parts of the key, whatever
   dashes commit hash and prefix hold.
   */
  lemma SessionCacheKeyParts(prefix: string, publicKey: string, chain: string, commitHash: string)
    requires Free('-', publicKey) && Free('-', chain)
    ensures Split(SessionCacheKey(prefix, publicKey, chain, commitHash), '-') ==
      Split(commitHash + prefix, '-') + [publicKey, chain]
  {
    var head, tail := commitHash + prefix, publicKey + ['-'] + chain;
    assert Split(chain, '-') == [chain];
    assert SessionCacheKey(prefix, publicKey, chain, commitHash) == head + ['-'] + tail;
    hide Split, SessionCacheKey;
    SplitAppend(head, '-', tail);
    SplitAfterFree(publicKey, '-', chain);
    assert [publicKey] + [chain] == [publicKey, chain];
  }

  /** Different pairs, or different hashes and prefixes together, never share a session cache key. */
  lemma SessionCacheKeyInjective(
    prefix1: string, pk1: string, chain1: string, commit1: string,
    prefix2: string, pk2: string, chain2: string, commit2: string)
    requires Free('-', pk1) && Free('-', chain1) && Free('-', pk2) && Free('-', chain2)
    requires SessionCacheKey(prefix1, pk1, chain1, commit1) == SessionCacheKey(prefix2, pk2, chain2, commit2)
    ensures pk1 == pk2 && chain1 == chain2 && commit1 + prefix1 == commit2 + prefix2
  {
    SessionCacheKeyParts(prefix1, pk1, chain1, commit1);
    SessionCacheKeyParts(prefix2, pk2, chain2, commit2);
    var a, b := Split(commit1 + prefix1, '-'), Split(commit2 + prefix2, '-');
    assert a + [pk1, chain1] == b + [pk2, chain2];
    LastTwo(a, pk1, chain1, b, pk2, chain2);
    JoinSplit(commit1 + prefix1, '-');
    JoinSplit(commit2 + prefix2, '-');
  }

  lemma LastTwo(a: seq<string>, x: string, y: string, b: seq<string>, u: string, v: string)
    requires a + [x, y] == b + [u, v]
    ensures a == b && x == u && y == v
  {
    var all := a + [x, y];
    assert |a| == |b|;
    assert all[|a|] == x && (b + [u, v])[|b|] == u;
    assert all[|a| + 1] == y && (b + [u, v])[|b| + 1] == v;
    assert a == all[..|a|] && b == (b + [u, v])[..|b|];
  }

  lemma SplitTail(chainPart: string, node: string)
    requires Free('-', chainPart) && Free('-', node)
    ensures Split(chainPart + "-" + node + "-failure", '-') == [chainPart, node, "failure"]
  {
    var failure := "failure";
    assert chainPart + "-" + node + "-failure" == chainPart + ['-'] + (node + ['-'] + failure);
    SplitThree(chainPart, node, failure, '-');
  }

  lemma SplitThree(a: string, b: string, c: string, sep: char)
    requires Free(sep, a) && Free(sep, b) && Free(sep, c)
    ensures Split(a + [sep] + (b + [sep] + c), sep) == [a, b, c]
  {
    SplitAfterFree(a, sep, b + [sep] + c);
    SplitAfterFree(b, sep, c);
    assert Split(c, sep) == [c];
  }

  lemma StripBraces(blockchain: string)
    requires Free('{', blockchain) && Free('}', blockchain)
    ensures RemoveAll(RemoveAll("{" + blockchain + "}", '{'), '}') == blockchain
  {
    assert "{" + blockchain + "}" == "{" + (blockchain + "}");
    RemoveAllAppend("{", blockchain + "}", '{');
    RemoveAllAppend(blockchain, "}", '}');
  }

  /** Distinct (public key, chain) pairs never share an AppData entry, because parsed public keys are dash-free. */
  lemma AppDataKeyInjective(pk1: string, chain1: string, pk2: string, chain2: string)
    requires Free('-', pk1) && Free('-', pk2)
    requires AppDataKey(pk1, chain1) == AppDataKey(pk2, chain2)
    ensures pk1 == pk2 && chain1 == chain2
  {
    CutInjective(pk1, chain1, pk2, chain2, '-');
  }

  /** Distinct sessions never share a deduplication key, whatever their session keys hold. */
  lemma SessionInStoreKeyInjective(pk1: string, chain1: string, sk1: string, pk2: string, chain2: string, sk2: string)
    requires Free('-', pk1) && Free('-', pk2) && Free('-', chain1) && Free('-', chain2)
    requires SessionInStoreKey(pk1, chain1, sk1) == SessionInStoreKey(pk2, chain2, sk2)
    ensures pk1 == pk2 && chain1 == chain2 && sk1 == sk2
  {
    var s1, s2 := chain1 + ['-'] + sk1, chain2 + ['-'] + sk2;
    assert SessionInStoreKey(pk1, chain1, sk1) == pk1 + ['-'] + s1;
    assert SessionInStoreKey(pk2, chain2, sk2) == pk2 + ['-'] + s2;
    CutInjective(pk1, s1, pk2, s2, '-');
    CutInjective(chain1, sk1, chain2, sk2, '-');
  }
}
