/**
 * The engine variable paths the bridge touches: the fixed suffixes under the
 * pooling plug-in, the beamformer selector, and the pool path a session
 * reads, which is either given explicitly or derived from the plug-in path.
 */
module Paths {
  import opened Text

  /** Suffixes of the three pooling parameters under the plug-in's path. */
  const WndlenSuffix: string := ".pooling_wndlen"
  const AlphaSuffix: string := ".alpha"
  const TypeSuffix: string := ".pooling_type"

  /**
   * The absolute path of the beamformer selector. The source passes it as a
   * bytes literal, unlike every other path; the model treats it as text.
   */
  const BeamformerPath: string := "mha.doachain.post.select"

  /** The id of the monitoring plug-in assumed to sit beside the pooling plug-in. */
  const MonitorId: string := "doasvm_mon"

  /** The variable of the monitoring plug-in that holds the pooled data. */
  const PoolSuffix: string := ".pool"

  /**
   * The default pool path: every occurrence of the pooling id in the
   * plug-in's path replaced by the monitor id, then `.pool`.
   */
  function DerivePoolPath(pluginPath: string, poolingId: string): (r: string)
    ensures |r| >= |PoolSuffix| && r[|r| - |PoolSuffix|..] == PoolSuffix
  {
    ReplaceAll(pluginPath, poolingId, MonitorId) + PoolSuffix
  }

  /**
   * The pool path a session reads: a non-empty explicit path verbatim,
   * otherwise the derived one.
   */
  function ResolvePoolPath(explicit: string, pluginPath: string, poolingId: string): (r: string)
    ensures explicit != "" ==> r == explicit
    ensures explicit == "" ==> r == DerivePoolPath(pluginPath, poolingId)
  {
    if explicit != "" then explicit else DerivePoolPath(pluginPath, poolingId)
  }

  /** A plug-in path that does not mention the pooling id only gains `.pool`. */
  lemma DeriveWithoutId(pluginPath: string, poolingId: string)
    requires poolingId != "" && !Contains(pluginPath, poolingId)
    ensures DerivePoolPath(pluginPath, poolingId) == pluginPath + PoolSuffix
  {
    ReplaceAbsent(pluginPath, poolingId, MonitorId);
  }

  /**
   * The intended case: the pooling id is the last segment of the plug-in's
   * path and occurs nowhere else, so the monitor is looked up in the same
   * namespace.
   */
  lemma DeriveInSameNamespace(namespace: string, poolingId: string)
    requires poolingId != ""
    requires forall i: nat | i < |namespace| :: !OccursAt(namespace + poolingId, poolingId, i)
    ensures DerivePoolPath(namespace + poolingId, poolingId) == namespace + MonitorId + PoolSuffix
  {
    ReplaceOnlyAtEnd(namespace, poolingId, MonitorId);
  }

  /** The replacement step of the documented example below. */
  lemma ExampleReplacement(namespace: string, poolingId: string)
    requires namespace == "mha.doachain.pool." && poolingId == "pool_instance"
    ensures ReplaceAll(namespace + poolingId, poolingId, MonitorId) == namespace + MonitorId
  {
    var id := poolingId;
    var pre, segment := namespace[..13], namespace[13..];  // "mha.doachain." and "pool."
    assert pre + segment == namespace;
    // "pool." starts like the id but differs from it at index 4
    var s := segment + id;
    assert s[..|id|][4] != id[4];
    ReplaceStep(s, id, MonitorId);
    assert s[1..] == segment[1..] + id;
    ReplaceSkipsPrefix(segment[1..], id, id, MonitorId);
    ReplaceAtStart(id, [], MonitorId);
    assert id + [] == id;
    ReplaceSkipsPrefix(pre, s, id, MonitorId);
    assert namespace + id == pre + s;
  }

  /**
   * The documented example: the plug-in path `mha.doachain.pool.pool_instance`
   * with pooling id `pool_instance` gives `mha.doachain.pool.doasvm_mon.pool`.
   * The strings are parameters fixed by the requires clause, so that the
   * verifier does not evaluate the replacement on the literal itself.
   */
  lemma DeriveExample(namespace: string, poolingId: string)
    requires namespace == "mha.doachain.pool." && poolingId == "pool_instance"
    ensures DerivePoolPath(namespace + poolingId, poolingId) == "mha.doachain.pool.doasvm_mon.pool"
  {
    ExampleReplacement(namespace, poolingId);
    assert namespace + MonitorId + PoolSuffix == "mha.doachain.pool.doasvm_mon.pool";
  }

  /** The replacement step of DeriveRewritesEverySegment below. */
  lemma EverySegmentReplacement(pluginPath: string, poolingId: string)
    requires pluginPath == "mha.pool.pool" && poolingId == "pool"
    ensures ReplaceAll(pluginPath, poolingId, MonitorId) == pluginPath[..4] + MonitorId + "." + MonitorId
  {
    var id := poolingId;
    var pre, dot := pluginPath[..4], pluginPath[8..9];  // "mha." and "."
    assert pluginPath == pre + (id + (dot + (id + [])));
    ReplaceAtStart(id, [], MonitorId);
    ReplaceSkipsPrefix(dot, id + [], id, MonitorId);
    ReplaceAtStart(id, dot + (id + []), MonitorId);
    ReplaceSkipsPrefix(pre, id + (dot + (id + [])), id, MonitorId);
  }

  /**
   * Plain substring replacement also rewrites an earlier segment that equals
   * the pooling id, so the derived path leaves the plug-in's namespace:
   * `mha.pool.pool` with id `pool` gives `mha.doasvm_mon.doasvm_mon.pool`.
   */
  lemma DeriveRewritesEverySegment(pluginPath: string, poolingId: string)
    requires pluginPath == "mha.pool.pool" && poolingId == "pool"
    ensures DerivePoolPath(pluginPath, poolingId) == "mha.doasvm_mon.doasvm_mon.pool"
  {
    EverySegmentReplacement(pluginPath, poolingId);
    assert pluginPath[..4] + MonitorId + "." + MonitorId + PoolSuffix == "mha.doasvm_mon.doasvm_mon.pool";
  }
}
