/**
 * The two lazily created string-keyed maps of an ArtifactStore (metadata
 * and transient metadata), as values. A map is absent (Java null) until the
 * first write whose key and value are both present; the store's mutators
 * are specified by the functions here.
 */
module Metadata {
  import opened Wrappers

  /** A map field that stays null until it is first written. */
  type LazyMap<V> = Option<map<string, V>>

  /** The keys present; none while the map is absent. */
  function Keys<V>(m: LazyMap<V>): (r: set<string>) {
    if m.Some? then m.value.Keys else {}
  }

  /** `m == null ? null : m.get(k)`; looking up the null key finds nothing. */
  function Lookup<V>(m: LazyMap<V>, k: Option<string>): (r: Option<V>)
    ensures r.Some? <==> k.Some? && k.value in Keys(m)
    ensures r.Some? ==> m.Some? && k.Some? && r.value == m.value[k.value]
  {
    if m.Some? && k.Some? && k.value in m.value then Some(m.value[k.value]) else None
  }

  /** The map after a mutator, and what the mutator returned. */
  datatype Update<V> = Update(after: LazyMap<V>, previous: Option<V>)

  /**
   * `put(k, v)` behind the null guard: a null key or value returns null and
   * changes nothing; otherwise the map is created if absent, `k` is bound to
   * `v`, and the value `k` had before is returned.
   */
  function Put<V>(m: LazyMap<V>, k: Option<string>, v: Option<V>): (r: Update<V>)
    ensures k.None? || v.None? ==> r.after == m && r.previous.None?
    ensures k.Some? && v.Some? ==>
      && r.after.Some?
      && Lookup(r.after, k) == v
      && r.previous == Lookup(m, k)
      && Keys(r.after) == Keys(m) + {k.value}
      && forall j :: j != k.value ==> Lookup(r.after, Some(j)) == Lookup(m, Some(j))
  {
    if k.None? || v.None? then Update(m, None)
    else
      var entries := if m.Some? then m.value else map[];
      Update(Some(entries[k.value := v.value]), Lookup(m, k))
  }

  /**
   * `remove(k)` behind the null guard: an absent map or a null key returns
   * null and changes nothing (the map is not created); otherwise only `k`
   * is unbound and its former value is returned. The map stays present
   * even when it becomes empty.
   */
  function Remove<V>(m: LazyMap<V>, k: Option<string>): (r: Update<V>)
    ensures m.None? || k.None? ==> r.after == m && r.previous.None?
    ensures m.Some? && k.Some? ==>
      && r.after.Some?
      && Lookup(r.after, k).None?
      && r.previous == Lookup(m, k)
      && Keys(r.after) == Keys(m) - {k.value}
      && forall j :: j != k.value ==> Lookup(r.after, Some(j)) == Lookup(m, Some(j))
  {
    if m.None? || k.None? then Update(m, None)
    else Update(Some(m.value - {k.value}), Lookup(m, k))
  }

  /** A history of `setMetadata(k, v)` calls, applied first to last. */
  function PutAll<V>(m: LazyMap<V>, writes: seq<(Option<string>, Option<V>)>): (r: LazyMap<V>)
    decreases |writes|
  {
    if writes == [] then m
    else
      var last := writes[|writes| - 1];
      Put(PutAll(m, writes[..|writes| - 1]), last.0, last.1).after
  }

  /** The value of the last write to `k` in which both key and value were present. */
  function LastWrite<V>(writes: seq<(Option<string>, Option<V>)>, k: string): (r: Option<V>)
    decreases |writes|
  {
    if writes == [] then None
    else
      var last := writes[|writes| - 1];
      if last.0 == Some(k) && last.1.Some? then last.1
      else LastWrite(writes[..|writes| - 1], k)
  }

  /** A write that the null guard lets through. */
  predicate Accepted<V>(w: (Option<string>, Option<V>)) {
    w.0.Some? && w.1.Some?
  }

  /**
   * After any history of writes, a key reads as the last accepted write to
   * it, and as it did before the history if there was none.
   */
  lemma {:induction false} LastWriteWins<V>(m: LazyMap<V>, writes: seq<(Option<string>, Option<V>)>, k: string)
    ensures Lookup(PutAll(m, writes), Some(k))
         == if LastWrite(writes, k).Some? then LastWrite(writes, k) else Lookup(m, Some(k))
    decreases |writes|
  {
    if writes != [] {
      LastWriteWins(m, writes[..|writes| - 1], k);
    }
  }

  /**
   * Lazy creation: after a history of writes the map is absent exactly when
   * it was absent before and the null guard rejected every write.
   */
  lemma {:induction false} AbsentUntilAcceptedWrite<V>(m: LazyMap<V>, writes: seq<(Option<string>, Option<V>)>)
    ensures PutAll(m, writes).None? <==> m.None? && forall i :: 0 <= i < |writes| ==> !Accepted(writes[i])
    decreases |writes|
  {
    if writes != [] {
      var init := writes[..|writes| - 1];
      AbsentUntilAcceptedWrite(m, init);
      assert forall i :: 0 <= i < |init| ==> init[i] == writes[i];
    }
  }
}
