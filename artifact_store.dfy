/**
 * ArtifactStore, the base record of every repository (remote, hosted or
 * group): its identity, its configuration flags, its two lazily created
 * metadata maps, the copy of its base fields into another store, and its
 * versioned external form.
 */
module ArtifactStores {
  import opened Wrappers
  import opened StoreTypes
  import opened Metadata
  import opened StoreStream

  /** What a call of the source's `equals` does: return a boolean, or throw a NullPointerException. */
  datatype EqualsOutcome = Returns(b: bool) | NullPointer

  /**
   * A store. `V` is the type of the values kept in the transient metadata
   * (Java `Object`). Every nullable field of the source is an Option.
   */
  class ArtifactStore<V> {
    /** The runtime class: RemoteRepository, HostedRepository or Group. */
    const kind: StoreClass
    /**
     * The ten fields writeExternal persists (key, description, metadata,
     * disabled, disableTimeout, pathStyle, pathMaskPatterns,
     * authoritativeIndex, createTime, rescanInProgress), held as one record;
     * assigning one of them is an update of that component.
     */
    var fields: Persisted
    /** Process-local, never written by writeExternal. */
    var transientMetadata: LazyMap<V>

    /**
     * Both source constructors: the default one leaves the key null, the
     * other sets it. `createTime` is the formatted clock reading taken at
     * construction.
     */
    constructor (kind: StoreClass, key: Option<StoreKey>, createTime: string)
      ensures this.kind == kind && fields.key == key && transientMetadata.None?
      ensures fields.description.None? && fields.metadata.None?
      ensures !fields.disabled && fields.disableTimeout == 0
      ensures fields.pathStyle.None? && fields.pathMaskPatterns.None? && fields.authoritativeIndex.None?
      ensures fields.createTime == Some(createTime) && fields.rescanInProgress == Some(false)
    {
      this.kind := kind;
      fields := Persisted(key, None, None, false, 0, None, None, None, Some(createTime), Some(false));
      transientMetadata := None;
    }

    // ---- identity --------------------------------------------------------

    /**
     * `equals` as the source writes it: after the identity check it calls
     * `obj.getClass()`, so a null argument throws instead of returning false.
     */
    function EqualsAsWritten(obj: ArtifactStore?<V>): (r: EqualsOutcome)
      reads this, obj
      ensures obj == null ==> r == NullPointer
      ensures obj != null ==> r == Returns(obj.kind == kind && obj.fields.key == fields.key)
    {
      if this == obj then Returns(true)
      else if obj == null then NullPointer
      else if kind != obj.kind then Returns(false)
      else if fields.key.None? then Returns(obj.fields.key.None?)
      else Returns(fields.key == obj.fields.key)
    }

    /**
     * `equals` with the null case answered as Java's equality contract asks:
     * two stores are equal exactly when they have the same runtime class and
     * equal keys (two null keys are equal); no other field takes part.
     */
    function Equals(obj: ArtifactStore?<V>): (r: bool)
      reads this, obj
      ensures r <==> obj != null && obj.kind == kind && obj.fields.key == fields.key
      ensures obj != null ==> EqualsAsWritten(obj) == Returns(r)
    {
      if this == obj then true
      else if obj == null then false
      else if kind != obj.kind then false
      else if fields.key.None? then obj.fields.key.None?
      else fields.key == obj.fields.key
    }

    // ---- defaulting getters ------------------------------------------------

    /** The stored path style, or `plain` when none is set. */
    function GetPathStyle(): (r: PathStyle)
      reads this
      ensures fields.pathStyle.None? ==> r == Plain
      ensures fields.pathStyle.Some? ==> r == fields.pathStyle.value
    {
      fields.pathStyle.GetOr(Plain)
    }

    /** The stored flag, or false when none is set. */
    function IsAuthoritativeIndex(): (r: bool)
      reads this
      ensures fields.authoritativeIndex.None? ==> !r
      ensures fields.authoritativeIndex.Some? ==> r == fields.authoritativeIndex.value
    {
      fields.authoritativeIndex.GetOr(false)
    }

    // ---- metadata ----------------------------------------------------------

    /** The value stored for `k`; null while the map has never been created. */
    function GetMetadata(k: Option<string>): (r: Option<string>)
      reads this
      ensures fields.metadata.None? || k.None? ==> r.None?
      ensures r.Some? <==> fields.metadata.Some? && k.Some? && k.value in fields.metadata.value
      ensures r.Some? ==> r.value == fields.metadata.value[k.value]
    {
      Lookup(fields.metadata, k)
    }

    /**
     * `setMetadata(key, value)`: a null key or value returns null and
     * leaves the map as it was (absent stays absent); otherwise the map is
     * created on first use and the previous value is returned. No other
     * field changes.
     */
    method SetMetadata(k: Option<string>, v: Option<string>) returns (previous: Option<string>)
      modifies this`fields
      ensures Update(fields.metadata, previous) == Put(old(fields.metadata), k, v)
      ensures fields == old(fields).(metadata := fields.metadata)
    {
      if k.None? || v.None? {
        return None;
      }
      if fields.metadata.None? {
        fields := fields.(metadata := Some(map[]));
      }
      previous := Lookup(fields.metadata, k);
      fields := fields.(metadata := Some(fields.metadata.value[k.value := v.value]));
    }

    /** The transient value stored for `k`; null while the map has never been created. */
    function GetTransientMetadata(k: Option<string>): (r: Option<V>)
      reads this
      ensures transientMetadata.None? || k.None? ==> r.None?
      ensures r.Some? <==> transientMetadata.Some? && k.Some? && k.value in transientMetadata.value
      ensures r.Some? ==> r.value == transientMetadata.value[k.value]
    {
      Lookup(transientMetadata, k)
    }

    /** `setTransientMetadata(key, value)`: the same null guard and put as SetMetadata. */
    method SetTransientMetadata(k: Option<string>, v: Option<V>) returns (previous: Option<V>)
      modifies this`transientMetadata
      ensures Update(transientMetadata, previous) == Put(old(transientMetadata), k, v)
    {
      if k.None? || v.None? {
        return None;
      }
      if transientMetadata.None? {
        transientMetadata := Some(map[]);
      }
      previous := Lookup(transientMetadata, k);
      transientMetadata := Some(transientMetadata.value[k.value := v.value]);
    }

    /**
     * `removeTransientMetadata(key)`: an absent map or a null key returns
     * null and changes nothing; otherwise only `k` is removed and its
     * former value returned.
     */
    method RemoveTransientMetadata(k: Option<string>) returns (previous: Option<V>)
      modifies this`transientMetadata
      ensures Update(transientMetadata, previous) == Remove(old(transientMetadata), k)
    {
      if transientMetadata.None? || k.None? {
        return None;
      }
      previous := Lookup(transientMetadata, k);
      transientMetadata := Some(transientMetadata.value - {k.value});
    }

    // ---- copying -----------------------------------------------------------

    /**
     * `copyBase(store)`: the target takes this store's base fields through
     * their getters, so an unset path style arrives as `plain` and an unset
     * authoritative-index flag as false. The target keeps its own key and
     * creation time.
     */
    method CopyBase(target: ArtifactStore<V>)
      modifies target
      ensures target.fields.rescanInProgress == old(fields.rescanInProgress)
      ensures target.fields.description == old(fields.description)
      ensures target.fields.disabled == old(fields.disabled)
      ensures target.fields.metadata == old(fields.metadata)
      ensures target.transientMetadata == old(transientMetadata)
      ensures target.fields.pathStyle == Some(old(GetPathStyle()))
      ensures target.fields.disableTimeout == old(fields.disableTimeout)
      ensures target.fields.pathMaskPatterns == old(fields.pathMaskPatterns)
      ensures target.fields.authoritativeIndex == Some(old(IsAuthoritativeIndex()))
      ensures target.fields.key == old(target.fields.key)
      ensures target.fields.createTime == old(target.fields.createTime)
    {
      var style := GetPathStyle();
      var authoritative := IsAuthoritativeIndex();
      var base := fields;
      target.fields := target.fields.(rescanInProgress := base.rescanInProgress);
      target.fields := target.fields.(description := base.description);
      target.fields := target.fields.(disabled := base.disabled);
      target.fields := target.fields.(metadata := base.metadata);
      target.transientMetadata := transientMetadata;
      target.fields := target.fields.(pathStyle := Some(style));
      target.fields := target.fields.(disableTimeout := base.disableTimeout);
      target.fields := target.fields.(pathMaskPatterns := base.pathMaskPatterns);
      target.fields := target.fields.(authoritativeIndex := Some(authoritative));
    }

    // ---- external form -----------------------------------------------------

    /** `writeExternal`: the version, then the persisted fields in their fixed order. */
    method WriteExternal(out: ObjectOutput)
      modifies out
      ensures out.written == old(out.written) + Encode(fields)
    {
      out.WriteInt(ARTIFACT_STORE_VERSION);
      out.WriteObject(KeyToObj(fields.key));
      out.WriteObject(StringToObj(fields.description));
      out.WriteObject(MapToObj(fields.metadata));
      out.WriteBoolean(fields.disabled);
      out.WriteInt(fields.disableTimeout);
      if fields.pathStyle.None? {
        out.WriteObject(NullObj);
      } else {
        out.WriteObject(StringObj(PathStyleName(fields.pathStyle.value)));
      }
      out.WriteObject(SetToObj(fields.pathMaskPatterns));
      out.WriteObject(BooleanToObj(fields.authoritativeIndex));
      out.WriteObject(StringToObj(fields.createTime));
      out.WriteObject(BooleanToObj(fields.rescanInProgress));
      AppendEleven(old(out.written), IntTok(ARTIFACT_STORE_VERSION), ObjTok(KeyToObj(fields.key)),
                   ObjTok(StringToObj(fields.description)), ObjTok(MapToObj(fields.metadata)),
                   BoolTok(fields.disabled), IntTok(fields.disableTimeout),
                   ObjTok(PathStyleToObj(fields.pathStyle)), ObjTok(SetToObj(fields.pathMaskPatterns)),
                   ObjTok(BooleanToObj(fields.authoritativeIndex)), ObjTok(StringToObj(fields.createTime)),
                   ObjTok(BooleanToObj(fields.rescanInProgress)));
    }

    /**
     * `readExternal` on the tokens of `input` from `start` on: fails exactly
     * when Decode does, with the same error; on success every persisted
     * field holds what Decode read and `next` is where a subclass would go
     * on reading. A missing or too-new version assigns no field; a failure
     * further on leaves the fields read before it assigned. The transient
     * metadata is outside the frame and never touched.
     */
    method ReadExternal(input: seq<Token>, start: nat) returns (outcome: Outcome<ReadError>, next: nat)
      modifies this`fields
      ensures outcome.Pass? <==> Decode(input, start).Success?
      ensures outcome.Fail? ==> Decode(input, start) == Failure(outcome.error)
      ensures outcome.Pass? ==> fields == Decode(input, start).value && next == start + FIELD_TOKENS
      ensures IntAt(input, start).Failure? || IntAt(input, start).value > ARTIFACT_STORE_VERSION
              ==> fields == old(fields)
    {
      next := start;
      var version := IntAt(input, next);
      if version.Failure? { return Fail(version.error), next; }
      if version.value > ARTIFACT_STORE_VERSION {
        return Fail(VersionUnsupported(version.value)), next;
      }
      next := next + 1;

      var k := KeyAt(input, next);
      if k.Failure? { return Fail(k.error), next; }
      fields := fields.(key := k.value);
      next := next + 1;

      var d := StringAt(input, next);
      if d.Failure? { return Fail(d.error), next; }
      fields := fields.(description := d.value);
      next := next + 1;

      var m := MapAt(input, next);
      if m.Failure? { return Fail(m.error), next; }
      fields := fields.(metadata := m.value);
      next := next + 1;

      var b := BoolAt(input, next);
      if b.Failure? { return Fail(b.error), next; }
      fields := fields.(disabled := b.value);
      next := next + 1;

      var t := IntAt(input, next);
      if t.Failure? { return Fail(t.error), next; }
      fields := fields.(disableTimeout := t.value);
      next := next + 1;

      var raw := ObjAt(input, next);
      if raw.Failure? { return Fail(raw.error), next; }
      var ps := AsPathStyle(raw.value, next);
      if ps.Failure? { return Fail(ps.error), next; }
      fields := fields.(pathStyle := ps.value);
      next := next + 1;

      var masks := SetAt(input, next);
      if masks.Failure? { return Fail(masks.error), next; }
      fields := fields.(pathMaskPatterns := masks.value);
      next := next + 1;

      var ai := BooleanAt(input, next);
      if ai.Failure? { return Fail(ai.error), next; }
      fields := fields.(authoritativeIndex := ai.value);
      next := next + 1;

      var ct := StringAt(input, next);
      if ct.Failure? { return Fail(ct.error), next; }
      fields := fields.(createTime := ct.value);
      next := next + 1;

      var rs := BooleanAt(input, next);
      if rs.Failure? { return Fail(rs.error), next; }
      fields := fields.(rescanInProgress := rs.value);
      next := next + 1;

      outcome := Pass;
    }
  }

  // ---- properties relating several stores or calls --------------------------

  /** Store equality is an equivalence relation on non-null stores. */
  lemma EqualsIsEquivalence<V>(a: ArtifactStore<V>, b: ArtifactStore<V>, c: ArtifactStore<V>)
    ensures a.Equals(a)
    ensures a.Equals(b) ==> b.Equals(a)
    ensures a.Equals(b) && b.Equals(c) ==> a.Equals(c)
  {
  }

  /** The source's `equals` throws on a null argument; the corrected one answers false. */
  lemma EqualsNullDiscrepancy<V>(a: ArtifactStore<V>)
    ensures a.EqualsAsWritten(null) == NullPointer
    ensures !a.Equals(null)
  {
  }

  /**
   * A store serialised with WriteExternal and read back into another store
   * with ReadExternal ends up with every persisted field of the first, and
   * keeps its own transient metadata.
   */
  method Reload<V>(source: ArtifactStore<V>, target: ArtifactStore<V>)
    modifies target
    ensures target.fields == old(source.fields)
    ensures target.transientMetadata == old(target.transientMetadata)
  {
    var out := new ObjectOutput();
    source.WriteExternal(out);
    RoundTrip(old(source.fields), []);
    assert out.written == Encode(old(source.fields)) + [];
    var outcome, next := target.ReadExternal(out.written, 0);
  }
}
