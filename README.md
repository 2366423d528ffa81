# Indy artifact stores and the not-found-cache timeout, in Dafny

This project models two small pieces of Indy, a Maven/NPM repository
manager:

- `ArtifactStore`, the base record of every repository (remote, hosted
  or group). The model covers:
  - its identity rule (`equals`);
  - its two lazily created string-keyed metadata maps;
  - its defaulting getters;
  - `copyBase`, which copies the base fields into another store;
  - its versioned external form (`writeExternal` / `readExternal`).
- The time-to-live rule of the not-found cache
  (`AbstractNotFoundCache.getTimeoutInSeconds`), plus the two paging
  queries that the base cache answers with nothing.

## Layout

- `wrappers.dfy`: `Option` (Java null), `Result` (a value or the
  exception a read throws), and `Outcome` (a method that passes or
  throws).
- `store_types.dfy`: Java's 32-bit `int`, `StoreKey`, the runtime store
  classes, `PathStyle` with its `name()`/`valueOf`, and `Persisted`, the
  ten fields the external form carries.
- `metadata.dfy`: the lazily created maps as values. `Put`, `Remove` and
  `Lookup` specify the store's mutators and getters. Lemmas cover any
  history of writes.
- `store_stream.dfy`: the object stream as a sequence of tokens, where a
  token is a primitive `int`/`boolean` or one whole object.
  - `Encode` is what `writeExternal` emits; `Decode` is what
    `readExternal` makes of a stream, version guard and casts included.
  - The round-trip lemmas live here.
  - `ObjectOutput` is the append-only output stream.
- `artifact_store.dfy`: the class `ArtifactStore<V>`, whose methods
  update its fields in place and are proved against the functions above.
  It also holds the equality lemmas and `Reload` (write a store out, read
  it into another).
  - The ten persisted fields are held as one record field `fields` of
    type `Persisted`. Assigning one Java field is modelled as updating
    that component of the record.
  - The transient metadata, which the stream never carries, is a
    separate field.
- `not_found_cache.dfy`: the timeout rule and the empty paging defaults.

Java `null` is `None` throughout. An exception thrown by a read is a
`Failure` or `Fail` value naming its cause; the NullPointerException of
`equals` is the `NullPointer` outcome of `EqualsAsWritten`.

## Model

Source paths are relative to the repository root.

| member | source | states |
|---|---|---|
| Metadata.Lookup | models/core-java/src/main/java/org/commonjava/indy/model/core/ArtifactStore.java:208-211 | a lookup finds a value exactly when the map exists, the key is non-null and present; the value is the one bound to the key |
| Metadata.Put | models/core-java/src/main/java/org/commonjava/indy/model/core/ArtifactStore.java:193-206 | a null key or value returns null and leaves the map as it was, absent included; otherwise the map exists afterwards, the key reads back as the value, the previous value (or null) is returned, the key set grows by the key, and every other key reads as before |
| Metadata.Remove | models/core-java/src/main/java/org/commonjava/indy/model/core/ArtifactStore.java:213-221 | an absent map or null key returns null and changes nothing; otherwise only the key is unbound, its former value is returned, and every other key reads as before |
| Metadata.LastWriteWins | models/core-java/src/main/java/org/commonjava/indy/model/core/ArtifactStore.java:193-206 | after any sequence of `setMetadata` calls, a key reads as the last write to it that passed the null guard, or as before if no write did |
| Metadata.AbsentUntilAcceptedWrite | models/core-java/src/main/java/org/commonjava/indy/model/core/ArtifactStore.java:195-203 | after any sequence of writes, the map is still null exactly when it was null before and the null guard rejected every write |
| ArtifactStores.ArtifactStore.constructor | models/core-java/src/main/java/org/commonjava/indy/model/core/ArtifactStore.java:91-102 | a new store has the given key (or none), a creation time, `rescanInProgress` false, and every other field null, false or 0 |
| ArtifactStores.ArtifactStore.EqualsAsWritten | models/core-java/src/main/java/org/commonjava/indy/model/core/ArtifactStore.java:137-161 | `equals` as written: throws on a null argument; otherwise true exactly when the runtime classes and the keys are equal (two null keys are equal) |
| ArtifactStores.ArtifactStore.Equals | models/core-java/src/main/java/org/commonjava/indy/model/core/ArtifactStore.java:137-161 | corrected `equals`: true exactly when the argument is non-null with the same runtime class and an equal key; it agrees with the source on every non-null argument; no other field takes part |
| ArtifactStores.EqualsIsEquivalence | models/core-java/src/main/java/org/commonjava/indy/model/core/ArtifactStore.java:137-161 | store equality is reflexive, symmetric and transitive |
| ArtifactStores.EqualsNullDiscrepancy | models/core-java/src/main/java/org/commonjava/indy/model/core/ArtifactStore.java:140-147 | the source's `equals(null)` throws, while the corrected one answers false |
| ArtifactStores.ArtifactStore.GetPathStyle | models/core-java/src/main/java/org/commonjava/indy/model/core/ArtifactStore.java:282-285 | `plain` when no style is set, otherwise the stored style |
| ArtifactStores.ArtifactStore.IsAuthoritativeIndex | models/core-java/src/main/java/org/commonjava/indy/model/core/ArtifactStore.java:302-305 | false when the flag is unset, otherwise the stored flag |
| ArtifactStores.ArtifactStore.GetMetadata | models/core-java/src/main/java/org/commonjava/indy/model/core/ArtifactStore.java:208-211 | null while the map has never been created or the key is null; otherwise the value bound to the key, if any |
| ArtifactStores.ArtifactStore.SetMetadata | models/core-java/src/main/java/org/commonjava/indy/model/core/ArtifactStore.java:193-206 | the new metadata map and the returned value are exactly those of `Put` on the old map; no other field changes |
| ArtifactStores.ArtifactStore.GetTransientMetadata | models/core-java/src/main/java/org/commonjava/indy/model/core/ArtifactStore.java:238-241 | null while the transient map has never been created or the key is null; otherwise the value bound to the key, if any |
| ArtifactStores.ArtifactStore.SetTransientMetadata | models/core-java/src/main/java/org/commonjava/indy/model/core/ArtifactStore.java:223-236 | the new transient map and the returned value are exactly those of `Put` on the old one; nothing else may change |
| ArtifactStores.ArtifactStore.RemoveTransientMetadata | models/core-java/src/main/java/org/commonjava/indy/model/core/ArtifactStore.java:213-221 | the new transient map and the returned value are exactly those of `Remove` on the old one; nothing else may change |
| ArtifactStores.ArtifactStore.CopyBase | models/core-java/src/main/java/org/commonjava/indy/model/core/ArtifactStore.java:243-254 | the target takes the source's rescanInProgress, description, disabled, metadata, transient metadata, disableTimeout and path masks; it takes the path style and authoritative-index flag as their getters return them (defaults made explicit); it keeps its own key and creation time |
| ArtifactStores.ArtifactStore.WriteExternal | models/core-java/src/main/java/org/commonjava/indy/model/core/ArtifactStore.java:334-359 | appends to the output exactly `Encode` of the store's persisted fields, after what was already written |
| ArtifactStores.ArtifactStore.ReadExternal | models/core-java/src/main/java/org/commonjava/indy/model/core/ArtifactStore.java:361-393 | throws exactly when `Decode` fails, with the same error; on success the persisted fields are what `Decode` read and the position is past the eleven tokens; a missing or too-new version assigns no field; the transient metadata is never touched |
| ArtifactStores.Reload | models/core-java/src/main/java/org/commonjava/indy/model/core/ArtifactStore.java:334-393 | writing a store out and reading the result into another store gives the second store every persisted field of the first, and it keeps its own transient metadata |
| StoreStream.Encode | models/core-java/src/main/java/org/commonjava/indy/model/core/ArtifactStore.java:338-358 | eleven tokens, led by version 1, with `disabled` and `disableTimeout` as primitives at their fixed places |
| StoreStream.Decode | models/core-java/src/main/java/org/commonjava/indy/model/core/ArtifactStore.java:365-392 | a leading version above 1 fails with that version before anything else is read; a success means there were eleven tokens from the start, led by a version of at most 1 |
| StoreStream.AsPathStyle | models/core-java/src/main/java/org/commonjava/indy/model/core/ArtifactStore.java:379-387 | a null path style reads back as null and a style's name as that style; any other string fails as `valueOf` does (IllegalArgumentException), and an object that is not a string fails the cast |
| StoreTypes.PathStyleValueOf | models/core-java/src/main/java/org/commonjava/indy/model/core/ArtifactStore.java:386 | `valueOf` finds a style exactly when the string is that style's `name()` |
| StoreStream.CastsUndoWrites | models/core-java/src/main/java/org/commonjava/indy/model/core/ArtifactStore.java:339-392 | every cast in `readExternal` returns the field value that `writeExternal` wrote, null included |
| StoreStream.FieldsReadBack | models/core-java/src/main/java/org/commonjava/indy/model/core/ArtifactStore.java:372-392 | after an accepted version, the ten field tokens that `writeExternal` wrote decode to the fields they came from |
| StoreStream.RoundTrip | models/core-java/src/main/java/org/commonjava/indy/model/core/ArtifactStore.java:334-393 | decoding what `writeExternal` emits gives back every persisted field (the path style by name), whatever follows in the stream |
| StoreStream.OlderVersionAccepted | models/core-java/src/main/java/org/commonjava/indy/model/core/ArtifactStore.java:365-370 | a stream led by any version up to 1, followed by the field tokens, is accepted and read as version 1 |
| NotFoundCache.TimeoutInSeconds | core/src/main/java/org/commonjava/indy/core/inject/AbstractNotFoundCache.java:49-59 | a present, positive location attribute wins; an absent, zero or negative one gives the configured default; the result is always one of the two, and it is non-positive only when it is the default |
| NotFoundCache.PositiveDefaultGivesPositiveTimeout | core/src/main/java/org/commonjava/indy/core/inject/AbstractNotFoundCache.java:49-59 | with a positive default, the timeout is positive for every location attribute |
| NotFoundCache.AllMissing | core/src/main/java/org/commonjava/indy/core/inject/AbstractNotFoundCache.java:35-38 | no location appears in the result, for any page index and size |
| NotFoundCache.Missing | core/src/main/java/org/commonjava/indy/core/inject/AbstractNotFoundCache.java:40-43 | no path appears in the result, for any location, page index and size |

## Left out

- `hashCode` (ArtifactStore.java:129-135): it mixes in the object's
  identity hash, so it is not a function of the key. It is not modelled,
  and nothing is claimed about its consistency with `equals`.
- `initRepoTime` (ArtifactStore.java:327-332) reads the clock and formats
  it. The constructor takes the formatted creation time as a parameter.
- `StoreKey.dedupe` interning (line 100) is a foreign call, and
  StoreKey.java is not part of this model. A key is a value with
  component-wise equality, and the constructor takes it already built.
- PathStyle.java is not part of this model. Its two constants and their
  names (`plain`, `hashed`) are written out in `StoreTypes`.
- `synchronized` on the mutators: the model is sequential.
- Jackson and Swagger annotations: they are not behaviour.
- Java object-stream mechanics are abstracted to tokens: class
  descriptors, back-references, the serialised form of a `StoreKey`, and
  `ClassNotFoundException`. An input stream is a token sequence with a
  read position, and an exhausted or mistyped stream is an error value.
- ArtifactStores.ArtifactStore.ReadExternal: after a read fails part way,
  the contract does not say which fields were already assigned. The body
  assigns them in the source's order, but the contract pins only the
  version failure (nothing assigned) and the success case.
- ArtifactStores.ArtifactStore.CopyBase: maps and sets are values here.
  In the source the target shares the very same `metadata`,
  `transientMetadata` and `pathMaskPatterns` objects with the source, so
  a later in-place change through one store shows in the other. The model
  does not capture that sharing.
- The whole-map setters and getters (`setMetadata(Map)`,
  `setTransientMetadata(Map)` and the like) are not modelled as separate
  operations. CopyBase assigns the maps directly. A map holding a null
  key or a null value is not represented. `setMetadata(Map)`,
  `setTransientMetadata(Map)` and `readExternal` can install such a map.
  A caller can also make one in place through the live map that
  `getMetadata()` returns. On such a map, `getMetadata(null)` would
  return the null key's value.
- `getMetadata()`, `getPathMaskPatterns()` and the whole-map setters
  share the store's own objects with the caller. Changes made in place
  through them bypass the mutators' null guard. The value maps and sets
  of the model do not capture this.
- Plain one-field getters and setters (`getDescription`, `setDisabled`,
  …) are not modelled as members; CopyBase writes the fields they would.
- `equals` is modelled only against other stores (or null). The source's
  `getClass()` comparison answers false for any object of another class,
  which the runtime-class field covers for stores.
- Subclasses other than remote, hosted and group are not represented.
  `copyOf`, `getName` and `getType` belong to the subclasses or delegate
  to the key, and are not modelled.
- `getSize` and `getIndyConfiguration` in AbstractNotFoundCache.java are
  abstract. The configured default timeout and the location's
  NFC-timeout attribute are parameters of `TimeoutInSeconds`, the
  attribute as an optional 32-bit int. An attribute of another type is
  outside the model.
- The tracing, metrics and servlet plumbing, the storage configuration
  bean and the functional tests are outside the modelled core.

## Findings

| source | as written | input that shows it | evidently intended | confidence | as-written member | corrected member |
|---|---|---|---|---|---|---|
| models/core-java/src/main/java/org/commonjava/indy/model/core/ArtifactStore.java:144 | after the `this == obj` check, `obj.getClass()` is called without a null check | `store.equals(null)` throws a NullPointerException | return false, as Java's `Object.equals` contract requires for a null argument | not executed | ArtifactStores.ArtifactStore.EqualsAsWritten (discrepancy shown by ArtifactStores.EqualsNullDiscrepancy) | ArtifactStores.ArtifactStore.Equals |
