/**
 * The versioned external form of an ArtifactStore. An object stream is
 * modelled as a sequence of tokens: a primitive `int` or `boolean`, or one
 * whole object written by `writeObject` (possibly null). Encode is the
 * token sequence writeExternal produces; Decode is what readExternal
 * makes of a token sequence, including its version guard and the casts it
 * performs on each object it reads.
 */
module StoreStream {
  import opened Wrappers
  import opened StoreTypes

  /** The newest format this reader understands, and the one every writer emits. */
  const ARTIFACT_STORE_VERSION: int32 := 1

  /** The number of tokens writeExternal emits: the version and ten fields. */
  const FIELD_TOKENS: nat := 11

  /** An object as `writeObject` writes it and `readObject` returns it. */
  datatype Obj =
    | NullObj
    | KeyObj(key: StoreKey)
    | StringObj(s: string)
    | StringMapObj(m: map<string, string>)
    | StringSetObj(ss: set<string>)
    | BooleanObj(b: bool)

  datatype Token = IntTok(i: int32) | BoolTok(b: bool) | ObjTok(o: Obj)

  /** Why a read fails, each at the position of the token that caused it. */
  datatype ReadError =
    | VersionUnsupported(version: int32)  // the IOException thrown for a newer version
    | EndOfStream(pos: nat)
    | WrongKind(pos: nat)                 // a primitive where an object is expected, or the reverse
    | ClassCast(pos: nat)                 // an object of the wrong class for the field's cast
    | NoSuchPathStyle(name: string)       // PathStyle.valueOf of an unknown name

  // ---- writing -------------------------------------------------------------

  function KeyToObj(k: Option<StoreKey>): (r: Obj) {
    if k.Some? then KeyObj(k.value) else NullObj
  }

  function StringToObj(s: Option<string>): (r: Obj) {
    if s.Some? then StringObj(s.value) else NullObj
  }

  function MapToObj(m: Option<map<string, string>>): (r: Obj) {
    if m.Some? then StringMapObj(m.value) else NullObj
  }

  function SetToObj(ss: Option<set<string>>): (r: Obj) {
    if ss.Some? then StringSetObj(ss.value) else NullObj
  }

  function BooleanToObj(b: Option<bool>): (r: Obj) {
    if b.Some? then BooleanObj(b.value) else NullObj
  }

  /** A path style is written by name, and null as null. */
  function PathStyleToObj(p: Option<PathStyle>): (r: Obj) {
    if p.Some? then StringObj(PathStyleName(p.value)) else NullObj
  }

  /** The tokens writeExternal emits, in order, always led by the current version. */
  function Encode(p: Persisted): (r: seq<Token>)
    ensures |r| == FIELD_TOKENS
    ensures r[0] == IntTok(ARTIFACT_STORE_VERSION)
    ensures r[4] == BoolTok(p.disabled) && r[5] == IntTok(p.disableTimeout)
  {
    [ IntTok(ARTIFACT_STORE_VERSION),
      ObjTok(KeyToObj(p.key)),
      ObjTok(StringToObj(p.description)),
      ObjTok(MapToObj(p.metadata)),
      BoolTok(p.disabled),
      IntTok(p.disableTimeout),
      ObjTok(PathStyleToObj(p.pathStyle)),
      ObjTok(SetToObj(p.pathMaskPatterns)),
      ObjTok(BooleanToObj(p.authoritativeIndex)),
      ObjTok(StringToObj(p.createTime)),
      ObjTok(BooleanToObj(p.rescanInProgress)) ]
  }

  // ---- reading -------------------------------------------------------------

  /** `readInt` at `pos`. */
  function IntAt(ts: seq<Token>, pos: nat): (r: Result<int32, ReadError>) {
    if pos >= |ts| then Failure(EndOfStream(pos))
    else if ts[pos].IntTok? then Success(ts[pos].i)
    else Failure(WrongKind(pos))
  }

  /** `readBoolean` at `pos`. */
  function BoolAt(ts: seq<Token>, pos: nat): (r: Result<bool, ReadError>) {
    if pos >= |ts| then Failure(EndOfStream(pos))
    else if ts[pos].BoolTok? then Success(ts[pos].b)
    else Failure(WrongKind(pos))
  }

  /** `readObject` at `pos`. */
  function ObjAt(ts: seq<Token>, pos: nat): (r: Result<Obj, ReadError>) {
    if pos >= |ts| then Failure(EndOfStream(pos))
    else if ts[pos].ObjTok? then Success(ts[pos].o)
    else Failure(WrongKind(pos))
  }

  // The casts readExternal applies; a cast lets null through.

  function AsKey(o: Obj, pos: nat): (r: Result<Option<StoreKey>, ReadError>) {
    match o
    case NullObj => Success(None)
    case KeyObj(k) => Success(Some(k))
    case _ => Failure(ClassCast(pos))
  }

  function AsString(o: Obj, pos: nat): (r: Result<Option<string>, ReadError>) {
    match o
    case NullObj => Success(None)
    case StringObj(s) => Success(Some(s))
    case _ => Failure(ClassCast(pos))
  }

  function AsMap(o: Obj, pos: nat): (r: Result<Option<map<string, string>>, ReadError>) {
    match o
    case NullObj => Success(None)
    case StringMapObj(m) => Success(Some(m))
    case _ => Failure(ClassCast(pos))
  }

  function AsSet(o: Obj, pos: nat): (r: Result<Option<set<string>>, ReadError>) {
    match o
    case NullObj => Success(None)
    case StringSetObj(ss) => Success(Some(ss))
    case _ => Failure(ClassCast(pos))
  }

  function AsBoolean(o: Obj, pos: nat): (r: Result<Option<bool>, ReadError>) {
    match o
    case NullObj => Success(None)
    case BooleanObj(b) => Success(Some(b))
    case _ => Failure(ClassCast(pos))
  }

  /** A null path style stays null; otherwise the string is looked up by name. */
  function AsPathStyle(o: Obj, pos: nat): (r: Result<Option<PathStyle>, ReadError>)
    ensures o == NullObj ==> r == Success(None)
    ensures forall p :: o == StringObj(PathStyleName(p)) ==> r == Success(Some(p))
    ensures o.StringObj? && PathStyleValueOf(o.s).None? ==> r == Failure(NoSuchPathStyle(o.s))
    ensures !o.NullObj? && !o.StringObj? ==> r == Failure(ClassCast(pos))
  {
    match o
    case NullObj => Success(None)
    case StringObj(s) =>
      var p := PathStyleValueOf(s);
      if p.Some? then Success(p) else Failure(NoSuchPathStyle(s))
    case _ => Failure(ClassCast(pos))
  }

  // One field read: `readObject` followed by the field's cast.

  function KeyAt(ts: seq<Token>, pos: nat): (r: Result<Option<StoreKey>, ReadError>) {
    var o :- ObjAt(ts, pos);
    AsKey(o, pos)
  }

  function StringAt(ts: seq<Token>, pos: nat): (r: Result<Option<string>, ReadError>) {
    var o :- ObjAt(ts, pos);
    AsString(o, pos)
  }

  function MapAt(ts: seq<Token>, pos: nat): (r: Result<Option<map<string, string>>, ReadError>) {
    var o :- ObjAt(ts, pos);
    AsMap(o, pos)
  }

  function PathStyleAt(ts: seq<Token>, pos: nat): (r: Result<Option<PathStyle>, ReadError>) {
    var o :- ObjAt(ts, pos);
    AsPathStyle(o, pos)
  }

  function SetAt(ts: seq<Token>, pos: nat): (r: Result<Option<set<string>>, ReadError>) {
    var o :- ObjAt(ts, pos);
    AsSet(o, pos)
  }

  function BooleanAt(ts: seq<Token>, pos: nat): (r: Result<Option<bool>, ReadError>) {
    var o :- ObjAt(ts, pos);
    AsBoolean(o, pos)
  }

  /**
   * readExternal on the tokens from `start` on. A leading version newer
   * than ARTIFACT_STORE_VERSION fails before any field is read; any older
   * or equal version is read with the same layout. Tokens after the last
   * field are left for whoever reads next.
   */
  function Decode(ts: seq<Token>, start: nat): (r: Result<Persisted, ReadError>)
    ensures start < |ts| && ts[start].IntTok? && ts[start].i > ARTIFACT_STORE_VERSION
            ==> r == Failure(VersionUnsupported(ts[start].i))
    ensures r.Success? ==> start + FIELD_TOKENS <= |ts|
                           && ts[start].IntTok? && ts[start].i <= ARTIFACT_STORE_VERSION
  {
    var version :- IntAt(ts, start);
    if version > ARTIFACT_STORE_VERSION then Failure(VersionUnsupported(version))
    else
      var key :- KeyAt(ts, start + 1);
      var description :- StringAt(ts, start + 2);
      var metadata :- MapAt(ts, start + 3);
      var disabled :- BoolAt(ts, start + 4);
      var disableTimeout :- IntAt(ts, start + 5);
      var pathStyle :- PathStyleAt(ts, start + 6);
      var pathMaskPatterns :- SetAt(ts, start + 7);
      var authoritativeIndex :- BooleanAt(ts, start + 8);
      var createTime :- StringAt(ts, start + 9);
      var rescanInProgress :- BooleanAt(ts, start + 10);
      Success(Persisted(key, description, metadata, disabled, disableTimeout, pathStyle,
                        pathMaskPatterns, authoritativeIndex, createTime, rescanInProgress))
  }

  /** Each cast undoes the conversion writeExternal applied to its field. */
  lemma CastsUndoWrites(p: Persisted, pos: nat)
    ensures AsKey(KeyToObj(p.key), pos) == Success(p.key)
    ensures AsString(StringToObj(p.description), pos) == Success(p.description)
    ensures AsMap(MapToObj(p.metadata), pos) == Success(p.metadata)
    ensures AsPathStyle(PathStyleToObj(p.pathStyle), pos) == Success(p.pathStyle)
    ensures AsSet(SetToObj(p.pathMaskPatterns), pos) == Success(p.pathMaskPatterns)
    ensures AsBoolean(BooleanToObj(p.authoritativeIndex), pos) == Success(p.authoritativeIndex)
    ensures AsString(StringToObj(p.createTime), pos) == Success(p.createTime)
    ensures AsBoolean(BooleanToObj(p.rescanInProgress), pos) == Success(p.rescanInProgress)
  {
  }

  /**
   * Reading the ten fields from a stream whose tokens after the version
   * are those writeExternal wrote gives back the written fields.
   */
  lemma FieldsReadBack(p: Persisted, ts: seq<Token>, start: nat)
    requires start + FIELD_TOKENS <= |ts|
    requires ts[start].IntTok? && ts[start].i <= ARTIFACT_STORE_VERSION
    requires ts[start + 1..start + FIELD_TOKENS] == Encode(p)[1..]
    ensures Decode(ts, start) == Success(p)
  {
    var e := Encode(p);
    var tail := ts[start + 1..start + FIELD_TOKENS];
    assert ts[start + 1] == tail[0] == e[1];
    assert ts[start + 2] == tail[1] == e[2];
    assert ts[start + 3] == tail[2] == e[3];
    assert ts[start + 4] == tail[3] == e[4];
    assert ts[start + 5] == tail[4] == e[5];
    assert ts[start + 6] == tail[5] == e[6];
    assert ts[start + 7] == tail[6] == e[7];
    assert ts[start + 8] == tail[7] == e[8];
    assert ts[start + 9] == tail[8] == e[9];
    assert ts[start + 10] == tail[9] == e[10];
    CastsUndoWrites(p, 0);
    assert ObjAt(ts, start + 1) == Success(KeyToObj(p.key));
    assert ObjAt(ts, start + 2) == Success(StringToObj(p.description));
    assert ObjAt(ts, start + 3) == Success(MapToObj(p.metadata));
    assert BoolAt(ts, start + 4) == Success(p.disabled);
    assert IntAt(ts, start + 5) == Success(p.disableTimeout);
    assert ObjAt(ts, start + 6) == Success(PathStyleToObj(p.pathStyle));
    assert ObjAt(ts, start + 7) == Success(SetToObj(p.pathMaskPatterns));
    assert ObjAt(ts, start + 8) == Success(BooleanToObj(p.authoritativeIndex));
    assert ObjAt(ts, start + 9) == Success(StringToObj(p.createTime));
    assert ObjAt(ts, start + 10) == Success(BooleanToObj(p.rescanInProgress));
    CastsUndoWrites(p, start + 1);
    CastsUndoWrites(p, start + 2);
    CastsUndoWrites(p, start + 3);
    CastsUndoWrites(p, start + 6);
    CastsUndoWrites(p, start + 7);
    CastsUndoWrites(p, start + 8);
    CastsUndoWrites(p, start + 9);
    CastsUndoWrites(p, start + 10);
  }

  /**
   * Round trip: reading back what writeExternal wrote restores every
   * persisted field exactly, whatever follows it in the stream.
   */
  lemma RoundTrip(p: Persisted, rest: seq<Token>)
    ensures Decode(Encode(p) + rest, 0) == Success(p)
  {
    var ts := Encode(p) + rest;
    assert ts[1..FIELD_TOKENS] == Encode(p)[1..];
    FieldsReadBack(p, ts, 0);
  }

  /**
   * The version guard admits every version up to the current one: a stream
   * that differs from a written one only in an older leading version reads
   * back the same fields.
   */
  lemma OlderVersionAccepted(p: Persisted, version: int32, rest: seq<Token>)
    requires version <= ARTIFACT_STORE_VERSION
    ensures Decode([IntTok(version)] + Encode(p)[1..] + rest, 0) == Success(p)
  {
    var ts := [IntTok(version)] + Encode(p)[1..] + rest;
    assert ts[1..FIELD_TOKENS] == Encode(p)[1..];
    FieldsReadBack(p, ts, 0);
  }

  /** Eleven single writes append the eleven tokens in order. */
  lemma AppendEleven<T>(w: seq<T>, t0: T, t1: T, t2: T, t3: T, t4: T, t5: T, t6: T, t7: T, t8: T, t9: T, t10: T)
    ensures w + [t0] + [t1] + [t2] + [t3] + [t4] + [t5] + [t6] + [t7] + [t8] + [t9] + [t10]
         == w + [t0, t1, t2, t3, t4, t5, t6, t7, t8, t9, t10]
  {
  }

  // ---- the streams ---------------------------------------------------------

  /** An ObjectOutput: everything written so far. */
  class ObjectOutput {
    var written: seq<Token>

    constructor ()
      ensures written == []
    {
      written := [];
    }

    method WriteInt(i: int32)
      modifies this
      ensures written == old(written) + [IntTok(i)]
    {
      written := written + [IntTok(i)];
    }

    method WriteBoolean(b: bool)
      modifies this
      ensures written == old(written) + [BoolTok(b)]
    {
      written := written + [BoolTok(b)];
    }

    method WriteObject(o: Obj)
      modifies this
      ensures written == old(written) + [ObjTok(o)]
    {
      written := written + [ObjTok(o)];
    }
  }
}
