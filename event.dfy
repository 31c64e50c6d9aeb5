/**
 * The decoded records (event.go). Every record is a plain value; the
 * decoders start from the zero values below and fill fields in.
 *
 * A Go map field starts nil and nil is observably different from an empty
 * map, so a map field is an Option: None is the nil map. A Go slice that is
 * only ever grown by append is nil exactly when it is empty, so slices are
 * plain sequences.
 */
module Events {
  import opened Errors

  /**
   * An instant as the RFC 3339 parser returns it, kept opaque; ZeroTime
   * stands for Go's zero time.Time.
   */
  type Instant = int

  const ZeroTime: Instant := 0

  /**
   * time.Parse(time.RFC3339Nano, ·), which is outside this model: None is
   * a parse error. The decoders take it as a parameter.
   */
  type TimeParser = string -> Option<Instant>

  /**
   * A value stored in a dynamic map (Go's `any` as these decoders fill it).
   * jx stores a Go `int` and jsontext an `int64`; as `any` values these are
   * different even when the numbers are equal, so they are kept apart.
   */
  datatype MapValue =
    | StrValue(s: string)
    | IntValue(i: int)            // a Go int, from jx's d.Int()
    | Int64Value(i64: int)        // a Go int64, from jsontext's Token.Int()
    | FloatValue(literal: string) // the float64 of a fractional literal, kept opaque

  /** map[string]any; None is the nil map. */
  type DynMap = Option<map<string, MapValue>>

  /** map[string]string; None is the nil map. */
  type StrMap = Option<map<string, string>>

  datatype Sdk = Sdk(Name: string, Version: string)

  datatype Frame = Frame(
    Filename: string,
    AbsPath: string,
    Module: string,
    Function: string,
    LineNum: int,
    CtxLine: string,
    PreCtx: seq<string>,
    PostCtx: seq<string>,
    Vars: DynMap,
    InApp: bool)

  datatype Exception = Exception(Module: string, Type: string, Value: string, Frames: seq<Frame>)

  datatype Event = Event(
    SDK: Sdk,
    Platform: string,
    ServerName: string,
    Environment: string,
    Release: string,
    Level: string,
    Contexts: DynMap,
    Extra: DynMap,
    User: DynMap,
    Tags: StrMap,
    EventID: string,
    Message: string,
    Exception: seq<Exception>,
    Timestamp: Instant)

  const ZeroSdk := Sdk("", "")

  const ZeroFrame := Frame("", "", "", "", 0, "", [], [], None, false)

  const ZeroException := Exception("", "", "", [])

  const ZeroEvent := Event(ZeroSdk, "", "", "", "", "", None, None, None, None, "", "", [], ZeroTime)

  /** `(*dst)[key] = v` on a map that has already been made. */
  function Store(dst: DynMap, key: string, v: MapValue): (r: DynMap)
    requires dst.Some?
    ensures r.Some? && r.value.Keys == dst.value.Keys + {key} && r.value[key] == v
    ensures forall k | k in dst.value && k != key :: r.value[k] == dst.value[k]
  {
    Some(dst.value[key := v])
  }

  /** `if *dst == nil { *dst = make(...) }`, done at the start of each member. */
  function Made<V>(dst: Option<map<string, V>>): (r: Option<map<string, V>>)
    ensures r.Some?
    ensures dst.Some? ==> r == dst
    ensures dst.None? ==> r.value == map[]
  {
    if dst.None? then Some(map[]) else dst
  }
}
