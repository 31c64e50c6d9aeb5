/**
 * The jx backend (decode_jx.go).
 *
 * jx drives decoding by callbacks: `d.ObjBytes(f)` checks for '{', calls
 * `f` once per member with the key already read and stops at '}' or at the
 * first error `f` returns; `d.Arr(f)` does the same per array element. Here
 * each decoder is written twice:
 *
 *  - a function on the unconsumed tokens (`...From`), which is the
 *    specification: the ObjBytes / Arr iteration is a recursive function
 *    over the remaining members or elements, the callback a member function;
 *  - a method on a Cursor (`Decode...`) with the iteration as a loop,
 *    proved to leave the cursor, build the value and report the status
 *    exactly as the function says.
 *
 * What the functions mean on whole JSON values is proved in DecodeJxProofs.
 */
module DecodeJx {
  import opened Errors
  import opened TokenStream
  import opened Events
  import opened Cursor
  import Reference

  // =====================================================================
  // jx's scalar reads: d.Str(), d.Int(), d.Bool(). Each fails without
  // consuming when the next token has another kind, and then yields the
  // zero value.

  function StrFrom(ts: seq<Token>): (r: Outcome<string>)
    ensures r.status.Ok? <==> KindOf(ts) == KStr
    ensures r.status.Ok? ==> r.value == ts[0].s && r.rest == ts[1..]
    ensures !r.status.Ok? ==> r.value == "" && r.rest == ts && r.status.Fail?
  {
    if ts == [] then Outcome("", ts, Failure(Malformed))
    else if ts[0].Str? then Outcome(ts[0].s, ts[1..], Ok)
    else Outcome("", ts, Failure(UnexpectedKind))
  }

  /** d.Int(): only an integer literal is accepted. */
  function IntFrom(ts: seq<Token>): (r: Outcome<int>)
    ensures r.status.Ok? <==> KindOf(ts) == KNum && ts[0].n.integral
    ensures r.status.Ok? ==> r.value == ts[0].n.intValue && r.rest == ts[1..]
    ensures !r.status.Ok? ==> r.value == 0 && r.rest == ts && r.status.Fail?
  {
    if ts == [] then Outcome(0, ts, Failure(Malformed))
    else if ts[0].Num? && ts[0].n.integral then Outcome(ts[0].n.intValue, ts[1..], Ok)
    else Outcome(0, ts, Failure(UnexpectedKind))
  }

  function BoolFrom(ts: seq<Token>): (r: Outcome<bool>)
    ensures r.status.Ok? <==> KindOf(ts) == KBool
    ensures r.status.Ok? ==> r.value == ts[0].b && r.rest == ts[1..]
    ensures !r.status.Ok? ==> !r.value && r.rest == ts && r.status.Fail?
  {
    if ts == [] then Outcome(false, ts, Failure(Malformed))
    else if ts[0].Bool? then Outcome(ts[0].b, ts[1..], Ok)
    else Outcome(false, ts, Failure(UnexpectedKind))
  }

  /** The failure of ObjBytes or Arr when the opening delimiter is missing. */
  function OpenFailure(ts: seq<Token>): Status
  {
    Failure(if ts == [] then Malformed else UnexpectedKind)
  }

  // =====================================================================
  // Context lines (jxDecodeContextLines): an array of strings appended to
  // *dst in order; a non-string element is an error, not wrapped.

  function ContextLinesFrom(ts: seq<Token>, acc: seq<string>): (r: Outcome<seq<string>>)
    ensures |r.rest| <= |ts|
    ensures r.status.Ok? ==> |r.rest| < |ts|
    ensures acc <= r.value
    ensures KindOf(ts) != KArrStart ==> r == Outcome(acc, ts, OpenFailure(ts))
  {
    if ts == [] || ts[0] != ArrStart then Outcome(acc, ts, OpenFailure(ts))
    else ContextLineElemsFrom(ts[1..], acc)
  }

  function ContextLineElemsFrom(ts: seq<Token>, acc: seq<string>): (r: Outcome<seq<string>>)
    ensures |r.rest| <= |ts|
    ensures acc <= r.value
    decreases |ts|
  {
    if ts == [] then Outcome(acc, ts, Failure(Malformed))
    else if ts[0] == ArrEnd then Outcome(acc, ts[1..], Ok)
    else
      var s := StrFrom(ts);
      if s.status.Ok? then ContextLineElemsFrom(s.rest, acc + [s.value])
      else Outcome(acc, s.rest, s.status)
  }

  // =====================================================================
  // Dynamic maps (jxDecodeMap): nested objects are flattened into the same
  // map under `prefix + key + "."`; the map is made at the first member.
  // A number is stored as d.Int() gives it, else as d.Float64() does: the
  // jx rule of Reference.LeafNumber.

  function MapFrom(ts: seq<Token>, dst: DynMap, prefix: string): (r: Outcome<DynMap>)
    ensures |r.rest| <= |ts|
    ensures r.status.Ok? ==> |r.rest| < |ts|
    ensures dst.Some? ==> r.value.Some? && dst.value.Keys <= r.value.value.Keys
    ensures KindOf(ts) != KObjStart ==> r == Outcome(dst, ts, OpenFailure(ts))
    decreases |ts|, 1
  {
    if ts == [] || ts[0] != ObjStart then Outcome(dst, ts, OpenFailure(ts))
    else MapMembersFrom(ts[1..], dst, prefix)
  }

  function MapMembersFrom(ts: seq<Token>, dst: DynMap, prefix: string): (r: Outcome<DynMap>)
    ensures |r.rest| <= |ts|
    ensures dst.Some? ==> r.value.Some? && dst.value.Keys <= r.value.value.Keys
    ensures KindOf(ts) == KStr ==> r.value.Some?
    decreases |ts|, 0
  {
    if ts == [] then Outcome(dst, ts, Failure(Malformed))
    else match ts[0]
      case ObjEnd => Outcome(dst, ts[1..], Ok)
      case Str(k) =>
        var x := MapValueFrom(ts[1..], Made(dst), prefix, k);
        if x.status.Ok? then MapMembersFrom(x.rest, x.value, prefix)
        else x
      case _ => Outcome(dst, ts, Failure(Malformed))
  }

  /**
   * The value of member `k`, stored into the made map `dst`: numbers and
   * strings under `prefix + k`, an object flattened under `prefix + k + "."`;
   * any other value is an error naming the key.
   */
  function MapValueFrom(ts: seq<Token>, dst: DynMap, prefix: string, k: string): (r: Outcome<DynMap>)
    requires dst.Some?
    ensures |r.rest| <= |ts|
    ensures r.status.Ok? ==> |r.rest| < |ts|
    ensures r.value.Some? && dst.value.Keys <= r.value.value.Keys
    ensures r.status.Fail? ==> |r.status.error.path| > 0 && r.status.error.path[0] == Key(k)
    decreases |ts|, 2
  {
    if ts == [] then Outcome(dst, ts, Fail(Error([Key(k)], UnsupportedValue)))
    else match ts[0]
      case Num(n) => Outcome(Store(dst, prefix + k, Reference.LeafNumber(Reference.Jx, n)), ts[1..], Ok)
      case Str(s) => Outcome(Store(dst, prefix + k, StrValue(s)), ts[1..], Ok)
      case ObjStart =>
        var sub := MapFrom(ts, dst, prefix + k + ".");
        Outcome(sub.value, sub.rest, Wrap(sub.status, Key(k)))
      case _ => Outcome(dst, ts, Fail(Error([Key(k)], UnsupportedValue)))
  }

  // =====================================================================
  // String maps (jxDecodeStrMap): every value must be a string, stored
  // verbatim under its key; the map is made at the first member.

  function StrMapFrom(ts: seq<Token>, dst: StrMap): (r: Outcome<StrMap>)
    ensures |r.rest| <= |ts|
    ensures r.status.Ok? ==> |r.rest| < |ts|
    ensures dst.Some? ==> r.value.Some? && dst.value.Keys <= r.value.value.Keys
    ensures KindOf(ts) != KObjStart ==> r == Outcome(dst, ts, OpenFailure(ts))
  {
    if ts == [] || ts[0] != ObjStart then Outcome(dst, ts, OpenFailure(ts))
    else StrMapMembersFrom(ts[1..], dst)
  }

  function StrMapMembersFrom(ts: seq<Token>, dst: StrMap): (r: Outcome<StrMap>)
    ensures |r.rest| <= |ts|
    ensures dst.Some? ==> r.value.Some? && dst.value.Keys <= r.value.value.Keys
    ensures KindOf(ts) == KStr ==> r.value.Some?
    decreases |ts|
  {
    if ts == [] then Outcome(dst, ts, Failure(Malformed))
    else match ts[0]
      case ObjEnd => Outcome(dst, ts[1..], Ok)
      case Str(k) =>
        var m := Made(dst);
        var s := StrFrom(ts[1..]);
        if s.status.Ok? then StrMapMembersFrom(s.rest, Some(m.value[k := s.value]))
        else Outcome(m, s.rest, Wrap(s.status, Key(k)))
      case _ => Outcome(dst, ts, Failure(Malformed))
  }

  // =====================================================================
  // Frame.Decode

  function FrameFrom(ts: seq<Token>, f: Frame): (r: Outcome<Frame>)
    ensures |r.rest| <= |ts|
    ensures r.status.Ok? ==> |r.rest| < |ts|
    ensures r.value.PostCtx == f.PostCtx
    ensures KindOf(ts) != KObjStart ==> r == Outcome(f, ts, OpenFailure(ts))
  {
    if ts == [] || ts[0] != ObjStart then Outcome(f, ts, OpenFailure(ts))
    else FrameMembersFrom(ts[1..], f)
  }

  function FrameMembersFrom(ts: seq<Token>, f: Frame): (r: Outcome<Frame>)
    ensures |r.rest| <= |ts|
    ensures r.value.PostCtx == f.PostCtx
    decreases |ts|
  {
    if ts == [] then Outcome(f, ts, Failure(Malformed))
    else match ts[0]
      case ObjEnd => Outcome(f, ts[1..], Ok)
      case Str(k) =>
        var x := FrameMemberFrom(ts[1..], f, k);
        if x.status.Ok? then FrameMembersFrom(x.rest, x.value)
        else Outcome(x.value, x.rest, Wrap(x.status, Key(k)))
      case _ => Outcome(f, ts, Failure(Malformed))
  }

  /** The ObjBytes callback of Frame.Decode: the switch on the key. */
  function FrameMemberFrom(ts: seq<Token>, f: Frame, key: string): (r: Outcome<Frame>)
    ensures |r.rest| <= |ts|
    ensures r.value.PostCtx == f.PostCtx
  {
    match key
    case "filename" => var x := StrFrom(ts); Outcome(f.(Filename := x.value), x.rest, x.status)
    case "abs_path" => var x := StrFrom(ts); Outcome(f.(AbsPath := x.value), x.rest, x.status)
    case "module" => var x := StrFrom(ts); Outcome(f.(Module := x.value), x.rest, x.status)
    case "function" => var x := StrFrom(ts); Outcome(f.(Function := x.value), x.rest, x.status)
    case "lineno" => var x := IntFrom(ts); Outcome(f.(LineNum := x.value), x.rest, x.status)
    case "context_line" => var x := StrFrom(ts); Outcome(f.(CtxLine := x.value), x.rest, x.status)
    case "pre_context" =>
      var x := ContextLinesFrom(ts, f.PreCtx); Outcome(f.(PreCtx := x.value), x.rest, x.status)
    case "post_context" =>
      // post_context lines go to PreCtx as well
      var x := ContextLinesFrom(ts, f.PreCtx); Outcome(f.(PreCtx := x.value), x.rest, x.status)
    case "in_app" => var x := BoolFrom(ts); Outcome(f.(InApp := x.value), x.rest, x.status)
    case "vars" => var x := MapFrom(ts, f.Vars, ""); Outcome(f.(Vars := x.value), x.rest, x.status)
    case _ => SkipFrom(ts, f)
  }

  // =====================================================================
  // Frames.Decode: elements decoded from a zero Frame and appended in
  // document order; element k's failure is wrapped with "[k]".

  function FramesFrom(ts: seq<Token>, acc: seq<Frame>): (r: Outcome<seq<Frame>>)
    ensures |r.rest| <= |ts|
    ensures r.status.Ok? ==> |r.rest| < |ts|
    ensures acc <= r.value
    ensures KindOf(ts) != KArrStart ==> r == Outcome(acc, ts, OpenFailure(ts))
  {
    if ts == [] || ts[0] != ArrStart then Outcome(acc, ts, OpenFailure(ts))
    else FrameElemsFrom(ts[1..], acc)
  }

  function FrameElemsFrom(ts: seq<Token>, acc: seq<Frame>): (r: Outcome<seq<Frame>>)
    ensures |r.rest| <= |ts|
    ensures acc <= r.value
    decreases |ts|
  {
    if ts == [] then Outcome(acc, ts, Failure(Malformed))
    else if ts[0] == ArrEnd then Outcome(acc, ts[1..], Ok)
    else
      var x := FrameFrom(ts, ZeroFrame);
      if x.status.Ok? then FrameElemsFrom(x.rest, acc + [x.value])
      else Outcome(acc, x.rest, Wrap(x.status, Index(|acc|)))
  }

  // =====================================================================
  // Exception.Decode

  function ExceptionFrom(ts: seq<Token>, e: Exception): (r: Outcome<Exception>)
    ensures |r.rest| <= |ts|
    ensures r.status.Ok? ==> |r.rest| < |ts|
    ensures KindOf(ts) != KObjStart ==> r == Outcome(e, ts, OpenFailure(ts))
  {
    if ts == [] || ts[0] != ObjStart then Outcome(e, ts, OpenFailure(ts))
    else ExceptionMembersFrom(ts[1..], e)
  }

  function ExceptionMembersFrom(ts: seq<Token>, e: Exception): (r: Outcome<Exception>)
    ensures |r.rest| <= |ts|
    decreases |ts|
  {
    if ts == [] then Outcome(e, ts, Failure(Malformed))
    else match ts[0]
      case ObjEnd => Outcome(e, ts[1..], Ok)
      case Str(k) =>
        var x := ExceptionMemberFrom(ts[1..], e, k);
        if x.status.Ok? then ExceptionMembersFrom(x.rest, x.value)
        else Outcome(x.value, x.rest, Wrap(x.status, Key(k)))
      case _ => Outcome(e, ts, Failure(Malformed))
  }

  function ExceptionMemberFrom(ts: seq<Token>, e: Exception, key: string): (r: Outcome<Exception>)
    ensures |r.rest| <= |ts|
  {
    match key
    case "module" => var x := StrFrom(ts); Outcome(e.(Module := x.value), x.rest, x.status)
    case "type" => var x := StrFrom(ts); Outcome(e.(Type := x.value), x.rest, x.status)
    case "value" => var x := StrFrom(ts); Outcome(e.(Value := x.value), x.rest, x.status)
    case "frames" => var x := FramesFrom(ts, e.Frames); Outcome(e.(Frames := x.value), x.rest, x.status)
    case _ => SkipFrom(ts, e)
  }

  // =====================================================================
  // Exceptions.Decode

  function ExceptionsFrom(ts: seq<Token>, acc: seq<Exception>): (r: Outcome<seq<Exception>>)
    ensures |r.rest| <= |ts|
    ensures r.status.Ok? ==> |r.rest| < |ts|
    ensures acc <= r.value
    ensures KindOf(ts) != KArrStart ==> r == Outcome(acc, ts, OpenFailure(ts))
  {
    if ts == [] || ts[0] != ArrStart then Outcome(acc, ts, OpenFailure(ts))
    else ExceptionElemsFrom(ts[1..], acc)
  }

  function ExceptionElemsFrom(ts: seq<Token>, acc: seq<Exception>): (r: Outcome<seq<Exception>>)
    ensures |r.rest| <= |ts|
    ensures acc <= r.value
    decreases |ts|
  {
    if ts == [] then Outcome(acc, ts, Failure(Malformed))
    else if ts[0] == ArrEnd then Outcome(acc, ts[1..], Ok)
    else
      var x := ExceptionFrom(ts, ZeroException);
      if x.status.Ok? then ExceptionElemsFrom(x.rest, acc + [x.value])
      else Outcome(acc, x.rest, Wrap(x.status, Index(|acc|)))
  }

  // =====================================================================
  // The generic Array[T, PT].Decode: the same Arr loop, for any element
  // decoder that starts from T's zero value. Exceptions.Decode and
  // Frames.Decode are its two instances (DecodeJxProofs).

  /** An element decoder never reads backwards, and consumes input when it succeeds. */
  ghost predicate Progresses<T>(decode: seq<Token> -> Outcome<T>)
  {
    forall ts: seq<Token> :: |decode(ts).rest| <= |ts| && (decode(ts).status.Ok? ==> |decode(ts).rest| < |ts|)
  }

  function ArrayFrom<T>(ts: seq<Token>, acc: seq<T>, decode: seq<Token> -> Outcome<T>): (r: Outcome<seq<T>>)
    requires Progresses(decode)
    ensures |r.rest| <= |ts|
    ensures acc <= r.value
  {
    if ts == [] || ts[0] != ArrStart then Outcome(acc, ts, OpenFailure(ts))
    else ArrayElemsFrom(ts[1..], acc, decode)
  }

  function ArrayElemsFrom<T>(ts: seq<Token>, acc: seq<T>, decode: seq<Token> -> Outcome<T>): (r: Outcome<seq<T>>)
    requires Progresses(decode)
    ensures |r.rest| <= |ts|
    ensures acc <= r.value
    decreases |ts|
  {
    if ts == [] then Outcome(acc, ts, Failure(Malformed))
    else if ts[0] == ArrEnd then Outcome(acc, ts[1..], Ok)
    else
      var x := decode(ts);
      if x.status.Ok? then ArrayElemsFrom(x.rest, acc + [x.value], decode)
      else Outcome(acc, x.rest, Wrap(x.status, Index(|acc|)))
  }

  /** The element decoders Frames.Decode and Exceptions.Decode pass to the loop. */
  function FrameElement(ts: seq<Token>): Outcome<Frame>
  {
    FrameFrom(ts, ZeroFrame)
  }

  function ExceptionElement(ts: seq<Token>): Outcome<Exception>
  {
    ExceptionFrom(ts, ZeroException)
  }

  // =====================================================================
  // SDK.Decode

  function SdkFrom(ts: seq<Token>, s: Sdk): (r: Outcome<Sdk>)
    ensures |r.rest| <= |ts|
    ensures r.status.Ok? ==> |r.rest| < |ts|
    ensures KindOf(ts) != KObjStart ==> r == Outcome(s, ts, OpenFailure(ts))
  {
    if ts == [] || ts[0] != ObjStart then Outcome(s, ts, OpenFailure(ts))
    else SdkMembersFrom(ts[1..], s)
  }

  function SdkMembersFrom(ts: seq<Token>, s: Sdk): (r: Outcome<Sdk>)
    ensures |r.rest| <= |ts|
    decreases |ts|
  {
    if ts == [] then Outcome(s, ts, Failure(Malformed))
    else match ts[0]
      case ObjEnd => Outcome(s, ts[1..], Ok)
      case Str(k) =>
        var x := SdkMemberFrom(ts[1..], s, k);
        if x.status.Ok? then SdkMembersFrom(x.rest, x.value)
        else Outcome(x.value, x.rest, Wrap(x.status, Key(k)))
      case _ => Outcome(s, ts, Failure(Malformed))
  }

  function SdkMemberFrom(ts: seq<Token>, s: Sdk, key: string): (r: Outcome<Sdk>)
    ensures |r.rest| <= |ts|
  {
    match key
    case "name" => var x := StrFrom(ts); Outcome(s.(Name := x.value), x.rest, x.status)
    case "version" => var x := StrFrom(ts); Outcome(s.(Version := x.value), x.rest, x.status)
    case _ => SkipFrom(ts, s)
  }

  // =====================================================================
  // Event.Decode

  function EventFrom(ts: seq<Token>, e: Event, parse: TimeParser): (r: Outcome<Event>)
    ensures |r.rest| <= |ts|
    ensures r.status.Ok? ==> |r.rest| < |ts|
    ensures KindOf(ts) != KObjStart ==> r == Outcome(e, ts, OpenFailure(ts))
  {
    if ts == [] || ts[0] != ObjStart then Outcome(e, ts, OpenFailure(ts))
    else EventMembersFrom(ts[1..], e, parse)
  }

  function EventMembersFrom(ts: seq<Token>, e: Event, parse: TimeParser): (r: Outcome<Event>)
    ensures |r.rest| <= |ts|
    decreases |ts|
  {
    if ts == [] then Outcome(e, ts, Failure(Malformed))
    else match ts[0]
      case ObjEnd => Outcome(e, ts[1..], Ok)
      case Str(k) =>
        var x := EventMemberFrom(ts[1..], e, k, parse);
        if x.status.Ok? then EventMembersFrom(x.rest, x.value, parse)
        else Outcome(x.value, x.rest, Wrap(x.status, Key(k)))
      case _ => Outcome(e, ts, Failure(Malformed))
  }

  function EventMemberFrom(ts: seq<Token>, e: Event, key: string, parse: TimeParser): (r: Outcome<Event>)
    ensures |r.rest| <= |ts|
  {
    match key
    case "sdk" => var x := SdkFrom(ts, e.SDK); Outcome(e.(SDK := x.value), x.rest, x.status)
    case "platform" => var x := StrFrom(ts); Outcome(e.(Platform := x.value), x.rest, x.status)
    case "server_name" => var x := StrFrom(ts); Outcome(e.(ServerName := x.value), x.rest, x.status)
    case "environment" => var x := StrFrom(ts); Outcome(e.(Environment := x.value), x.rest, x.status)
    case "release" => var x := StrFrom(ts); Outcome(e.(Release := x.value), x.rest, x.status)
    case "level" => var x := StrFrom(ts); Outcome(e.(Level := x.value), x.rest, x.status)
    case "event_id" => var x := StrFrom(ts); Outcome(e.(EventID := x.value), x.rest, x.status)
    case "message" => var x := StrFrom(ts); Outcome(e.(Message := x.value), x.rest, x.status)
    case "contexts" => var x := MapFrom(ts, e.Contexts, ""); Outcome(e.(Contexts := x.value), x.rest, x.status)
    case "extra" => var x := MapFrom(ts, e.Extra, ""); Outcome(e.(Extra := x.value), x.rest, x.status)
    case "user" => var x := MapFrom(ts, e.User, ""); Outcome(e.(User := x.value), x.rest, x.status)
    case "tags" => var x := StrMapFrom(ts, e.Tags); Outcome(e.(Tags := x.value), x.rest, x.status)
    case "exception" =>
      var x := ExceptionsFrom(ts, e.Exception); Outcome(e.(Exception := x.value), x.rest, x.status)
    case "timestamp" =>
      var x := StrFrom(ts);
      if !x.status.Ok? then Outcome(e, x.rest, x.status)
      else
        var t := parse(x.value);
        if t.Some? then Outcome(e.(Timestamp := t.value), x.rest, Ok)
        else Outcome(e.(Timestamp := ZeroTime), x.rest, Failure(TimestampParse))
    case _ => SkipFrom(ts, e)
  }

  // =====================================================================
  // The methods: the same decoders driving a Cursor.

  method Str(d: Cursor) returns (s: string, st: Status)
    requires d.Valid()
    modifies d
    ensures d.Valid()
    ensures Outcome(s, d.Rest(), st) == StrFrom(old(d.Rest()))
  {
    var k := d.Peek();
    if k == KStr {
      var t := d.Read();
      s, st := t.value.s, Ok;
    } else {
      s, st := "", Failure(if k == KEnd then Malformed else UnexpectedKind);
    }
  }

  method Int(d: Cursor) returns (i: int, st: Status)
    requires d.Valid()
    modifies d
    ensures d.Valid()
    ensures Outcome(i, d.Rest(), st) == IntFrom(old(d.Rest()))
  {
    var k := d.Peek();
    if k == KNum && d.toks[d.pos].n.integral {
      var t := d.Read();
      i, st := t.value.n.intValue, Ok;
    } else {
      i, st := 0, Failure(if k == KEnd then Malformed else UnexpectedKind);
    }
  }

  method Bool(d: Cursor) returns (b: bool, st: Status)
    requires d.Valid()
    modifies d
    ensures d.Valid()
    ensures Outcome(b, d.Rest(), st) == BoolFrom(old(d.Rest()))
  {
    var k := d.Peek();
    if k == KBool {
      var t := d.Read();
      b, st := t.value.b, Ok;
    } else {
      b, st := false, Failure(if k == KEnd then Malformed else UnexpectedKind);
    }
  }

  /** The default branch of every switch: `err = d.Skip()`. */
  method Skip(d: Cursor) returns (st: Status)
    requires d.Valid()
    modifies d
    ensures d.Valid()
    ensures Outcome((), d.Rest(), st) == SkipFrom(old(d.Rest()), ())
  {
    var ok := d.Skip();
    st := if ok then Ok else Failure(Malformed);
  }

  /**
   * The opening step of ObjBytes (open is ObjStart) or Arr (open is
   * ArrStart): consumes the delimiter, or fails without consuming.
   */
  method Open(d: Cursor, open: Token) returns (st: Status)
    requires d.Valid()
    modifies d
    ensures d.Valid()
    ensures var ts := old(d.Rest());
      if ts != [] && ts[0] == open then st == Ok && d.Rest() == ts[1..]
      else st == OpenFailure(ts) && d.Rest() == ts
  {
    if d.pos < |d.toks| && d.toks[d.pos] == open {
      var _ := d.Read();
      st := Ok;
    } else {
      st := OpenFailure(d.Rest());
    }
  }

  /**
   * The step of Arr between elements: true when ']' ended the array
   * (consumed), false when an element follows; an error at the end of input.
   */
  method AtArrayEnd(d: Cursor) returns (done: bool, st: Status)
    requires d.Valid()
    modifies d
    ensures d.Valid()
    ensures var ts := old(d.Rest());
      if ts == [] then done && st == Failure(Malformed) && d.Rest() == ts
      else if ts[0] == ArrEnd then done && st == Ok && d.Rest() == ts[1..]
      else !done && st == Ok && d.Rest() == ts
  {
    var k := d.Peek();
    if k == KEnd {
      done, st := true, Failure(Malformed);
    } else if k == KArrEnd {
      var _ := d.Read();
      done, st := true, Ok;
    } else {
      done, st := false, Ok;
    }
  }

  method DecodeContextLines(d: Cursor, dst: seq<string>) returns (lines: seq<string>, st: Status)
    requires d.Valid()
    modifies d
    ensures d.Valid()
    ensures Outcome(lines, d.Rest(), st) == ContextLinesFrom(old(d.Rest()), dst)
  {
    lines := dst;
    st := Open(d, ArrStart);
    if !st.Ok? {
      return;
    }
    while true
      invariant d.Valid()
      invariant ContextLineElemsFrom(d.Rest(), lines) == ContextLinesFrom(old(d.Rest()), dst)
      decreases |d.Rest()|
    {
      var done;
      done, st := AtArrayEnd(d);
      if done {
        return;
      }
      var s;
      s, st := Str(d);
      if !st.Ok? {
        return;
      }
      lines := lines + [s];
    }
  }

  method DecodeMap(d: Cursor, dst0: DynMap, prefix: string) returns (dst: DynMap, st: Status)
    requires d.Valid()
    modifies d
    ensures d.Valid()
    ensures Outcome(dst, d.Rest(), st) == MapFrom(old(d.Rest()), dst0, prefix)
    decreases |d.Rest()|, 1
  {
    dst := dst0;
    st := Open(d, ObjStart);
    if !st.Ok? {
      return;
    }
    while true
      invariant d.Valid()
      invariant |d.Rest()| < |old(d.Rest())|
      invariant MapMembersFrom(d.Rest(), dst, prefix) == MapFrom(old(d.Rest()), dst0, prefix)
      decreases |d.Rest()|
    {
      var key;
      key, st := d.ReadName();
      if key.None? {
        return;
      }
      dst, st := DecodeMapValue(d, Made(dst), prefix, key.value);
      if !st.Ok? {
        return;
      }
    }
  }

  method DecodeMapValue(d: Cursor, dst0: DynMap, prefix: string, k: string) returns (dst: DynMap, st: Status)
    requires d.Valid() && dst0.Some?
    modifies d
    ensures d.Valid()
    ensures Outcome(dst, d.Rest(), st) == MapValueFrom(old(d.Rest()), dst0, prefix, k)
    decreases |d.Rest()|, 2
  {
    dst := dst0;
    var next := d.Peek();
    if next == KNum {
      var t := d.Read();
      dst, st := Store(dst, prefix + k, Reference.LeafNumber(Reference.Jx, t.value.n)), Ok;
    } else if next == KStr {
      var t := d.Read();
      dst, st := Store(dst, prefix + k, StrValue(t.value.s)), Ok;
    } else if next == KObjStart {
      dst, st := DecodeMap(d, dst, prefix + k + ".");
      st := Wrap(st, Key(k));
    } else {
      st := Fail(Error([Key(k)], UnsupportedValue));
    }
  }

  method DecodeStrMap(d: Cursor, dst0: StrMap) returns (dst: StrMap, st: Status)
    requires d.Valid()
    modifies d
    ensures d.Valid()
    ensures Outcome(dst, d.Rest(), st) == StrMapFrom(old(d.Rest()), dst0)
  {
    dst := dst0;
    st := Open(d, ObjStart);
    if !st.Ok? {
      return;
    }
    while true
      invariant d.Valid()
      invariant StrMapMembersFrom(d.Rest(), dst) == StrMapFrom(old(d.Rest()), dst0)
      decreases |d.Rest()|
    {
      var key;
      key, st := d.ReadName();
      if key.None? {
        return;
      }
      dst := Made(dst);
      var s;
      s, st := Str(d);
      if !st.Ok? {
        st := Wrap(st, Key(key.value));
        return;
      }
      dst := Some(dst.value[key.value := s]);
    }
  }

  method DecodeFrameMember(d: Cursor, f0: Frame, key: string) returns (f: Frame, st: Status)
    requires d.Valid()
    modifies d
    ensures d.Valid()
    ensures Outcome(f, d.Rest(), st) == FrameMemberFrom(old(d.Rest()), f0, key)
  {
    f := f0;
    match key {
      case "filename" => var s; s, st := Str(d); f := f.(Filename := s);
      case "abs_path" => var s; s, st := Str(d); f := f.(AbsPath := s);
      case "module" => var s; s, st := Str(d); f := f.(Module := s);
      case "function" => var s; s, st := Str(d); f := f.(Function := s);
      case "lineno" => var i; i, st := Int(d); f := f.(LineNum := i);
      case "context_line" => var s; s, st := Str(d); f := f.(CtxLine := s);
      case "pre_context" => var lines; lines, st := DecodeContextLines(d, f.PreCtx); f := f.(PreCtx := lines);
      case "post_context" => var lines; lines, st := DecodeContextLines(d, f.PreCtx); f := f.(PreCtx := lines);
      case "in_app" => var b; b, st := Bool(d); f := f.(InApp := b);
      case "vars" => var m; m, st := DecodeMap(d, f.Vars, ""); f := f.(Vars := m);
      case _ => st := Skip(d);
    }
  }

  method DecodeFrame(d: Cursor, f0: Frame) returns (f: Frame, st: Status)
    requires d.Valid()
    modifies d
    ensures d.Valid()
    ensures Outcome(f, d.Rest(), st) == FrameFrom(old(d.Rest()), f0)
  {
    f := f0;
    st := Open(d, ObjStart);
    if !st.Ok? {
      return;
    }
    while true
      invariant d.Valid()
      invariant FrameMembersFrom(d.Rest(), f) == FrameFrom(old(d.Rest()), f0)
      decreases |d.Rest()|
    {
      var key;
      key, st := d.ReadName();
      if key.None? {
        return;
      }
      f, st := DecodeFrameMember(d, f, key.value);
      if !st.Ok? {
        st := Wrap(st, Key(key.value));
        return;
      }
    }
  }

  method DecodeFrames(d: Cursor, dst: seq<Frame>) returns (frames: seq<Frame>, st: Status)
    requires d.Valid()
    modifies d
    ensures d.Valid()
    ensures Outcome(frames, d.Rest(), st) == FramesFrom(old(d.Rest()), dst)
  {
    frames := dst;
    st := Open(d, ArrStart);
    if !st.Ok? {
      return;
    }
    while true
      invariant d.Valid()
      invariant FrameElemsFrom(d.Rest(), frames) == FramesFrom(old(d.Rest()), dst)
      decreases |d.Rest()|
    {
      var done;
      done, st := AtArrayEnd(d);
      if done {
        return;
      }
      var frame;
      frame, st := DecodeFrame(d, ZeroFrame);
      if !st.Ok? {
        st := Wrap(st, Index(|frames|));
        return;
      }
      frames := frames + [frame];
    }
  }

  method DecodeExceptionMember(d: Cursor, e0: Exception, key: string) returns (e: Exception, st: Status)
    requires d.Valid()
    modifies d
    ensures d.Valid()
    ensures Outcome(e, d.Rest(), st) == ExceptionMemberFrom(old(d.Rest()), e0, key)
  {
    e := e0;
    match key {
      case "module" => var s; s, st := Str(d); e := e.(Module := s);
      case "type" => var s; s, st := Str(d); e := e.(Type := s);
      case "value" => var s; s, st := Str(d); e := e.(Value := s);
      case "frames" => var frames; frames, st := DecodeFrames(d, e.Frames); e := e.(Frames := frames);
      case _ => st := Skip(d);
    }
  }

  method DecodeException(d: Cursor, e0: Exception) returns (e: Exception, st: Status)
    requires d.Valid()
    modifies d
    ensures d.Valid()
    ensures Outcome(e, d.Rest(), st) == ExceptionFrom(old(d.Rest()), e0)
  {
    e := e0;
    st := Open(d, ObjStart);
    if !st.Ok? {
      return;
    }
    while true
      invariant d.Valid()
      invariant ExceptionMembersFrom(d.Rest(), e) == ExceptionFrom(old(d.Rest()), e0)
      decreases |d.Rest()|
    {
      var key;
      key, st := d.ReadName();
      if key.None? {
        return;
      }
      e, st := DecodeExceptionMember(d, e, key.value);
      if !st.Ok? {
        st := Wrap(st, Key(key.value));
        return;
      }
    }
  }

  method DecodeExceptions(d: Cursor, dst: seq<Exception>) returns (exceptions: seq<Exception>, st: Status)
    requires d.Valid()
    modifies d
    ensures d.Valid()
    ensures Outcome(exceptions, d.Rest(), st) == ExceptionsFrom(old(d.Rest()), dst)
  {
    exceptions := dst;
    st := Open(d, ArrStart);
    if !st.Ok? {
      return;
    }
    while true
      invariant d.Valid()
      invariant ExceptionElemsFrom(d.Rest(), exceptions) == ExceptionsFrom(old(d.Rest()), dst)
      decreases |d.Rest()|
    {
      var done;
      done, st := AtArrayEnd(d);
      if done {
        return;
      }
      var exc;
      exc, st := DecodeException(d, ZeroException);
      if !st.Ok? {
        st := Wrap(st, Index(|exceptions|));
        return;
      }
      exceptions := exceptions + [exc];
    }
  }

  method DecodeSdkMember(d: Cursor, s0: Sdk, key: string) returns (s: Sdk, st: Status)
    requires d.Valid()
    modifies d
    ensures d.Valid()
    ensures Outcome(s, d.Rest(), st) == SdkMemberFrom(old(d.Rest()), s0, key)
  {
    s := s0;
    match key {
      case "name" => var x; x, st := Str(d); s := s.(Name := x);
      case "version" => var x; x, st := Str(d); s := s.(Version := x);
      case _ => st := Skip(d);
    }
  }

  method DecodeSdk(d: Cursor, s0: Sdk) returns (s: Sdk, st: Status)
    requires d.Valid()
    modifies d
    ensures d.Valid()
    ensures Outcome(s, d.Rest(), st) == SdkFrom(old(d.Rest()), s0)
  {
    s := s0;
    st := Open(d, ObjStart);
    if !st.Ok? {
      return;
    }
    while true
      invariant d.Valid()
      invariant SdkMembersFrom(d.Rest(), s) == SdkFrom(old(d.Rest()), s0)
      decreases |d.Rest()|
    {
      var key;
      key, st := d.ReadName();
      if key.None? {
        return;
      }
      s, st := DecodeSdkMember(d, s, key.value);
      if !st.Ok? {
        st := Wrap(st, Key(key.value));
        return;
      }
    }
  }

  method DecodeEventMember(d: Cursor, e0: Event, key: string, parse: TimeParser) returns (e: Event, st: Status)
    requires d.Valid()
    modifies d
    ensures d.Valid()
    ensures Outcome(e, d.Rest(), st) == EventMemberFrom(old(d.Rest()), e0, key, parse)
  {
    e := e0;
    match key {
      case "sdk" => var s; s, st := DecodeSdk(d, e.SDK); e := e.(SDK := s);
      case "platform" => var s; s, st := Str(d); e := e.(Platform := s);
      case "server_name" => var s; s, st := Str(d); e := e.(ServerName := s);
      case "environment" => var s; s, st := Str(d); e := e.(Environment := s);
      case "release" => var s; s, st := Str(d); e := e.(Release := s);
      case "level" => var s; s, st := Str(d); e := e.(Level := s);
      case "event_id" => var s; s, st := Str(d); e := e.(EventID := s);
      case "message" => var s; s, st := Str(d); e := e.(Message := s);
      case "contexts" => var m; m, st := DecodeMap(d, e.Contexts, ""); e := e.(Contexts := m);
      case "extra" => var m; m, st := DecodeMap(d, e.Extra, ""); e := e.(Extra := m);
      case "user" => var m; m, st := DecodeMap(d, e.User, ""); e := e.(User := m);
      case "tags" => var m; m, st := DecodeStrMap(d, e.Tags); e := e.(Tags := m);
      case "exception" => var xs; xs, st := DecodeExceptions(d, e.Exception); e := e.(Exception := xs);
      case "timestamp" =>
        var s;
        s, st := Str(d);
        if st.Ok? {
          var t := parse(s);
          if t.Some? {
            e := e.(Timestamp := t.value);
          } else {
            e, st := e.(Timestamp := ZeroTime), Failure(TimestampParse);
          }
        }
      case _ => st := Skip(d);
    }
  }

  method DecodeEvent(d: Cursor, e0: Event, parse: TimeParser) returns (e: Event, st: Status)
    requires d.Valid()
    modifies d
    ensures d.Valid()
    ensures Outcome(e, d.Rest(), st) == EventFrom(old(d.Rest()), e0, parse)
  {
    e := e0;
    st := Open(d, ObjStart);
    if !st.Ok? {
      return;
    }
    while true
      invariant d.Valid()
      invariant EventMembersFrom(d.Rest(), e, parse) == EventFrom(old(d.Rest()), e0, parse)
      decreases |d.Rest()|
    {
      var key;
      key, st := d.ReadName();
      if key.None? {
        return;
      }
      e, st := DecodeEventMember(d, e, key.value, parse);
      if !st.Ok? {
        st := Wrap(st, Key(key.value));
        return;
      }
    }
  }
}
