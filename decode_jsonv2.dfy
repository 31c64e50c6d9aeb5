/**
 * The jsontext v2 backend (decode_jsonv2.go).
 *
 * Each decoder pulls tokens itself: `PeekKind` to look at the next token,
 * `ReadToken` / `ReadValue` to consume one, `SkipValue` to consume a whole
 * value. As in DecodeJx, every decoder is a function on the unconsumed
 * tokens (the specification, with the `for d.PeekKind() != ...` loops as
 * recursion) and a method on a Cursor proved to agree with it.
 *
 * Where this backend differs from jx:
 *  - a missing '{' or '[' is reported as "expected ...", even at the end
 *    of input (UnexpectedKind);
 *  - v2DecodeStr takes whatever token comes next, as its text;
 *    v2DecodeInt and v2DecodeBool read one token and panic when it has the
 *    wrong kind (Token.Int, Token.Bool);
 *  - SDK, Exception and Frame drop the errors of their fields and carry on;
 *    only Event returns a field's error, wrapped with the raw (quoted) key;
 *  - the dynamic map stores every number through Token.Int, and stops at
 *    the first value of another kind, skipping it and returning.
 */
module DecodeJsonV2 {
  import opened Errors
  import opened TokenStream
  import opened Events
  import opened Cursor

  /**
   * A record key as ReadValue returns it: the raw JSON text of the name,
   * quotes included. Names are modelled without escapes, so this is the
   * name between two quote marks, and two raw keys are equal exactly when
   * the names are.
   */
  function Quoted(k: string): (r: string)
    ensures |r| == |k| + 2 && r[0] == '"' && r[|r| - 1] == '"' && r[1..|r| - 1] == k
  {
    "\"" + k + "\""
  }

  /** PeekKind(...) != '{' / '[': "expected object / array", consuming nothing. */
  const KindFailure := Failure(UnexpectedKind)

  // =====================================================================
  // v2DecodeStr, v2DecodeInt, v2DecodeBool: one ReadToken each.

  /** Any next token, as Token.String(); only the end of input fails. */
  function StrFrom(ts: seq<Token>): (r: Outcome<string>)
    ensures r.status.Ok? <==> ts != []
    ensures ts != [] ==> r.value == Text(ts[0]) && r.rest == ts[1..]
    ensures ts == [] ==> r == Outcome("", ts, Failure(Malformed))
  {
    if ts == [] then Outcome("", ts, Failure(Malformed))
    else Outcome(Text(ts[0]), ts[1..], Ok)
  }

  /** Token.Int() of the next token: its integer view; any other kind panics. */
  function IntFrom(ts: seq<Token>): (r: Outcome<int>)
    ensures r.status.Ok? <==> KindOf(ts) == KNum
    ensures r.status.Ok? ==> r.value == ts[0].n.intValue
    ensures ts != [] ==> r.rest == ts[1..] && (r.status.Ok? || r.status.Panic?)
    ensures ts == [] ==> r == Outcome(0, ts, Failure(Malformed))
  {
    if ts == [] then Outcome(0, ts, Failure(Malformed))
    else if ts[0].Num? then Outcome(ts[0].n.intValue, ts[1..], Ok)
    else Outcome(0, ts[1..], Panic)
  }

  /** Token.Bool() of the next token; any other kind panics. */
  function BoolFrom(ts: seq<Token>): (r: Outcome<bool>)
    ensures r.status.Ok? <==> KindOf(ts) == KBool
    ensures r.status.Ok? ==> r.value == ts[0].b
    ensures ts != [] ==> r.rest == ts[1..] && (r.status.Ok? || r.status.Panic?)
    ensures ts == [] ==> r == Outcome(false, ts, Failure(Malformed))
  {
    if ts == [] then Outcome(false, ts, Failure(Malformed))
    else if ts[0].Bool? then Outcome(ts[0].b, ts[1..], Ok)
    else Outcome(false, ts[1..], Panic)
  }

  // =====================================================================
  // v2DecodeContextLines: every token up to ']' is appended as its text.

  function ContextLinesFrom(ts: seq<Token>, acc: seq<string>): (r: Outcome<seq<string>>)
    ensures |r.rest| <= |ts|
    ensures r.status.Ok? ==> |r.rest| < |ts|
    ensures !r.status.Panic?
    ensures acc <= r.value
    ensures KindOf(ts) != KArrStart ==> r == Outcome(acc, ts, KindFailure)
  {
    if ts == [] || ts[0] != ArrStart then Outcome(acc, ts, KindFailure)
    else ContextLineElemsFrom(ts[1..], acc)
  }

  function ContextLineElemsFrom(ts: seq<Token>, acc: seq<string>): (r: Outcome<seq<string>>)
    ensures |r.rest| <= |ts|
    ensures !r.status.Panic?
    ensures acc <= r.value
    ensures r.status.Fail? ==> r.rest == [] && r.status == Failure(Malformed)
    decreases |ts|
  {
    if ts == [] then Outcome(acc, ts, Failure(Malformed))
    else if ts[0] == ArrEnd then Outcome(acc, ts[1..], Ok)
    else ContextLineElemsFrom(ts[1..], acc + [Text(ts[0])])
  }

  // =====================================================================
  // v2DecodeMap

  function MapFrom(ts: seq<Token>, dst: DynMap, prefix: string): (r: Outcome<DynMap>)
    ensures |r.rest| <= |ts|
    ensures r.status.Ok? ==> |r.rest| < |ts|
    ensures !r.status.Panic?
    ensures dst.Some? ==> r.value.Some? && dst.value.Keys <= r.value.value.Keys
    ensures KindOf(ts) != KObjStart ==> r == Outcome(dst, ts, KindFailure)
    decreases |ts|, 1
  {
    if ts == [] || ts[0] != ObjStart then Outcome(dst, ts, KindFailure)
    else MapMembersFrom(ts[1..], dst, prefix)
  }

  /**
   * The loop of v2DecodeMap: the map is made before each key is read. A
   * number, string or object value is decoded and the loop goes on; any
   * other value is skipped and ends the call, with the members after it
   * and the closing '}' left unread.
   */
  function MapMembersFrom(ts: seq<Token>, dst: DynMap, prefix: string): (r: Outcome<DynMap>)
    ensures |r.rest| <= |ts|
    ensures !r.status.Panic?
    ensures dst.Some? ==> r.value.Some? && dst.value.Keys <= r.value.value.Keys
    ensures KindOf(ts) != KObjEnd ==> r.value.Some?
    decreases |ts|, 0
  {
    if ts != [] && ts[0] == ObjEnd then Outcome(dst, ts[1..], Ok)
    else
      var m := Made(dst);
      if ts == [] || !ts[0].Str? then Outcome(m, ts, Failure(Malformed))
      else
        var k := ts[0].s;
        var vs := ts[1..];
        if KindOf(vs) in {KNum, KStr, KObjStart} then
          var x := MapValueFrom(vs, m, prefix, k);
          if x.status.Ok? then MapMembersFrom(x.rest, x.value, prefix) else x
        else SkipFrom(vs, m)
  }

  /** A number (Token.Int), string (Token.String) or object value of member `k`. */
  function MapValueFrom(ts: seq<Token>, dst: DynMap, prefix: string, k: string): (r: Outcome<DynMap>)
    requires dst.Some? && KindOf(ts) in {KNum, KStr, KObjStart}
    ensures |r.rest| < |ts| || (r.status.Fail? && r.rest == ts)
    ensures !r.status.Panic?
    ensures r.value.Some? && dst.value.Keys <= r.value.value.Keys
    ensures r.status.Fail? ==> |r.status.error.path| > 0 && r.status.error.path[0] == Key(k)
    decreases |ts|, 2
  {
    match ts[0]
    case Num(n) => Outcome(Store(dst, prefix + k, Int64Value(n.intValue)), ts[1..], Ok)
    case Str(s) => Outcome(Store(dst, prefix + k, StrValue(s)), ts[1..], Ok)
    case ObjStart =>
      var sub := MapFrom(ts, dst, prefix + k + ".");
      Outcome(sub.value, sub.rest, Wrap(sub.status, Key(k)))
  }

  // =====================================================================
  // v2DecodeStrMap

  function StrMapFrom(ts: seq<Token>, dst: StrMap): (r: Outcome<StrMap>)
    ensures |r.rest| <= |ts|
    ensures r.status.Ok? ==> |r.rest| < |ts|
    ensures !r.status.Panic?
    ensures r.status.Fail? ==> r.status.error.path == []
    ensures dst.Some? ==> r.value.Some? && dst.value.Keys <= r.value.value.Keys
    ensures KindOf(ts) != KObjStart ==> r == Outcome(dst, ts, KindFailure)
  {
    if ts == [] || ts[0] != ObjStart then Outcome(dst, ts, KindFailure)
    else StrMapMembersFrom(ts[1..], dst)
  }

  /** A value that is not a string fails with "expected string", unwrapped. */
  function StrMapMembersFrom(ts: seq<Token>, dst: StrMap): (r: Outcome<StrMap>)
    ensures |r.rest| <= |ts|
    ensures !r.status.Panic?
    ensures r.status.Fail? ==> r.status.error.path == []
    ensures dst.Some? ==> r.value.Some? && dst.value.Keys <= r.value.value.Keys
    ensures KindOf(ts) != KObjEnd ==> r.value.Some?
    decreases |ts|
  {
    if ts != [] && ts[0] == ObjEnd then Outcome(dst, ts[1..], Ok)
    else
      var m := Made(dst);
      if ts == [] || !ts[0].Str? then Outcome(m, ts, Failure(Malformed))
      else
        var vs := ts[1..];
        if vs == [] || !vs[0].Str? then Outcome(m, vs, KindFailure)
        else StrMapMembersFrom(vs[1..], Some(m.value[ts[0].s := vs[0].s]))
  }

  // =====================================================================
  // Frame.UnmarshalJSONFrom: a field's error is dropped and the loop goes
  // on; a panic is not recovered.

  function FrameFrom(ts: seq<Token>, f: Frame): (r: Outcome<Frame>)
    ensures |r.rest| <= |ts|
    ensures r.status.Ok? ==> |r.rest| < |ts|
    ensures r.status.Fail? ==> r.status.error.path == []
    ensures r.value.PostCtx == f.PostCtx
    ensures KindOf(ts) != KObjStart ==> r == Outcome(f, ts, KindFailure)
  {
    if ts == [] || ts[0] != ObjStart then Outcome(f, ts, KindFailure)
    else FrameMembersFrom(ts[1..], f)
  }

  function FrameMembersFrom(ts: seq<Token>, f: Frame): (r: Outcome<Frame>)
    ensures |r.rest| <= |ts|
    ensures r.status.Fail? ==> r.status.error.path == []
    ensures r.value.PostCtx == f.PostCtx
    decreases |ts|
  {
    if ts == [] then Outcome(f, ts, Failure(Malformed))
    else match ts[0]
      case ObjEnd => Outcome(f, ts[1..], Ok)
      case Str(k) =>
        var x := FrameMemberFrom(ts[1..], f, k);
        if x.status.Panic? then x else FrameMembersFrom(x.rest, x.value)
      case _ => Outcome(f, ts, Failure(Malformed))
  }

  function FrameMemberFrom(ts: seq<Token>, f: Frame, key: string): (r: Outcome<Frame>)
    ensures |r.rest| <= |ts|
    ensures r.value.PostCtx == f.PostCtx
  {
    match key
    case "filename" => var x := StrFrom(ts); Outcome(f.(Filename := x.value), x.rest, x.status)
    case "abs_path" => var x := StrFrom(ts); Outcome(f.(AbsPath := x.value), x.rest, x.status)
    case "module" => var x := StrFrom(ts); Outcome(f.(Module := x.value), x.rest, x.status)
    case "function" => var x := StrFrom(ts); Outcome(f.(Function := x.value), x.rest, x.status)
    case "lineno" => var x := IntFrom(ts); Outcome(f.(LineNum := x.value), x.rest, x.status)
    case "context_line" => var x := StrFrom(ts); Outcome(f.(CtxLine := x.value), x.rest, x.status)
    case "pre_context" =>
      var x := ContextLinesFrom(ts, f.PreCtx); Outcome(f.(PreCtx := x.value), x.rest, x.status)
    case "post_context" =>
      // post_context lines go to PreCtx as well
      var x := ContextLinesFrom(ts, f.PreCtx); Outcome(f.(PreCtx := x.value), x.rest, x.status)
    case "in_app" => var x := BoolFrom(ts); Outcome(f.(InApp := x.value), x.rest, x.status)
    case "vars" => var x := MapFrom(ts, f.Vars, ""); Outcome(f.(Vars := x.value), x.rest, x.status)
    case _ => SkipFrom(ts, f)
  }

  // =====================================================================
  // Frames.UnmarshalJSONFrom: every token but ']' starts an element, so at
  // the end of input the element itself reports the failure.

  function FramesFrom(ts: seq<Token>, acc: seq<Frame>): (r: Outcome<seq<Frame>>)
    ensures |r.rest| <= |ts|
    ensures r.status.Ok? ==> |r.rest| < |ts|
    ensures acc <= r.value
    ensures KindOf(ts) != KArrStart ==> r == Outcome(acc, ts, KindFailure)
  {
    if ts == [] || ts[0] != ArrStart then Outcome(acc, ts, KindFailure)
    else FrameElemsFrom(ts[1..], acc)
  }

  function FrameElemsFrom(ts: seq<Token>, acc: seq<Frame>): (r: Outcome<seq<Frame>>)
    ensures |r.rest| <= |ts|
    ensures acc <= r.value
    decreases |ts|
  {
    if ts != [] && ts[0] == ArrEnd then Outcome(acc, ts[1..], Ok)
    else
      var x := FrameFrom(ts, ZeroFrame);
      if x.status.Ok? then FrameElemsFrom(x.rest, acc + [x.value])
      else Outcome(acc, x.rest, Wrap(x.status, Index(|acc|)))
  }

  // =====================================================================
  // Exception.UnmarshalJSONFrom: field errors are dropped, as in Frame.

  function ExceptionFrom(ts: seq<Token>, e: Exception): (r: Outcome<Exception>)
    ensures |r.rest| <= |ts|
    ensures r.status.Ok? ==> |r.rest| < |ts|
    ensures r.status.Fail? ==> r.status.error.path == []
    ensures KindOf(ts) != KObjStart ==> r == Outcome(e, ts, KindFailure)
  {
    if ts == [] || ts[0] != ObjStart then Outcome(e, ts, KindFailure)
    else ExceptionMembersFrom(ts[1..], e)
  }

  function ExceptionMembersFrom(ts: seq<Token>, e: Exception): (r: Outcome<Exception>)
    ensures |r.rest| <= |ts|
    ensures r.status.Fail? ==> r.status.error.path == []
    decreases |ts|
  {
    if ts == [] then Outcome(e, ts, Failure(Malformed))
    else match ts[0]
      case ObjEnd => Outcome(e, ts[1..], Ok)
      case Str(k) =>
        var x := ExceptionMemberFrom(ts[1..], e, k);
        if x.status.Panic? then x else ExceptionMembersFrom(x.rest, x.value)
      case _ => Outcome(e, ts, Failure(Malformed))
  }

  function ExceptionMemberFrom(ts: seq<Token>, e: Exception, key: string): (r: Outcome<Exception>)
    ensures |r.rest| <= |ts|
  {
    match key
    case "module" => var x := StrFrom(ts); Outcome(e.(Module := x.value), x.rest, x.status)
    case "type" => var x := StrFrom(ts); Outcome(e.(Type := x.value), x.rest, x.status)
    case "value" => var x := StrFrom(ts); Outcome(e.(Value := x.value), x.rest, x.status)
    case "frames" => var x := FramesFrom(ts, e.Frames); Outcome(e.(Frames := x.value), x.rest, x.status)
    case _ => SkipFrom(ts, e)
  }

  // =====================================================================
  // Exceptions.UnmarshalJSONFrom

  function ExceptionsFrom(ts: seq<Token>, acc: seq<Exception>): (r: Outcome<seq<Exception>>)
    ensures |r.rest| <= |ts|
    ensures r.status.Ok? ==> |r.rest| < |ts|
    ensures acc <= r.value
    ensures KindOf(ts) != KArrStart ==> r == Outcome(acc, ts, KindFailure)
  {
    if ts == [] || ts[0] != ArrStart then Outcome(acc, ts, KindFailure)
    else ExceptionElemsFrom(ts[1..], acc)
  }

  function ExceptionElemsFrom(ts: seq<Token>, acc: seq<Exception>): (r: Outcome<seq<Exception>>)
    ensures |r.rest| <= |ts|
    ensures acc <= r.value
    decreases |ts|
  {
    if ts != [] && ts[0] == ArrEnd then Outcome(acc, ts[1..], Ok)
    else
      var x := ExceptionFrom(ts, ZeroException);
      if x.status.Ok? then ExceptionElemsFrom(x.rest, acc + [x.value])
      else Outcome(acc, x.rest, Wrap(x.status, Index(|acc|)))
  }

  // =====================================================================
  // SDK.UnmarshalJSONFrom: field errors are dropped, as in Frame.

  function SdkFrom(ts: seq<Token>, s: Sdk): (r: Outcome<Sdk>)
    ensures |r.rest| <= |ts|
    ensures r.status.Ok? ==> |r.rest| < |ts|
    ensures !r.status.Panic?
    ensures r.status.Fail? ==> r.status.error.path == []
    ensures KindOf(ts) != KObjStart ==> r == Outcome(s, ts, KindFailure)
  {
    if ts == [] || ts[0] != ObjStart then Outcome(s, ts, KindFailure)
    else SdkMembersFrom(ts[1..], s)
  }

  function SdkMembersFrom(ts: seq<Token>, s: Sdk): (r: Outcome<Sdk>)
    ensures |r.rest| <= |ts|
    ensures !r.status.Panic?
    ensures r.status.Fail? ==> r.status.error.path == []
    decreases |ts|
  {
    if ts == [] then Outcome(s, ts, Failure(Malformed))
    else match ts[0]
      case ObjEnd => Outcome(s, ts[1..], Ok)
      case Str(k) =>
        var x := SdkMemberFrom(ts[1..], s, k);
        SdkMembersFrom(x.rest, x.value)
      case _ => Outcome(s, ts, Failure(Malformed))
  }

  function SdkMemberFrom(ts: seq<Token>, s: Sdk, key: string): (r: Outcome<Sdk>)
    ensures |r.rest| <= |ts|
    ensures !r.status.Panic?
  {
    match key
    case "name" => var x := StrFrom(ts); Outcome(s.(Name := x.value), x.rest, x.status)
    case "version" => var x := StrFrom(ts); Outcome(s.(Version := x.value), x.rest, x.status)
    case _ => SkipFrom(ts, s)
  }

  // =====================================================================
  // Event.UnmarshalJSONFrom: the first field error is returned, wrapped
  // with the raw key.

  function EventFrom(ts: seq<Token>, e: Event, parse: TimeParser): (r: Outcome<Event>)
    ensures |r.rest| <= |ts|
    ensures r.status.Ok? ==> |r.rest| < |ts|
    ensures KindOf(ts) != KObjStart ==> r == Outcome(e, ts, KindFailure)
  {
    if ts == [] || ts[0] != ObjStart then Outcome(e, ts, KindFailure)
    else EventMembersFrom(ts[1..], e, parse)
  }

  function EventMembersFrom(ts: seq<Token>, e: Event, parse: TimeParser): (r: Outcome<Event>)
    ensures |r.rest| <= |ts|
    decreases |ts|
  {
    if ts == [] then Outcome(e, ts, Failure(Malformed))
    else match ts[0]
      case ObjEnd => Outcome(e, ts[1..], Ok)
      case Str(k) =>
        var x := EventMemberFrom(ts[1..], e, k, parse);
        if x.status.Ok? then EventMembersFrom(x.rest, x.value, parse)
        else Outcome(x.value, x.rest, Wrap(x.status, Key(Quoted(k))))
      case _ => Outcome(e, ts, Failure(Malformed))
  }

  function EventMemberFrom(ts: seq<Token>, e: Event, key: string, parse: TimeParser): (r: Outcome<Event>)
    ensures |r.rest| <= |ts|
  {
    match key
    case "sdk" => var x := SdkFrom(ts, e.SDK); Outcome(e.(SDK := x.value), x.rest, x.status)
    case "platform" => var x := StrFrom(ts); Outcome(e.(Platform := x.value), x.rest, x.status)
    case "server_name" => var x := StrFrom(ts); Outcome(e.(ServerName := x.value), x.rest, x.status)
    case "environment" => var x := StrFrom(ts); Outcome(e.(Environment := x.value), x.rest, x.status)
    case "release" => var x := StrFrom(ts); Outcome(e.(Release := x.value), x.rest, x.status)
    case "level" => var x := StrFrom(ts); Outcome(e.(Level := x.value), x.rest, x.status)
    case "event_id" => var x := StrFrom(ts); Outcome(e.(EventID := x.value), x.rest, x.status)
    case "message" => var x := StrFrom(ts); Outcome(e.(Message := x.value), x.rest, x.status)
    case "contexts" => var x := MapFrom(ts, e.Contexts, ""); Outcome(e.(Contexts := x.value), x.rest, x.status)
    case "extra" => var x := MapFrom(ts, e.Extra, ""); Outcome(e.(Extra := x.value), x.rest, x.status)
    case "user" => var x := MapFrom(ts, e.User, ""); Outcome(e.(User := x.value), x.rest, x.status)
    case "tags" => var x := StrMapFrom(ts, e.Tags); Outcome(e.(Tags := x.value), x.rest, x.status)
    case "exception" =>
      var x := ExceptionsFrom(ts, e.Exception); Outcome(e.(Exception := x.value), x.rest, x.status)
    case "timestamp" =>
      if ts == [] then Outcome(e, ts, Failure(Malformed))
      else
        var t := parse(Text(ts[0]));
        if t.Some? then Outcome(e.(Timestamp := t.value), ts[1..], Ok)
        else Outcome(e.(Timestamp := ZeroTime), ts[1..], Failure(TimestampParse))
    case _ => SkipFrom(ts, e)
  }

  // =====================================================================
  // The methods: the same decoders driving a Cursor.

  method Str(d: Cursor) returns (s: string, st: Status)
    requires d.Valid()
    modifies d
    ensures d.Valid()
    ensures Outcome(s, d.Rest(), st) == StrFrom(old(d.Rest()))
  {
    var t := d.Read();
    if t.None? {
      return "", Failure(Malformed);
    }
    s, st := Text(t.value), Ok;
  }

  method Int(d: Cursor) returns (i: int, st: Status)
    requires d.Valid()
    modifies d
    ensures d.Valid()
    ensures Outcome(i, d.Rest(), st) == IntFrom(old(d.Rest()))
  {
    var t := d.Read();
    if t.None? {
      return 0, Failure(Malformed);
    }
    if t.value.Num? {
      i, st := t.value.n.intValue, Ok;
    } else {
      i, st := 0, Panic;
    }
  }

  method Bool(d: Cursor) returns (b: bool, st: Status)
    requires d.Valid()
    modifies d
    ensures d.Valid()
    ensures Outcome(b, d.Rest(), st) == BoolFrom(old(d.Rest()))
  {
    var t := d.Read();
    if t.None? {
      return false, Failure(Malformed);
    }
    if t.value.Bool? {
      b, st := t.value.b, Ok;
    } else {
      b, st := false, Panic;
    }
  }

  /** `err = d.SkipValue()` */
  method SkipValue(d: Cursor) returns (st: Status)
    requires d.Valid()
    modifies d
    ensures d.Valid()
    ensures Outcome((), d.Rest(), st) == SkipFrom(old(d.Rest()), ())
  {
    var ok := d.Skip();
    st := if ok then Ok else Failure(Malformed);
  }

  /**
   * The opening `if k := d.PeekKind(); k != open {...}` and ReadToken of a
   * decoder (open is ObjStart or ArrStart).
   */
  method Open(d: Cursor, open: Token) returns (st: Status)
    requires d.Valid()
    modifies d
    ensures d.Valid()
    ensures var ts := old(d.Rest());
      if ts != [] && ts[0] == open then st == Ok && d.Rest() == ts[1..]
      else st == KindFailure && d.Rest() == ts
  {
    if d.pos < |d.toks| && d.toks[d.pos] == open {
      var _ := d.Read();
      st := Ok;
    } else {
      st := KindFailure;
    }
  }

  /** `d.PeekKind() != ']'`, consuming the ']' when it is there. */
  method AtArrayEnd(d: Cursor) returns (done: bool)
    requires d.Valid()
    modifies d
    ensures d.Valid()
    ensures var ts := old(d.Rest());
      if ts != [] && ts[0] == ArrEnd then done && d.Rest() == ts[1..]
      else !done && d.Rest() == ts
  {
    if d.Peek() == KArrEnd {
      var _ := d.Read();
      done := true;
    } else {
      done := false;
    }
  }

  method DecodeContextLines(d: Cursor, dst: seq<string>) returns (lines: seq<string>, st: Status)
    requires d.Valid()
    modifies d
    ensures d.Valid()
    ensures Outcome(lines, d.Rest(), st) == ContextLinesFrom(old(d.Rest()), dst)
  {
    lines := dst;
    st := Open(d, ArrStart);
    if !st.Ok? {
      return;
    }
    while true
      invariant d.Valid()
      invariant ContextLineElemsFrom(d.Rest(), lines) == ContextLinesFrom(old(d.Rest()), dst)
      decreases |d.Rest()|
    {
      var done := AtArrayEnd(d);
      if done {
        return;
      }
      var t := d.Read();
      if t.None? {
        // the break, then the final ReadToken fails the same way
        return lines, Failure(Malformed);
      }
      lines := lines + [Text(t.value)];
    }
  }

  method DecodeMap(d: Cursor, dst0: DynMap, prefix: string) returns (dst: DynMap, st: Status)
    requires d.Valid()
    modifies d
    ensures d.Valid()
    ensures Outcome(dst, d.Rest(), st) == MapFrom(old(d.Rest()), dst0, prefix)
    decreases |d.Rest()|, 1
  {
    dst := dst0;
    st := Open(d, ObjStart);
    if !st.Ok? {
      return;
    }
    while true
      invariant d.Valid()
      invariant |d.Rest()| < |old(d.Rest())|
      invariant MapMembersFrom(d.Rest(), dst, prefix) == MapFrom(old(d.Rest()), dst0, prefix)
      decreases |d.Rest()|
    {
      var more;
      dst, st, more := DecodeMapMember(d, dst, prefix);
      if !more {
        return;
      }
    }
  }

  /**
   * One pass of v2DecodeMap's loop: `more` says the loop goes on, and then
   * the rest of the loop is what remains of it; otherwise the call ends
   * with this outcome.
   */
  method DecodeMapMember(d: Cursor, dst0: DynMap, prefix: string) returns (dst: DynMap, st: Status, more: bool)
    requires d.Valid()
    modifies d
    ensures d.Valid()
    ensures var ts := old(d.Rest());
      if more then st.Ok? && |d.Rest()| < |ts| && MapMembersFrom(d.Rest(), dst, prefix) == MapMembersFrom(ts, dst0, prefix)
      else Outcome(dst, d.Rest(), st) == MapMembersFrom(ts, dst0, prefix)
    decreases |d.Rest()|, 0
  {
    if d.Peek() == KObjEnd {
      var _ := d.Read();
      return dst0, Ok, false;
    }
    dst := Made(dst0);
    if d.Peek() != KStr {
      return dst, Failure(Malformed), false;
    }
    var key := d.Read();
    var next := d.Peek();
    if next in {KNum, KStr, KObjStart} {
      dst, st := DecodeMapValue(d, dst, prefix, key.value.s);
      more := st.Ok?;
    } else {
      st := SkipValue(d);
      more := false;
    }
  }

  method DecodeMapValue(d: Cursor, dst0: DynMap, prefix: string, k: string) returns (dst: DynMap, st: Status)
    requires d.Valid() && dst0.Some? && KindOf(d.Rest()) in {KNum, KStr, KObjStart}
    modifies d
    ensures d.Valid()
    ensures Outcome(dst, d.Rest(), st) == MapValueFrom(old(d.Rest()), dst0, prefix, k)
    decreases |d.Rest()|, 2
  {
    if d.Peek() == KObjStart {
      dst, st := DecodeMap(d, dst0, prefix + k + ".");
      st := Wrap(st, Key(k));
    } else {
      var t := d.Read();
      var v := if t.value.Num? then Int64Value(t.value.n.intValue) else StrValue(t.value.s);
      dst, st := Store(dst0, prefix + k, v), Ok;
    }
  }

  method DecodeStrMap(d: Cursor, dst0: StrMap) returns (dst: StrMap, st: Status)
    requires d.Valid()
    modifies d
    ensures d.Valid()
    ensures Outcome(dst, d.Rest(), st) == StrMapFrom(old(d.Rest()), dst0)
  {
    dst := dst0;
    st := Open(d, ObjStart);
    if !st.Ok? {
      return;
    }
    while true
      invariant d.Valid()
      invariant StrMapMembersFrom(d.Rest(), dst) == StrMapFrom(old(d.Rest()), dst0)
      decreases |d.Rest()|
    {
      var more;
      dst, st, more := DecodeStrMapMember(d, dst);
      if !more {
        return;
      }
    }
  }

  /** One pass of v2DecodeStrMap's loop, as DecodeMapMember. */
  method DecodeStrMapMember(d: Cursor, dst0: StrMap) returns (dst: StrMap, st: Status, more: bool)
    requires d.Valid()
    modifies d
    ensures d.Valid()
    ensures var ts := old(d.Rest());
      if more then st.Ok? && |d.Rest()| < |ts| && StrMapMembersFrom(d.Rest(), dst) == StrMapMembersFrom(ts, dst0)
      else Outcome(dst, d.Rest(), st) == StrMapMembersFrom(ts, dst0)
  {
    if d.Peek() == KObjEnd {
      var _ := d.Read();
      return dst0, Ok, false;
    }
    dst := Made(dst0);
    if d.Peek() != KStr {
      return dst, Failure(Malformed), false;
    }
    var key := d.Read();
    if d.Peek() != KStr {
      return dst, KindFailure, false;
    }
    var value := d.Read();
    dst, st, more := Some(dst.value[key.value.s := value.value.s]), Ok, true;
  }

  method DecodeFrameMember(d: Cursor, f0: Frame, key: string) returns (f: Frame, st: Status)
    requires d.Valid()
    modifies d
    ensures d.Valid()
    ensures Outcome(f, d.Rest(), st) == FrameMemberFrom(old(d.Rest()), f0, key)
  {
    f := f0;
    match key {
      case "filename" => var s; s, st := Str(d); f := f.(Filename := s);
      case "abs_path" => var s; s, st := Str(d); f := f.(AbsPath := s);
      case "module" => var s; s, st := Str(d); f := f.(Module := s);
      case "function" => var s; s, st := Str(d); f := f.(Function := s);
      case "lineno" => var i; i, st := Int(d); f := f.(LineNum := i);
      case "context_line" => var s; s, st := Str(d); f := f.(CtxLine := s);
      case "pre_context" => var lines; lines, st := DecodeContextLines(d, f.PreCtx); f := f.(PreCtx := lines);
      case "post_context" => var lines; lines, st := DecodeContextLines(d, f.PreCtx); f := f.(PreCtx := lines);
      case "in_app" => var b; b, st := Bool(d); f := f.(InApp := b);
      case "vars" => var m; m, st := DecodeMap(d, f.Vars, ""); f := f.(Vars := m);
      case _ => st := SkipValue(d);
    }
  }

  method DecodeFrame(d: Cursor, f0: Frame) returns (f: Frame, st: Status)
    requires d.Valid()
    modifies d
    ensures d.Valid()
    ensures Outcome(f, d.Rest(), st) == FrameFrom(old(d.Rest()), f0)
  {
    f := f0;
    st := Open(d, ObjStart);
    if !st.Ok? {
      return;
    }
    while true
      invariant d.Valid()
      invariant FrameMembersFrom(d.Rest(), f) == FrameFrom(old(d.Rest()), f0)
      decreases |d.Rest()|
    {
      var key;
      key, st := d.ReadName();
      if key.None? {
        return;
      }
      f, st := DecodeFrameMember(d, f, key.value);
      if st.Panic? {
        return;
      }
    }
  }

  method DecodeFrames(d: Cursor, dst: seq<Frame>) returns (frames: seq<Frame>, st: Status)
    requires d.Valid()
    modifies d
    ensures d.Valid()
    ensures Outcome(frames, d.Rest(), st) == FramesFrom(old(d.Rest()), dst)
  {
    frames := dst;
    st := Open(d, ArrStart);
    if !st.Ok? {
      return;
    }
    while true
      invariant d.Valid()
      invariant FrameElemsFrom(d.Rest(), frames) == FramesFrom(old(d.Rest()), dst)
      decreases |d.Rest()|
    {
      var done := AtArrayEnd(d);
      if done {
        return frames, Ok;
      }
      var frame;
      frame, st := DecodeFrame(d, ZeroFrame);
      if !st.Ok? {
        st := Wrap(st, Index(|frames|));
        return;
      }
      frames := frames + [frame];
    }
  }

  method DecodeExceptionMember(d: Cursor, e0: Exception, key: string) returns (e: Exception, st: Status)
    requires d.Valid()
    modifies d
    ensures d.Valid()
    ensures Outcome(e, d.Rest(), st) == ExceptionMemberFrom(old(d.Rest()), e0, key)
  {
    e := e0;
    match key {
      case "module" => var s; s, st := Str(d); e := e.(Module := s);
      case "type" => var s; s, st := Str(d); e := e.(Type := s);
      case "value" => var s; s, st := Str(d); e := e.(Value := s);
      case "frames" => var frames; frames, st := DecodeFrames(d, e.Frames); e := e.(Frames := frames);
      case _ => st := SkipValue(d);
    }
  }

  method DecodeException(d: Cursor, e0: Exception) returns (e: Exception, st: Status)
    requires d.Valid()
    modifies d
    ensures d.Valid()
    ensures Outcome(e, d.Rest(), st) == ExceptionFrom(old(d.Rest()), e0)
  {
    e := e0;
    st := Open(d, ObjStart);
    if !st.Ok? {
      return;
    }
    while true
      invariant d.Valid()
      invariant ExceptionMembersFrom(d.Rest(), e) == ExceptionFrom(old(d.Rest()), e0)
      decreases |d.Rest()|
    {
      var key;
      key, st := d.ReadName();
      if key.None? {
        return;
      }
      e, st := DecodeExceptionMember(d, e, key.value);
      if st.Panic? {
        return;
      }
    }
  }

  method DecodeExceptions(d: Cursor, dst: seq<Exception>) returns (exceptions: seq<Exception>, st: Status)
    requires d.Valid()
    modifies d
    ensures d.Valid()
    ensures Outcome(exceptions, d.Rest(), st) == ExceptionsFrom(old(d.Rest()), dst)
  {
    exceptions := dst;
    st := Open(d, ArrStart);
    if !st.Ok? {
      return;
    }
    while true
      invariant d.Valid()
      invariant ExceptionElemsFrom(d.Rest(), exceptions) == ExceptionsFrom(old(d.Rest()), dst)
      decreases |d.Rest()|
    {
      var done := AtArrayEnd(d);
      if done {
        return exceptions, Ok;
      }
      var exc;
      exc, st := DecodeException(d, ZeroException);
      if !st.Ok? {
        st := Wrap(st, Index(|exceptions|));
        return;
      }
      exceptions := exceptions + [exc];
    }
  }

  method DecodeSdkMember(d: Cursor, s0: Sdk, key: string) returns (s: Sdk, st: Status)
    requires d.Valid()
    modifies d
    ensures d.Valid()
    ensures Outcome(s, d.Rest(), st) == SdkMemberFrom(old(d.Rest()), s0, key)
  {
    s := s0;
    match key {
      case "name" => var x; x, st := Str(d); s := s.(Name := x);
      case "version" => var x; x, st := Str(d); s := s.(Version := x);
      case _ => st := SkipValue(d);
    }
  }

  method DecodeSdk(d: Cursor, s0: Sdk) returns (s: Sdk, st: Status)
    requires d.Valid()
    modifies d
    ensures d.Valid()
    ensures Outcome(s, d.Rest(), st) == SdkFrom(old(d.Rest()), s0)
  {
    s := s0;
    st := Open(d, ObjStart);
    if !st.Ok? {
      return;
    }
    while true
      invariant d.Valid()
      invariant SdkMembersFrom(d.Rest(), s) == SdkFrom(old(d.Rest()), s0)
      decreases |d.Rest()|
    {
      var key;
      key, st := d.ReadName();
      if key.None? {
        return;
      }
      s, st := DecodeSdkMember(d, s, key.value);
    }
  }

  method DecodeEventMember(d: Cursor, e0: Event, key: string, parse: TimeParser) returns (e: Event, st: Status)
    requires d.Valid()
    modifies d
    ensures d.Valid()
    ensures Outcome(e, d.Rest(), st) == EventMemberFrom(old(d.Rest()), e0, key, parse)
  {
    e := e0;
    match key {
      case "sdk" => var s; s, st := DecodeSdk(d, e.SDK); e := e.(SDK := s);
      case "platform" => var s; s, st := Str(d); e := e.(Platform := s);
      case "server_name" => var s; s, st := Str(d); e := e.(ServerName := s);
      case "environment" => var s; s, st := Str(d); e := e.(Environment := s);
      case "release" => var s; s, st := Str(d); e := e.(Release := s);
      case "level" => var s; s, st := Str(d); e := e.(Level := s);
      case "event_id" => var s; s, st := Str(d); e := e.(EventID := s);
      case "message" => var s; s, st := Str(d); e := e.(Message := s);
      case "contexts" => var m; m, st := DecodeMap(d, e.Contexts, ""); e := e.(Contexts := m);
      case "extra" => var m; m, st := DecodeMap(d, e.Extra, ""); e := e.(Extra := m);
      case "user" => var m; m, st := DecodeMap(d, e.User, ""); e := e.(User := m);
      case "tags" => var m; m, st := DecodeStrMap(d, e.Tags); e := e.(Tags := m);
      case "exception" => var xs; xs, st := DecodeExceptions(d, e.Exception); e := e.(Exception := xs);
      case "timestamp" =>
        var tok := d.Read();
        if tok.None? {
          st := Failure(Malformed);
        } else {
          var t := parse(Text(tok.value));
          if t.Some? {
            e, st := e.(Timestamp := t.value), Ok;
          } else {
            e, st := e.(Timestamp := ZeroTime), Failure(TimestampParse);
          }
        }
      case _ => st := SkipValue(d);
    }
  }

  method DecodeEvent(d: Cursor, e0: Event, parse: TimeParser) returns (e: Event, st: Status)
    requires d.Valid()
    modifies d
    ensures d.Valid()
    ensures Outcome(e, d.Rest(), st) == EventFrom(old(d.Rest()), e0, parse)
  {
    e := e0;
    st := Open(d, ObjStart);
    if !st.Ok? {
      return;
    }
    while true
      invariant d.Valid()
      invariant EventMembersFrom(d.Rest(), e, parse) == EventFrom(old(d.Rest()), e0, parse)
      decreases |d.Rest()|
    {
      var key;
      key, st := d.ReadName();
      if key.None? {
        return;
      }
      e, st := DecodeEventMember(d, e, key.value, parse);
      if !st.Ok? {
        st := Wrap(st, Key(Quoted(key.value)));
        return;
      }
    }
  }
}
