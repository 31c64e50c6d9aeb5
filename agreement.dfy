/**
 * The two backends side by side. On documents of the expected shape their
 * error handling never comes into play, and they differ only in the number
 * stored in a dynamic map: jx stores a Go int for an integer
 * literal and a float for a fractional one; jsontext stores the int64 of
 * Token.Int() for both, truncating a fraction. So on an event of the
 * expected shape whose numbers are all integer literals they decode the
 * same Event up to the Go type of the integers in its maps (RetypeEvent below),
 * and a single fractional number in a map is enough to tell them apart.
 */
module Agreement {
  import opened Errors
  import opened TokenStream
  import opened Events
  import opened Reference
  import DecodeJx
  import DecodeJsonV2
  import DecodeJxProofs
  import DecodeJsonV2Proofs

  /** The value jx stores where jsontext stored `v`, for an integer literal. */
  function RetypeValue(v: MapValue): (r: MapValue)
    ensures v.Int64Value? ==> r == IntValue(v.i64)
    ensures !v.Int64Value? ==> r == v
  {
    if v.Int64Value? then IntValue(v.i64) else v
  }

  /** A dynamic map with every int64 entry retyped to a Go int. */
  function RetypeMap(m: DynMap): (r: DynMap)
    ensures r.None? <==> m.None?
    ensures m.Some? ==> r.value.Keys == m.value.Keys
    ensures m.Some? ==> forall k | k in m.value :: r.value[k] == RetypeValue(m.value[k])
  {
    if m.None? then None else Some(map k | k in m.value :: RetypeValue(m.value[k]))
  }

  function RetypeFrame(f: Frame): Frame
  {
    f.(Vars := RetypeMap(f.Vars))
  }

  function RetypeFrames(fs: seq<Frame>): (r: seq<Frame>)
    ensures |r| == |fs|
    ensures forall i | 0 <= i < |fs| :: r[i] == RetypeFrame(fs[i])
  {
    seq(|fs|, i requires 0 <= i < |fs| => RetypeFrame(fs[i]))
  }

  function RetypeException(e: Exception): Exception
  {
    e.(Frames := RetypeFrames(e.Frames))
  }

  function RetypeExceptions(es: seq<Exception>): (r: seq<Exception>)
    ensures |r| == |es|
    ensures forall i | 0 <= i < |es| :: r[i] == RetypeException(es[i])
  {
    seq(|es|, i requires 0 <= i < |es| => RetypeException(es[i]))
  }

  /** An Event with the integers of its dynamic maps retyped to Go ints. */
  function RetypeEvent(e: Event): Event
  {
    e.(Contexts := RetypeMap(e.Contexts), Extra := RetypeMap(e.Extra), User := RetypeMap(e.User),
       Exception := RetypeExceptions(e.Exception))
  }

  lemma StoreRetype(m: DynMap, key: string, v: MapValue)
    requires m.Some?
    ensures Store(RetypeMap(m), key, RetypeValue(v)) == RetypeMap(Store(m, key, v))
  {
    var l := Store(RetypeMap(m), key, RetypeValue(v));
    var r := RetypeMap(Store(m, key, v));
    assert l.value.Keys == r.value.Keys;
    assert forall k | k in l.value :: l.value[k] == r.value[k];
    assert l.value == r.value;
  }

  lemma MadeRetype(m: DynMap)
    ensures Made(RetypeMap(m)) == RetypeMap(Made(m))
  {
    if m.None? {
      assert RetypeMap(Made(m)).value == map[];
    }
  }

  lemma RetypeFramesAppend(a: seq<Frame>, b: seq<Frame>)
    ensures RetypeFrames(a + b) == RetypeFrames(a) + RetypeFrames(b)
  {
  }

  lemma RetypeExceptionsAppend(a: seq<Exception>, b: seq<Exception>)
    ensures RetypeExceptions(a + b) == RetypeExceptions(a) + RetypeExceptions(b)
  {
  }

  /**
   * On integer literals the two number rules flatten a map object alike, up
   * to the Go type of the stored integers.
   */
  lemma {:induction false} FlattenAgree(dst: DynMap, prefix: string, ms: seq<Member>)
    requires MapShaped(ms) && MembersIntegral(ms)
    ensures Flatten(Jx, RetypeMap(dst), prefix, ms) == RetypeMap(Flatten(V2, dst, prefix, ms))
    decreases ms
  {
    if ms != [] {
      var m := Made(dst);
      MadeRetype(dst);
      var k := ms[0].key;
      assert LeafShaped(ms[0].value) && AllIntegral(ms[0].value);
      match ms[0].value {
        case JStr(s) =>
          StoreRetype(m, prefix + k, StrValue(s));
          FlattenAgree(Store(m, prefix + k, StrValue(s)), prefix, ms[1..]);
        case JNum(n) =>
          assert LeafNumber(Jx, n) == RetypeValue(LeafNumber(V2, n));
          StoreRetype(m, prefix + k, LeafNumber(V2, n));
          FlattenAgree(Store(m, prefix + k, LeafNumber(V2, n)), prefix, ms[1..]);
        case JObj(sub) =>
          FlattenAgree(m, prefix + k + ".", sub);
          FlattenAgree(Flatten(V2, m, prefix + k + ".", sub), prefix, ms[1..]);
      }
    }
  }

  lemma FrameMemberAgree(f: Frame, m: Member)
    requires FrameFieldShaped(m) && AllIntegral(m.value)
    ensures ApplyFrameMember(Jx, RetypeFrame(f), m) == RetypeFrame(ApplyFrameMember(V2, f, m))
  {
    if m.key == "vars" {
      FlattenAgree(f.Vars, "", m.value.members);
    }
  }

  lemma {:induction false} FrameAgree(f: Frame, ms: seq<Member>)
    requires FrameShaped(ms) && MembersIntegral(ms)
    ensures ApplyFrame(Jx, RetypeFrame(f), ms) == RetypeFrame(ApplyFrame(V2, f, ms))
    decreases |ms|
  {
    if ms != [] {
      FrameMemberAgree(f, ms[0]);
      FrameAgree(ApplyFrameMember(V2, f, ms[0]), ms[1..]);
    }
  }

  lemma {:induction false} FramesAgree(es: seq<Json>)
    requires FramesShaped(es) && ElemsIntegral(es)
    ensures FramesOf(Jx, es) == RetypeFrames(FramesOf(V2, es))
    decreases |es|
  {
    if es != [] {
      assert AllIntegral(es[0]);
      assert RetypeFrame(ZeroFrame) == ZeroFrame;
      FrameAgree(ZeroFrame, es[0].members);
      FramesAgree(es[1..]);
      RetypeFramesAppend([ApplyFrame(V2, ZeroFrame, es[0].members)], FramesOf(V2, es[1..]));
    }
  }

  lemma ExceptionMemberAgree(e: Exception, m: Member)
    requires ExceptionFieldShaped(m) && AllIntegral(m.value)
    ensures ApplyExceptionMember(Jx, RetypeException(e), m) == RetypeException(ApplyExceptionMember(V2, e, m))
  {
    if m.key == "frames" {
      FramesAgree(m.value.elems);
      RetypeFramesAppend(e.Frames, FramesOf(V2, m.value.elems));
    }
  }

  lemma {:induction false} ExceptionAgree(e: Exception, ms: seq<Member>)
    requires ExceptionShaped(ms) && MembersIntegral(ms)
    ensures ApplyException(Jx, RetypeException(e), ms) == RetypeException(ApplyException(V2, e, ms))
    decreases |ms|
  {
    if ms != [] {
      ExceptionMemberAgree(e, ms[0]);
      ExceptionAgree(ApplyExceptionMember(V2, e, ms[0]), ms[1..]);
    }
  }

  lemma {:induction false} ExceptionsAgree(es: seq<Json>)
    requires ExceptionsShaped(es) && ElemsIntegral(es)
    ensures ExceptionsOf(Jx, es) == RetypeExceptions(ExceptionsOf(V2, es))
    decreases |es|
  {
    if es != [] {
      assert AllIntegral(es[0]);
      assert RetypeException(ZeroException) == ZeroException;
      ExceptionAgree(ZeroException, es[0].members);
      ExceptionsAgree(es[1..]);
      RetypeExceptionsAppend([ApplyException(V2, ZeroException, es[0].members)], ExceptionsOf(V2, es[1..]));
    }
  }

  lemma EventMemberAgree(e: Event, m: Member, parse: TimeParser)
    requires EventFieldShaped(m, parse) && AllIntegral(m.value)
    ensures ApplyEventMember(Jx, RetypeEvent(e), m, parse) == RetypeEvent(ApplyEventMember(V2, e, m, parse))
  {
    if m.key == "contexts" {
      FlattenAgree(e.Contexts, "", m.value.members);
    } else if m.key == "extra" {
      FlattenAgree(e.Extra, "", m.value.members);
    } else if m.key == "user" {
      FlattenAgree(e.User, "", m.value.members);
    } else if m.key == "exception" {
      ExceptionsAgree(m.value.elems);
      RetypeExceptionsAppend(e.Exception, ExceptionsOf(V2, m.value.elems));
    }
  }

  lemma {:induction false} EventAgree(e: Event, ms: seq<Member>, parse: TimeParser)
    requires EventShaped(ms, parse) && MembersIntegral(ms)
    ensures ApplyEvent(Jx, RetypeEvent(e), ms, parse) == RetypeEvent(ApplyEvent(V2, e, ms, parse))
    decreases |ms|
  {
    if ms != [] {
      EventMemberAgree(e, ms[0], parse);
      EventAgree(ApplyEventMember(V2, e, ms[0], parse), ms[1..], parse);
    }
  }

  /**
   * Decoding an event document of the expected shape whose numbers are all
   * integer literals with either backend gives the same unread tokens, the
   * same status and the same Event, up to the Go type of the integers that
   * jsontext stored in its maps.
   */
  lemma BackendsAgree(ms: seq<Member>, rest: seq<Token>, e: Event, parse: TimeParser)
    requires EventShaped(ms, parse) && MembersIntegral(ms)
    ensures var r := DecodeJsonV2.EventFrom(Tokens(JObj(ms)) + rest, e, parse);
      DecodeJx.EventFrom(Tokens(JObj(ms)) + rest, RetypeEvent(e), parse) == Outcome(RetypeEvent(r.value), r.rest, r.status)
  {
    DecodeJxProofs.EventOk(ms, rest, RetypeEvent(e), parse);
    DecodeJsonV2Proofs.EventOk(ms, rest, e, parse);
    EventAgree(e, ms, parse);
  }

  /** `{"n":1.5}` in a map: jx stores the float text, jsontext the truncated integer. */
  lemma BackendsDisagreeOnFraction(rest: seq<Token>)
    ensures DecodeJx.MapFrom([ObjStart, Str("n"), Num(Number("1.5", false, 1)), ObjEnd] + rest, None, "")
         == Outcome(Some(map["n" := FloatValue("1.5")]), rest, Ok)
    ensures DecodeJsonV2.MapFrom([ObjStart, Str("n"), Num(Number("1.5", false, 1)), ObjEnd] + rest, None, "")
         == Outcome(Some(map["n" := Int64Value(1)]), rest, Ok)
  {
    var ms := [Member("n", JNum(Number("1.5", false, 1)))];
    assert ms[1..] == [];
    assert Tokens(JObj(ms)) == [ObjStart, Str("n"), Num(Number("1.5", false, 1)), ObjEnd];
    assert MapShaped(ms) by {
      assert MapShaped(ms[1..]);
    }
    DecodeJxProofs.MapOk(ms, rest, None, "");
    assert "" + "n" == "n";
    assert Store(Some(map[]), "n", FloatValue("1.5")) == Some(map["n" := FloatValue("1.5")]);
    DecodeJsonV2Proofs.FractionExample(rest);
  }
}
