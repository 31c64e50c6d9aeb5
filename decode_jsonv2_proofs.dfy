/**
 * What the jsontext v2 decoders compute: on a document of the expected
 * shape, each decoder consumes exactly the tokens of its value and produces
 * the Reference interpretation of it (with Token.Int for every number in a
 * map); off that shape, the early return of the map loop, the dropped field
 * errors, the quoted keys of Event errors and the element indexes behave as
 * decode_jsonv2.go does.
 */
module DecodeJsonV2Proofs {
  import opened Errors
  import opened TokenStream
  import opened Events
  import opened Reference
  import opened DecodeJsonV2

  // =====================================================================
  // Context lines

  lemma ContextLineElemsStep(s: string, rest: seq<Token>, acc: seq<string>)
    ensures ContextLineElemsFrom([Str(s)] + rest, acc) == ContextLineElemsFrom(rest, acc + [s])
  {
    CloseTokens(Str(s), rest);
  }

  lemma {:induction false} ContextLineElemsOk(es: seq<Json>, tail: seq<Token>, acc: seq<string>)
    requires StringsShaped(es)
    ensures ContextLineElemsFrom(ElemsTokens(es) + tail, acc) == ContextLineElemsFrom(tail, acc + StringsOf(es))
    decreases |es|
  {
    if es == [] {
      assert ElemsTokens(es) + tail == tail;
      assert acc + StringsOf(es) == acc;
    } else {
      var rest := ElemsTokens(es[1..]) + tail;
      ElemsSplit(es, tail);
      ScalarTokens(es[0], rest);
      ContextLineElemsStep(es[0].s, rest, acc);
      ContextLineElemsOk(es[1..], tail, acc + [es[0].s]);
      AppendRegroup(acc, es[0].s, StringsOf(es[1..]), StringsOf(es));
    }
  }

  /** An array of strings is appended to the lines already there, in order. */
  lemma ContextLinesOk(es: seq<Json>, rest: seq<Token>, acc: seq<string>)
    requires StringsShaped(es)
    ensures ContextLinesFrom(Tokens(JArr(es)) + rest, acc) == Outcome(acc + StringsOf(es), rest, Ok)
  {
    ArrTokens(es, rest);
    ContextLineElemsOk(es, [ArrEnd] + rest, acc);
    CloseTokens(ArrEnd, rest);
  }

  // =====================================================================
  // Dynamic maps

  /** A number, string or object value that decodes is stored and the loop goes on after it. */
  lemma MapMembersStep(k: string, vs: seq<Token>, dst: DynMap, prefix: string)
    requires KindOf(vs) in {KNum, KStr, KObjStart}
    requires MapValueFrom(vs, Made(dst), prefix, k).status.Ok?
    ensures var x := MapValueFrom(vs, Made(dst), prefix, k);
      MapMembersFrom([Str(k)] + vs, dst, prefix) == MapMembersFrom(x.rest, x.value, prefix)
  {
    CloseTokens(Str(k), vs);
  }

  /** A string, number or map-shaped object value stores what Flatten stores for its member. */
  lemma {:induction false} MapValueOk(k: string, v: Json, rest: seq<Token>, m: DynMap, prefix: string)
    requires m.Some? && LeafShaped(v)
    ensures MapShaped([Member(k, v)])
    ensures KindOf(Tokens(v) + rest) in {KNum, KStr, KObjStart}
    ensures MapValueFrom(Tokens(v) + rest, m, prefix, k) == Outcome(Flatten(V2, m, prefix, [Member(k, v)]), rest, Ok)
    decreases v, 1
  {
    assert [Member(k, v)][1..] == [];
    assert [Member(k, v)][0].value == v;
    if v.JObj? {
      ObjTokens(v.members, rest);
      MapMembersOk(v.members, [ObjEnd] + rest, m, prefix + k + ".");
      CloseTokens(ObjEnd, rest);
    } else {
      ScalarTokens(v, rest);
    }
  }

  lemma {:induction false} MapMembersOk(ms: seq<Member>, tail: seq<Token>, dst: DynMap, prefix: string)
    requires MapShaped(ms)
    ensures MapMembersFrom(MembersTokens(ms) + tail, dst, prefix)
         == MapMembersFrom(tail, Flatten(V2, dst, prefix, ms), prefix)
    decreases ms, 0
  {
    if ms == [] {
      assert MembersTokens(ms) + tail == tail;
    } else {
      var rest := MembersTokens(ms[1..]) + tail;
      MembersSplit(ms, tail);
      assert LeafShaped(ms[0].value);
      MapValueOk(ms[0].key, ms[0].value, rest, Made(dst), prefix);
      MapMembersStep(ms[0].key, Tokens(ms[0].value) + rest, dst, prefix);
      FlattenFirst(V2, dst, prefix, ms);
      assert ms[..1] == [Member(ms[0].key, ms[0].value)];
      MapMembersOk(ms[1..], tail, Flatten(V2, Made(dst), prefix, ms[..1]), prefix);
    }
  }

  /**
   * A map object of strings, numbers and nested objects is flattened into
   * `dst` exactly as Flatten says, consuming the object and nothing more.
   */
  lemma MapOk(ms: seq<Member>, rest: seq<Token>, dst: DynMap, prefix: string)
    requires MapShaped(ms)
    ensures MapFrom(Tokens(JObj(ms)) + rest, dst, prefix) == Outcome(Flatten(V2, dst, prefix, ms), rest, Ok)
  {
    ObjTokens(ms, rest);
    MapMembersOk(ms, [ObjEnd] + rest, dst, prefix);
    CloseTokens(ObjEnd, rest);
  }

  /**
   * A bool, null or array value in a dynamic map ends the call without an
   * error: the map has been made, the value is skipped, and the members
   * after it and the closing '}' are left unread.
   */
  lemma MapEarlyReturn(k: string, j: Json, tail: seq<Token>, dst: DynMap, prefix: string)
    requires j.JBool? || j.JNull? || j.JArr?
    ensures MapMembersFrom([Str(k)] + (Tokens(j) + tail), dst, prefix) == Outcome(Made(dst), tail, Ok)
  {
    CloseTokens(Str(k), Tokens(j) + tail);
    if j.JArr? {
      ArrTokens(j.elems, tail);
    } else {
      ScalarTokens(j, tail);
    }
    SkipWhole(j, tail);
  }

  /**
   * `{"a":true,"b":"x"}`: the map is made, "b" is never stored, and the
   * decoder stops in front of it.
   */
  lemma EarlyReturnExample(rest: seq<Token>)
    ensures MapFrom([ObjStart, Str("a"), Bool(true), Str("b"), Str("x"), ObjEnd] + rest, None, "")
         == Outcome(Some(map[]), [Str("b"), Str("x"), ObjEnd] + rest, Ok)
  {
    var ts := [ObjStart, Str("a"), Bool(true), Str("b"), Str("x"), ObjEnd] + rest;
    var tail := [Str("b"), Str("x"), ObjEnd] + rest;
    assert ts[1..] == [Str("a")] + (Tokens(JBool(true)) + tail);
    MapEarlyReturn("a", JBool(true), tail, None, "");
  }

  /** `{"n":1.5}` stores the integer view of the literal, as Token.Int() returns it. */
  lemma FractionExample(rest: seq<Token>)
    ensures MapFrom([ObjStart, Str("n"), Num(Number("1.5", false, 1)), ObjEnd] + rest, None, "")
         == Outcome(Some(map["n" := Int64Value(1)]), rest, Ok)
  {
    var ms := [Member("n", JNum(Number("1.5", false, 1)))];
    assert ms[1..] == [];
    assert Tokens(JObj(ms)) == [ObjStart, Str("n"), Num(Number("1.5", false, 1)), ObjEnd];
    assert MapShaped(ms) by {
      assert MapShaped(ms[1..]);
    }
    MapOk(ms, rest, None, "");
    assert "" + "n" == "n";
    assert Store(Some(map[]), "n", Int64Value(1)) == Some(map["n" := Int64Value(1)]);
  }

  /** `{"a":{}}` makes the map although it stores nothing; `{}` leaves it nil. */
  lemma MadeLazilyExample(rest: seq<Token>)
    ensures MapFrom([ObjStart, Str("a"), ObjStart, ObjEnd, ObjEnd] + rest, None, "") == Outcome(Some(map[]), rest, Ok)
    ensures MapFrom([ObjStart, ObjEnd] + rest, None, "") == Outcome(None, rest, Ok)
  {
    var ms := [Member("a", JObj([]))];
    assert Tokens(JObj(ms)) == [ObjStart, Str("a"), ObjStart, ObjEnd, ObjEnd];
    assert Tokens(JObj([])) == [ObjStart, ObjEnd];
    assert MapShaped(ms) by {
      assert MapShaped(ms[1..]);
    }
    MapOk(ms, rest, None, "");
    MapOk([], rest, None, "");
    assert ms[1..] == [];
  }

  // =====================================================================
  // String maps

  lemma {:induction false} StrMapMembersOk(ms: seq<Member>, tail: seq<Token>, dst: StrMap)
    requires TagsShaped(ms)
    ensures StrMapMembersFrom(MembersTokens(ms) + tail, dst) == StrMapMembersFrom(tail, ApplyTags(dst, ms))
    decreases |ms|
  {
    if ms == [] {
      assert MembersTokens(ms) + tail == tail;
    } else {
      var rest := MembersTokens(ms[1..]) + tail;
      MembersSplit(ms, tail);
      ScalarTokens(ms[0].value, rest);
      StrMapMembersOk(ms[1..], tail, Some(Made(dst).value[ms[0].key := ms[0].value.s]));
    }
  }

  /** Every key of a string-valued object is stored with its string, unflattened. */
  lemma StrMapOk(ms: seq<Member>, rest: seq<Token>, dst: StrMap)
    requires TagsShaped(ms)
    ensures StrMapFrom(Tokens(JObj(ms)) + rest, dst) == Outcome(ApplyTags(dst, ms), rest, Ok)
  {
    ObjTokens(ms, rest);
    StrMapMembersOk(ms, [ObjEnd] + rest, dst);
    CloseTokens(ObjEnd, rest);
  }

  /**
   * A non-string tag value fails with "expected string", not wrapped with
   * its key; the map has been made and the value is left unread.
   */
  lemma StrMapNonString(k: string, ts: seq<Token>, dst: StrMap)
    requires KindOf(ts) != KStr
    ensures StrMapMembersFrom([Str(k)] + ts, dst) == Outcome(Made(dst), ts, KindFailure)
  {
    CloseTokens(Str(k), ts);
  }

  // =====================================================================
  // Frame

  lemma FrameMemberOk(m: Member, rest: seq<Token>, f: Frame)
    requires FrameFieldShaped(m)
    ensures FrameMemberFrom(Tokens(m.value) + rest, f, m.key) == Outcome(ApplyFrameMember(V2, f, m), rest, Ok)
  {
    var v := m.value;
    if m.key in {"filename", "abs_path", "module", "function", "context_line", "lineno", "in_app"} {
      ScalarTokens(v, rest);
    } else if m.key in {"pre_context", "post_context"} {
      ContextLinesOk(v.elems, rest, f.PreCtx);
    } else if m.key == "vars" {
      MapOk(v.members, rest, f.Vars, "");
    } else {
      SkipWhole(v, rest);
    }
  }

  /**
   * A member that does not panic updates the frame and the loop goes on
   * from where the member stopped: a field's error is dropped.
   */
  lemma FrameMembersStep(k: string, vs: seq<Token>, f: Frame)
    requires !FrameMemberFrom(vs, f, k).status.Panic?
    ensures var x := FrameMemberFrom(vs, f, k);
      FrameMembersFrom([Str(k)] + vs, f) == FrameMembersFrom(x.rest, x.value)
  {
    CloseTokens(Str(k), vs);
  }

  /** A panic in a member is not recovered: it ends the frame's decoding as it is. */
  lemma FramePanicPropagates(k: string, vs: seq<Token>, f: Frame)
    requires FrameMemberFrom(vs, f, k).status.Panic?
    ensures FrameMembersFrom([Str(k)] + vs, f) == FrameMemberFrom(vs, f, k)
  {
    CloseTokens(Str(k), vs);
  }

  lemma {:induction false} FrameMembersOk(ms: seq<Member>, tail: seq<Token>, f: Frame)
    requires FrameShaped(ms)
    ensures FrameMembersFrom(MembersTokens(ms) + tail, f) == FrameMembersFrom(tail, ApplyFrame(V2, f, ms))
    decreases |ms|
  {
    if ms == [] {
      assert MembersTokens(ms) + tail == tail;
    } else {
      MembersSplit(ms, tail);
      FrameMemberOk(ms[0], MembersTokens(ms[1..]) + tail, f);
      FrameMembersStep(ms[0].key, Tokens(ms[0].value) + (MembersTokens(ms[1..]) + tail), f);
      FrameMembersOk(ms[1..], tail, ApplyFrameMember(V2, f, ms[0]));
    }
  }

  /** A frame object sets exactly the fields ApplyFrame says, and consumes the object. */
  lemma FrameOk(ms: seq<Member>, rest: seq<Token>, f: Frame)
    requires FrameShaped(ms)
    ensures FrameFrom(Tokens(JObj(ms)) + rest, f) == Outcome(ApplyFrame(V2, f, ms), rest, Ok)
  {
    ObjTokens(ms, rest);
    FrameMembersOk(ms, [ObjEnd] + rest, f);
    CloseTokens(ObjEnd, rest);
  }

  /** A member with a key outside the switch is skipped whole and changes no field. */
  lemma FrameUnknownKeySkipped(k: string, j: Json, tail: seq<Token>, f: Frame)
    requires k !in FrameKeys
    ensures FrameMembersFrom([Str(k)] + (Tokens(j) + tail), f) == FrameMembersFrom(tail, f)
  {
    SkipWhole(j, tail);
    assert FrameMemberFrom(Tokens(j) + tail, f, k) == Outcome(f, tail, Ok);
    FrameMembersStep(k, Tokens(j) + tail, f);
  }

  /** `pre_context` then `post_context`: PreCtx holds both, in order; PostCtx stays empty. */
  lemma ContextExample(pre: string, post: string, rest: seq<Token>)
    ensures FrameFrom([ObjStart, Str("pre_context"), ArrStart, Str(pre), ArrEnd,
                       Str("post_context"), ArrStart, Str(post), ArrEnd, ObjEnd] + rest, ZeroFrame)
         == Outcome(ZeroFrame.(PreCtx := [pre, post]), rest, Ok)
  {
    var ms := [Member("pre_context", JArr([JStr(pre)])), Member("post_context", JArr([JStr(post)]))];
    assert ms[1..][1..] == [] && [JStr(pre)][1..] == [] && [JStr(post)][1..] == [];
    assert ElemsTokens([JStr(pre)]) == [Str(pre)] && ElemsTokens([JStr(post)]) == [Str(post)];
    assert Tokens(JArr([JStr(pre)])) == [ArrStart, Str(pre), ArrEnd];
    assert Tokens(JArr([JStr(post)])) == [ArrStart, Str(post), ArrEnd];
    assert MembersTokens(ms[1..]) == [Str("post_context"), ArrStart, Str(post), ArrEnd];
    assert MembersTokens(ms) == [Str("pre_context"), ArrStart, Str(pre), ArrEnd, Str("post_context"), ArrStart, Str(post), ArrEnd];
    assert Tokens(JObj(ms)) == [ObjStart, Str("pre_context"), ArrStart, Str(pre), ArrEnd,
                                Str("post_context"), ArrStart, Str(post), ArrEnd, ObjEnd];
    assert StringsShaped([JStr(pre)]) && StringsShaped([JStr(post)]);
    assert FrameShaped(ms) by {
      assert FrameShaped(ms[1..][1..]) && FrameShaped(ms[1..]);
    }
    FrameOk(ms, rest, ZeroFrame);
    assert StringsOf([JStr(pre)]) == [pre] && StringsOf([JStr(post)]) == [post];
    var f1 := ApplyFrameMember(V2, ZeroFrame, ms[0]);
    assert f1 == ZeroFrame.(PreCtx := [pre]);
    assert ApplyFrameMember(V2, f1, ms[1]) == ZeroFrame.(PreCtx := [pre, post]);
    assert ApplyFrame(V2, ZeroFrame, ms) == ApplyFrame(V2, f1, ms[1..]);
  }

  // =====================================================================
  // Frames

  /** One element decoded successfully is appended and the loop continues after it. */
  lemma FrameElemsStep(ts: seq<Token>, acc: seq<Frame>)
    requires (ts == [] || ts[0] != ArrEnd) && FrameFrom(ts, ZeroFrame).status.Ok?
    ensures var x := FrameFrom(ts, ZeroFrame);
      FrameElemsFrom(ts, acc) == FrameElemsFrom(x.rest, acc + [x.value])
  {
  }

  lemma {:induction false} FrameElemsOk(es: seq<Json>, tail: seq<Token>, acc: seq<Frame>)
    requires FramesShaped(es)
    ensures FrameElemsFrom(ElemsTokens(es) + tail, acc) == FrameElemsFrom(tail, acc + FramesOf(V2, es))
    decreases |es|
  {
    if es == [] {
      assert ElemsTokens(es) + tail == tail;
      assert acc + FramesOf(V2, es) == acc;
    } else {
      var rest := ElemsTokens(es[1..]) + tail;
      ElemsSplit(es, tail);
      FrameOk(es[0].members, rest, ZeroFrame);
      ObjTokens(es[0].members, rest);
      FrameElemsStep(Tokens(es[0]) + rest, acc);
      var x := ApplyFrame(V2, ZeroFrame, es[0].members);
      FrameElemsOk(es[1..], tail, acc + [x]);
      AppendRegroup(acc, x, FramesOf(V2, es[1..]), FramesOf(V2, es));
    }
  }

  /** The frames of an array are appended in document order. */
  lemma FramesOk(es: seq<Json>, rest: seq<Token>, acc: seq<Frame>)
    requires FramesShaped(es)
    ensures FramesFrom(Tokens(JArr(es)) + rest, acc) == Outcome(acc + FramesOf(V2, es), rest, Ok)
  {
    ArrTokens(es, rest);
    FrameElemsOk(es, [ArrEnd] + rest, acc);
    CloseTokens(ArrEnd, rest);
  }

  /** A failing element stops the loop with its error wrapped with its index. */
  lemma FrameElemsFailStep(ts: seq<Token>, acc: seq<Frame>)
    requires (ts == [] || ts[0] != ArrEnd) && !FrameFrom(ts, ZeroFrame).status.Ok?
    ensures var x := FrameFrom(ts, ZeroFrame);
      FrameElemsFrom(ts, acc) == Outcome(acc, x.rest, Wrap(x.status, Index(|acc|)))
  {
  }

  /**
   * When the element after `good` fails, the frames before it have been
   * appended, it is not, and its error is wrapped with its index: the
   * number of frames appended so far (one per element, by FramesOf).
   */
  lemma FrameElementFails(good: seq<Json>, ts: seq<Token>, acc: seq<Frame>)
    requires FramesShaped(good) && (ts == [] || ts[0] != ArrEnd)
    requires !FrameFrom(ts, ZeroFrame).status.Ok?
    ensures var done, x := acc + FramesOf(V2, good), FrameFrom(ts, ZeroFrame);
      FrameElemsFrom(ElemsTokens(good) + ts, acc) == Outcome(done, x.rest, Wrap(x.status, Index(|done|)))
  {
    FrameElemsOk(good, ts, acc);
    FrameElemsFailStep(ts, acc + FramesOf(V2, good));
  }

  // =====================================================================
  // Exception

  lemma ExceptionMemberOk(m: Member, rest: seq<Token>, e: Exception)
    requires ExceptionFieldShaped(m)
    ensures ExceptionMemberFrom(Tokens(m.value) + rest, e, m.key) == Outcome(ApplyExceptionMember(V2, e, m), rest, Ok)
  {
    var v := m.value;
    if m.key in {"module", "type", "value"} {
      ScalarTokens(v, rest);
    } else if m.key == "frames" {
      FramesOk(v.elems, rest, e.Frames);
    } else {
      SkipWhole(v, rest);
    }
  }

  /**
   * A member that does not panic updates the exception and the loop goes on
   * from where the member stopped: a field's error is dropped.
   */
  lemma ExceptionMembersStep(k: string, vs: seq<Token>, e: Exception)
    requires !ExceptionMemberFrom(vs, e, k).status.Panic?
    ensures var x := ExceptionMemberFrom(vs, e, k);
      ExceptionMembersFrom([Str(k)] + vs, e) == ExceptionMembersFrom(x.rest, x.value)
  {
    CloseTokens(Str(k), vs);
  }

  /** A panic in a member is not recovered: it ends the exception's decoding as it is. */
  lemma ExceptionPanicPropagates(k: string, vs: seq<Token>, e: Exception)
    requires ExceptionMemberFrom(vs, e, k).status.Panic?
    ensures ExceptionMembersFrom([Str(k)] + vs, e) == ExceptionMemberFrom(vs, e, k)
  {
    CloseTokens(Str(k), vs);
  }

  lemma {:induction false} ExceptionMembersOk(ms: seq<Member>, tail: seq<Token>, e: Exception)
    requires ExceptionShaped(ms)
    ensures ExceptionMembersFrom(MembersTokens(ms) + tail, e) == ExceptionMembersFrom(tail, ApplyException(V2, e, ms))
    decreases |ms|
  {
    if ms == [] {
      assert MembersTokens(ms) + tail == tail;
    } else {
      MembersSplit(ms, tail);
      ExceptionMemberOk(ms[0], MembersTokens(ms[1..]) + tail, e);
      ExceptionMembersStep(ms[0].key, Tokens(ms[0].value) + (MembersTokens(ms[1..]) + tail), e);
      ExceptionMembersOk(ms[1..], tail, ApplyExceptionMember(V2, e, ms[0]));
    }
  }

  lemma ExceptionOk(ms: seq<Member>, rest: seq<Token>, e: Exception)
    requires ExceptionShaped(ms)
    ensures ExceptionFrom(Tokens(JObj(ms)) + rest, e) == Outcome(ApplyException(V2, e, ms), rest, Ok)
  {
    ObjTokens(ms, rest);
    ExceptionMembersOk(ms, [ObjEnd] + rest, e);
    CloseTokens(ObjEnd, rest);
  }

  lemma ExceptionUnknownKeySkipped(k: string, j: Json, tail: seq<Token>, e: Exception)
    requires k !in ExceptionKeys
    ensures ExceptionMembersFrom([Str(k)] + (Tokens(j) + tail), e) == ExceptionMembersFrom(tail, e)
  {
    SkipWhole(j, tail);
    assert ExceptionMemberFrom(Tokens(j) + tail, e, k) == Outcome(e, tail, Ok);
    ExceptionMembersStep(k, Tokens(j) + tail, e);
  }

  // =====================================================================
  // Exceptions

  /** One element decoded successfully is appended and the loop continues after it. */
  lemma ExceptionElemsStep(ts: seq<Token>, acc: seq<Exception>)
    requires (ts == [] || ts[0] != ArrEnd) && ExceptionFrom(ts, ZeroException).status.Ok?
    ensures var x := ExceptionFrom(ts, ZeroException);
      ExceptionElemsFrom(ts, acc) == ExceptionElemsFrom(x.rest, acc + [x.value])
  {
  }

  lemma {:induction false} ExceptionElemsOk(es: seq<Json>, tail: seq<Token>, acc: seq<Exception>)
    requires ExceptionsShaped(es)
    ensures ExceptionElemsFrom(ElemsTokens(es) + tail, acc) == ExceptionElemsFrom(tail, acc + ExceptionsOf(V2, es))
    decreases |es|
  {
    if es == [] {
      assert ElemsTokens(es) + tail == tail;
      assert acc + ExceptionsOf(V2, es) == acc;
    } else {
      var rest := ElemsTokens(es[1..]) + tail;
      ElemsSplit(es, tail);
      ExceptionOk(es[0].members, rest, ZeroException);
      ObjTokens(es[0].members, rest);
      ExceptionElemsStep(Tokens(es[0]) + rest, acc);
      var x := ApplyException(V2, ZeroException, es[0].members);
      ExceptionElemsOk(es[1..], tail, acc + [x]);
      AppendRegroup(acc, x, ExceptionsOf(V2, es[1..]), ExceptionsOf(V2, es));
    }
  }

  lemma ExceptionsOk(es: seq<Json>, rest: seq<Token>, acc: seq<Exception>)
    requires ExceptionsShaped(es)
    ensures ExceptionsFrom(Tokens(JArr(es)) + rest, acc) == Outcome(acc + ExceptionsOf(V2, es), rest, Ok)
  {
    ArrTokens(es, rest);
    ExceptionElemsOk(es, [ArrEnd] + rest, acc);
    CloseTokens(ArrEnd, rest);
  }

  /** A failing element stops the loop with its error wrapped with its index. */
  lemma ExceptionElemsFailStep(ts: seq<Token>, acc: seq<Exception>)
    requires (ts == [] || ts[0] != ArrEnd) && !ExceptionFrom(ts, ZeroException).status.Ok?
    ensures var x := ExceptionFrom(ts, ZeroException);
      ExceptionElemsFrom(ts, acc) == Outcome(acc, x.rest, Wrap(x.status, Index(|acc|)))
  {
  }

  /**
   * When the element after `good` fails, the exceptions before it have been
   * appended, it is not, and its error is wrapped with its index: the
   * number of exceptions appended so far (one per element, by ExceptionsOf).
   */
  lemma ExceptionElementFails(good: seq<Json>, ts: seq<Token>, acc: seq<Exception>)
    requires ExceptionsShaped(good) && (ts == [] || ts[0] != ArrEnd)
    requires !ExceptionFrom(ts, ZeroException).status.Ok?
    ensures var done, x := acc + ExceptionsOf(V2, good), ExceptionFrom(ts, ZeroException);
      ExceptionElemsFrom(ElemsTokens(good) + ts, acc) == Outcome(done, x.rest, Wrap(x.status, Index(|done|)))
  {
    ExceptionElemsOk(good, ts, acc);
    ExceptionElemsFailStep(ts, acc + ExceptionsOf(V2, good));
  }

  // =====================================================================
  // SDK

  /**
   * Whatever a member does, the SDK loop goes on from where it stopped:
   * its fields cannot panic and their errors are dropped.
   */
  lemma SdkMembersStep(k: string, vs: seq<Token>, s: Sdk)
    ensures var x := SdkMemberFrom(vs, s, k);
      SdkMembersFrom([Str(k)] + vs, s) == SdkMembersFrom(x.rest, x.value)
  {
    CloseTokens(Str(k), vs);
  }

  lemma {:induction false} SdkMembersOk(ms: seq<Member>, tail: seq<Token>, s: Sdk)
    requires SdkShaped(ms)
    ensures SdkMembersFrom(MembersTokens(ms) + tail, s) == SdkMembersFrom(tail, ApplySdk(s, ms))
    decreases |ms|
  {
    if ms == [] {
      assert MembersTokens(ms) + tail == tail;
    } else {
      var rest := MembersTokens(ms[1..]) + tail;
      MembersSplit(ms, tail);
      if ms[0].key in SdkKeys {
        ScalarTokens(ms[0].value, rest);
      } else {
        SkipWhole(ms[0].value, rest);
      }
      SdkMembersStep(ms[0].key, Tokens(ms[0].value) + rest, s);
      SdkMembersOk(ms[1..], tail, ApplySdkMember(s, ms[0]));
    }
  }

  lemma SdkOk(ms: seq<Member>, rest: seq<Token>, s: Sdk)
    requires SdkShaped(ms)
    ensures SdkFrom(Tokens(JObj(ms)) + rest, s) == Outcome(ApplySdk(s, ms), rest, Ok)
  {
    ObjTokens(ms, rest);
    SdkMembersOk(ms, [ObjEnd] + rest, s);
    CloseTokens(ObjEnd, rest);
  }

  // =====================================================================
  // Event

  lemma EventMemberOk(m: Member, rest: seq<Token>, e: Event, parse: TimeParser)
    requires EventFieldShaped(m, parse)
    ensures EventMemberFrom(Tokens(m.value) + rest, e, m.key, parse)
         == Outcome(ApplyEventMember(V2, e, m, parse), rest, Ok)
  {
    var v := m.value;
    if m.key in {"platform", "server_name", "environment", "release", "level", "event_id", "message", "timestamp"} {
      ScalarTokens(v, rest);
    } else if m.key == "sdk" {
      SdkOk(v.members, rest, e.SDK);
    } else if m.key in {"contexts", "extra", "user"} {
      MapOk(v.members, rest, e.Contexts, "");
      MapOk(v.members, rest, e.Extra, "");
      MapOk(v.members, rest, e.User, "");
    } else if m.key == "tags" {
      StrMapOk(v.members, rest, e.Tags);
    } else if m.key == "exception" {
      ExceptionsOk(v.elems, rest, e.Exception);
    } else {
      SkipWhole(v, rest);
    }
  }

  /** A member whose value decodes updates the event and the loop goes on after it. */
  lemma EventMembersStep(k: string, vs: seq<Token>, e: Event, parse: TimeParser)
    requires EventMemberFrom(vs, e, k, parse).status.Ok?
    ensures var x := EventMemberFrom(vs, e, k, parse);
      EventMembersFrom([Str(k)] + vs, e, parse) == EventMembersFrom(x.rest, x.value, parse)
  {
    CloseTokens(Str(k), vs);
  }

  lemma {:induction false} EventMembersOk(ms: seq<Member>, tail: seq<Token>, e: Event, parse: TimeParser)
    requires EventShaped(ms, parse)
    ensures EventMembersFrom(MembersTokens(ms) + tail, e, parse) == EventMembersFrom(tail, ApplyEvent(V2, e, ms, parse), parse)
    decreases |ms|
  {
    if ms == [] {
      assert MembersTokens(ms) + tail == tail;
    } else {
      MembersSplit(ms, tail);
      EventMemberOk(ms[0], MembersTokens(ms[1..]) + tail, e, parse);
      EventMembersStep(ms[0].key, Tokens(ms[0].value) + (MembersTokens(ms[1..]) + tail), e, parse);
      EventMembersOk(ms[1..], tail, ApplyEventMember(V2, e, ms[0], parse), parse);
    }
  }

  /**
   * An event document of the expected shape decodes to the Reference
   * interpretation of its members, applied in document order, and exactly
   * its tokens are consumed.
   */
  lemma EventOk(ms: seq<Member>, rest: seq<Token>, e: Event, parse: TimeParser)
    requires EventShaped(ms, parse)
    ensures EventFrom(Tokens(JObj(ms)) + rest, e, parse) == Outcome(ApplyEvent(V2, e, ms, parse), rest, Ok)
  {
    ObjTokens(ms, rest);
    EventMembersOk(ms, [ObjEnd] + rest, e, parse);
    CloseTokens(ObjEnd, rest);
  }

  /**
   * When the member after `good` fails, decoding stops there with that
   * member's error wrapped with its raw key, quotes included, and the
   * fields set so far kept.
   */
  lemma EventMemberFails(good: seq<Member>, k: string, ts: seq<Token>, e: Event, parse: TimeParser)
    requires EventShaped(good, parse)
    requires !EventMemberFrom(ts, ApplyEvent(V2, e, good, parse), k, parse).status.Ok?
    ensures var x := EventMemberFrom(ts, ApplyEvent(V2, e, good, parse), k, parse);
      EventMembersFrom(MembersTokens(good) + ([Str(k)] + ts), e, parse) == Outcome(x.value, x.rest, Wrap(x.status, Key(Quoted(k))))
  {
    EventMembersOk(good, [Str(k)] + ts, e, parse);
    CloseTokens(Str(k), ts);
  }

  /** A timestamp the parser rejects resets Timestamp to zero and fails under the raw key `"timestamp"`. */
  lemma TimestampRejected(t: string, rest: seq<Token>, e: Event, parse: TimeParser)
    requires parse(t).None?
    ensures EventFrom([ObjStart, Str("timestamp"), Str(t)] + rest, e, parse)
         == Outcome(e.(Timestamp := ZeroTime), rest, Fail(Error([Key("\"timestamp\"")], TimestampParse)))
  {
    var ts := [ObjStart, Str("timestamp"), Str(t)] + rest;
    assert ts[1..] == [Str("timestamp")] + ([Str(t)] + rest);
    CloseTokens(Str("timestamp"), [Str(t)] + rest);
    CloseTokens(Str(t), rest);
    assert Quoted("timestamp") == "\"timestamp\"";
  }

  lemma EventUnknownKeySkipped(k: string, j: Json, tail: seq<Token>, e: Event, parse: TimeParser)
    requires k !in EventKeys
    ensures EventMembersFrom([Str(k)] + (Tokens(j) + tail), e, parse) == EventMembersFrom(tail, e, parse)
  {
    SkipWhole(j, tail);
    assert EventMemberFrom(Tokens(j) + tail, e, k, parse) == Outcome(e, tail, Ok);
    EventMembersStep(k, Tokens(j) + tail, e, parse);
  }
}
