/**
 * What the jx decoders compute: on a document of the expected shape, each
 * decoder consumes exactly the tokens of its value and produces the
 * Reference interpretation of it (with jx's number rule); off that shape,
 * the error paths, skipping and element order behave as decode_jx.go
 * promises.
 */
module DecodeJxProofs {
  import opened Errors
  import opened TokenStream
  import opened Events
  import opened Reference
  import opened DecodeJx

  // =====================================================================
  // Context lines

  lemma ContextLineElemsStep(s: string, rest: seq<Token>, acc: seq<string>)
    ensures ContextLineElemsFrom([Str(s)] + rest, acc) == ContextLineElemsFrom(rest, acc + [s])
  {
    CloseTokens(Str(s), rest);
  }

  lemma {:induction false} ContextLineElemsOk(es: seq<Json>, tail: seq<Token>, acc: seq<string>)
    requires StringsShaped(es)
    ensures ContextLineElemsFrom(ElemsTokens(es) + tail, acc) == ContextLineElemsFrom(tail, acc + StringsOf(es))
    decreases |es|
  {
    if es == [] {
      assert ElemsTokens(es) + tail == tail;
      assert acc + StringsOf(es) == acc;
    } else {
      var rest := ElemsTokens(es[1..]) + tail;
      ElemsSplit(es, tail);
      ScalarTokens(es[0], rest);
      ContextLineElemsStep(es[0].s, rest, acc);
      ContextLineElemsOk(es[1..], tail, acc + [es[0].s]);
      AppendRegroup(acc, es[0].s, StringsOf(es[1..]), StringsOf(es));
    }
  }

  /**
   * An element that is neither a string nor the closing bracket stops the
   * array with d.Str()'s own error, unwrapped, after the lines read so far.
   */
  lemma ContextLineNonString(ts: seq<Token>, acc: seq<string>)
    requires KindOf(ts) != KStr && KindOf(ts) != KArrEnd
    ensures ContextLineElemsFrom(ts, acc) == Outcome(acc, ts, StrFrom(ts).status)
    ensures StrFrom(ts).status.Fail?
  {
  }

  /** An array of strings is appended to the lines already there, in order. */
  lemma ContextLinesOk(es: seq<Json>, rest: seq<Token>, acc: seq<string>)
    requires StringsShaped(es)
    ensures ContextLinesFrom(Tokens(JArr(es)) + rest, acc) == Outcome(acc + StringsOf(es), rest, Ok)
  {
    ArrTokens(es, rest);
    ContextLineElemsOk(es, [ArrEnd] + rest, acc);
    CloseTokens(ArrEnd, rest);
  }

  // =====================================================================
  // Dynamic maps

  /** A member whose value decodes stores it and the loop goes on after it. */
  lemma MapMembersStep(k: string, vs: seq<Token>, dst: DynMap, prefix: string)
    requires MapValueFrom(vs, Made(dst), prefix, k).status.Ok?
    ensures var x := MapValueFrom(vs, Made(dst), prefix, k);
      MapMembersFrom([Str(k)] + vs, dst, prefix) == MapMembersFrom(x.rest, x.value, prefix)
  {
    CloseTokens(Str(k), vs);
  }

  /** A string, number or map-shaped object value stores what Flatten stores for its member. */
  lemma {:induction false} MapValueOk(k: string, v: Json, rest: seq<Token>, m: DynMap, prefix: string)
    requires m.Some? && LeafShaped(v)
    ensures MapShaped([Member(k, v)])
    ensures MapValueFrom(Tokens(v) + rest, m, prefix, k) == Outcome(Flatten(Jx, m, prefix, [Member(k, v)]), rest, Ok)
    decreases v, 1
  {
    assert [Member(k, v)][1..] == [];
    assert [Member(k, v)][0].value == v;
    if v.JObj? {
      ObjTokens(v.members, rest);
      MapMembersOk(v.members, [ObjEnd] + rest, m, prefix + k + ".");
      CloseTokens(ObjEnd, rest);
    } else {
      ScalarTokens(v, rest);
    }
  }

  lemma {:induction false} MapMembersOk(ms: seq<Member>, tail: seq<Token>, dst: DynMap, prefix: string)
    requires MapShaped(ms)
    ensures MapMembersFrom(MembersTokens(ms) + tail, dst, prefix)
         == MapMembersFrom(tail, Flatten(Jx, dst, prefix, ms), prefix)
    decreases ms, 0
  {
    if ms == [] {
      assert MembersTokens(ms) + tail == tail;
    } else {
      var rest := MembersTokens(ms[1..]) + tail;
      MembersSplit(ms, tail);
      assert LeafShaped(ms[0].value);
      MapValueOk(ms[0].key, ms[0].value, rest, Made(dst), prefix);
      MapMembersStep(ms[0].key, Tokens(ms[0].value) + rest, dst, prefix);
      FlattenFirst(Jx, dst, prefix, ms);
      assert ms[..1] == [Member(ms[0].key, ms[0].value)];
      MapMembersOk(ms[1..], tail, Flatten(Jx, Made(dst), prefix, ms[..1]), prefix);
    }
  }

  /**
   * A map object of strings, numbers and nested objects is flattened into
   * `dst` exactly as Flatten says, consuming the object and nothing more.
   */
  lemma MapOk(ms: seq<Member>, rest: seq<Token>, dst: DynMap, prefix: string)
    requires MapShaped(ms)
    ensures MapFrom(Tokens(JObj(ms)) + rest, dst, prefix) == Outcome(Flatten(Jx, dst, prefix, ms), rest, Ok)
  {
    ObjTokens(ms, rest);
    MapMembersOk(ms, [ObjEnd] + rest, dst, prefix);
    CloseTokens(ObjEnd, rest);
  }

  /**
   * A bool, null or array value in a dynamic map is an error naming its
   * key; the map has been made, and nothing after the key is consumed.
   */
  lemma MapUnsupportedValue(k: string, j: Json, tail: seq<Token>, dst: DynMap, prefix: string)
    requires j.JBool? || j.JNull? || j.JArr?
    ensures MapMembersFrom([Str(k)] + (Tokens(j) + tail), dst, prefix)
         == Outcome(Made(dst), Tokens(j) + tail, Fail(Error([Key(k)], UnsupportedValue)))
  {
    CloseTokens(Str(k), Tokens(j) + tail);
    if j.JArr? {
      ArrTokens(j.elems, tail);
    } else {
      ScalarTokens(j, tail);
    }
  }

  /** The nested example `{"os":{"name":"linux","version":"6.1"}}` flattens to two dotted keys. */
  lemma FlattenExample(rest: seq<Token>)
    ensures MapFrom([ObjStart, Str("os"), ObjStart, Str("name"), Str("linux"), Str("version"), Str("6.1"), ObjEnd, ObjEnd] + rest, None, "")
         == Outcome(Some(map["os.name" := StrValue("linux"), "os.version" := StrValue("6.1")]), rest, Ok)
  {
    var os := [Member("name", JStr("linux")), Member("version", JStr("6.1"))];
    var ms := [Member("os", JObj(os))];
    assert os[1..][1..] == [] && ms[1..] == [];
    assert MembersTokens(os[1..]) == [Str("version"), Str("6.1")];
    assert MembersTokens(os) == [Str("name"), Str("linux"), Str("version"), Str("6.1")];
    assert Tokens(JObj(os)) == [ObjStart, Str("name"), Str("linux"), Str("version"), Str("6.1"), ObjEnd];
    assert MembersTokens(ms) == [Str("os")] + Tokens(JObj(os));
    assert Tokens(JObj(ms)) == [ObjStart, Str("os"), ObjStart, Str("name"), Str("linux"), Str("version"), Str("6.1"), ObjEnd, ObjEnd];
    assert MapShaped(ms) by {
      assert MapShaped(os[1..][1..]) && MapShaped(os[1..]) && MapShaped(os) && MapShaped(ms[1..]);
    }
    MapOk(ms, rest, None, "");
    assert "" + "os" + "." == "os." && "os." + "name" == "os.name" && "os." + "version" == "os.version";
    var m1 := Store(Some(map[]), "os.name", StrValue("linux"));
    var m2 := Store(m1, "os.version", StrValue("6.1"));
    assert m2 == Some(map["os.name" := StrValue("linux"), "os.version" := StrValue("6.1")]);
    assert Flatten(Jx, m1, "os.", os[1..]) == m2;
    assert Flatten(Jx, Some(map[]), "os.", os) == m2;
    assert Flatten(Jx, None, "", ms) == Flatten(Jx, Flatten(Jx, Some(map[]), "os.", os), "", []);
  }

  /** `{"a":{}}` makes the map although it stores nothing; `{}` leaves it nil. */
  lemma MadeLazilyExample(rest: seq<Token>)
    ensures MapFrom([ObjStart, Str("a"), ObjStart, ObjEnd, ObjEnd] + rest, None, "") == Outcome(Some(map[]), rest, Ok)
    ensures MapFrom([ObjStart, ObjEnd] + rest, None, "") == Outcome(None, rest, Ok)
  {
    var ms := [Member("a", JObj([]))];
    assert Tokens(JObj(ms)) == [ObjStart, Str("a"), ObjStart, ObjEnd, ObjEnd];
    assert Tokens(JObj([])) == [ObjStart, ObjEnd];
    assert MapShaped(ms) by {
      assert MapShaped(ms[1..]);
    }
    MapOk(ms, rest, None, "");
    MapOk([], rest, None, "");
    assert ms[1..] == [];
  }

  // =====================================================================
  // String maps

  /** A string tag is stored under its key and the loop continues after it. */
  lemma StrMapMembersStep(k: string, v: string, rest: seq<Token>, dst: StrMap)
    ensures StrMapMembersFrom([Str(k)] + ([Str(v)] + rest), dst) == StrMapMembersFrom(rest, Some(Made(dst).value[k := v]))
  {
    CloseTokens(Str(k), [Str(v)] + rest);
    CloseTokens(Str(v), rest);
  }

  lemma {:induction false} StrMapMembersOk(ms: seq<Member>, tail: seq<Token>, dst: StrMap)
    requires TagsShaped(ms)
    ensures StrMapMembersFrom(MembersTokens(ms) + tail, dst) == StrMapMembersFrom(tail, ApplyTags(dst, ms))
    decreases |ms|
  {
    if ms == [] {
      assert MembersTokens(ms) + tail == tail;
    } else {
      var rest := MembersTokens(ms[1..]) + tail;
      var next := Some(Made(dst).value[ms[0].key := ms[0].value.s]);
      MembersSplit(ms, tail);
      ScalarTokens(ms[0].value, rest);
      StrMapMembersStep(ms[0].key, ms[0].value.s, rest, dst);
      StrMapMembersOk(ms[1..], tail, next);
      assert ApplyTags(dst, ms) == ApplyTags(next, ms[1..]);
    }
  }

  /** Every key of a string-valued object is stored with its string, unflattened. */
  lemma StrMapOk(ms: seq<Member>, rest: seq<Token>, dst: StrMap)
    requires TagsShaped(ms)
    ensures StrMapFrom(Tokens(JObj(ms)) + rest, dst) == Outcome(ApplyTags(dst, ms), rest, Ok)
  {
    ObjTokens(ms, rest);
    StrMapMembersOk(ms, [ObjEnd] + rest, dst);
    CloseTokens(ObjEnd, rest);
  }

  /** A non-string tag value fails, wrapped with its key; the map has been made. */
  lemma StrMapNonString(k: string, ts: seq<Token>, dst: StrMap)
    requires KindOf(ts) != KStr
    ensures StrMapMembersFrom([Str(k)] + ts, dst).value == Made(dst)
    ensures StrMapMembersFrom([Str(k)] + ts, dst).status == Wrap(StrFrom(ts).status, Key(k))
    ensures StrMapMembersFrom([Str(k)] + ts, dst).status.Fail?
  {
    CloseTokens(Str(k), ts);
  }

  // =====================================================================
  // Frame

  lemma FrameMemberOk(m: Member, rest: seq<Token>, f: Frame)
    requires FrameFieldShaped(m)
    ensures FrameMemberFrom(Tokens(m.value) + rest, f, m.key) == Outcome(ApplyFrameMember(Jx, f, m), rest, Ok)
  {
    var v := m.value;
    if m.key in {"filename", "abs_path", "module", "function", "context_line", "lineno", "in_app"} {
      ScalarTokens(v, rest);
    } else if m.key in {"pre_context", "post_context"} {
      ContextLinesOk(v.elems, rest, f.PreCtx);
    } else if m.key == "vars" {
      MapOk(v.members, rest, f.Vars, "");
    } else {
      SkipWhole(v, rest);
    }
  }

  /** A member whose value decodes updates the frame and the loop goes on after it. */
  lemma FrameMembersStep(k: string, vs: seq<Token>, f: Frame)
    requires FrameMemberFrom(vs, f, k).status.Ok?
    ensures var x := FrameMemberFrom(vs, f, k);
      FrameMembersFrom([Str(k)] + vs, f) == FrameMembersFrom(x.rest, x.value)
  {
    CloseTokens(Str(k), vs);
  }

  lemma {:induction false} FrameMembersOk(ms: seq<Member>, tail: seq<Token>, f: Frame)
    requires FrameShaped(ms)
    ensures FrameMembersFrom(MembersTokens(ms) + tail, f) == FrameMembersFrom(tail, ApplyFrame(Jx, f, ms))
    decreases |ms|
  {
    if ms == [] {
      assert MembersTokens(ms) + tail == tail;
    } else {
      MembersSplit(ms, tail);
      FrameMemberOk(ms[0], MembersTokens(ms[1..]) + tail, f);
      FrameMembersStep(ms[0].key, Tokens(ms[0].value) + (MembersTokens(ms[1..]) + tail), f);
      FrameMembersOk(ms[1..], tail, ApplyFrameMember(Jx, f, ms[0]));
    }
  }

  /** A failing frame member stops the object with its error wrapped in its key. */
  lemma FrameMemberFails(good: seq<Member>, k: string, ts: seq<Token>, f: Frame)
    requires FrameShaped(good)
    requires !FrameMemberFrom(ts, ApplyFrame(Jx, f, good), k).status.Ok?
    ensures var x := FrameMemberFrom(ts, ApplyFrame(Jx, f, good), k);
      FrameMembersFrom(MembersTokens(good) + ([Str(k)] + ts), f) == Outcome(x.value, x.rest, Wrap(x.status, Key(k)))
  {
    FrameMembersOk(good, [Str(k)] + ts, f);
    CloseTokens(Str(k), ts);
  }

  /** A frame object sets exactly the fields ApplyFrame says, and consumes the object. */
  lemma FrameOk(ms: seq<Member>, rest: seq<Token>, f: Frame)
    requires FrameShaped(ms)
    ensures FrameFrom(Tokens(JObj(ms)) + rest, f) == Outcome(ApplyFrame(Jx, f, ms), rest, Ok)
  {
    ObjTokens(ms, rest);
    FrameMembersOk(ms, [ObjEnd] + rest, f);
    CloseTokens(ObjEnd, rest);
  }

  /** A member with a key outside the switch is skipped whole and changes no field. */
  lemma FrameUnknownKeySkipped(k: string, j: Json, tail: seq<Token>, f: Frame)
    requires k !in FrameKeys
    ensures FrameMembersFrom([Str(k)] + (Tokens(j) + tail), f) == FrameMembersFrom(tail, f)
  {
    SkipWhole(j, tail);
    assert FrameMemberFrom(Tokens(j) + tail, f, k) == Outcome(f, tail, Ok);
    FrameMembersStep(k, Tokens(j) + tail, f);
  }

  /** `pre_context` then `post_context`: PreCtx holds both, in order; PostCtx stays empty. */
  lemma ContextExample(pre: string, post: string, rest: seq<Token>)
    ensures FrameFrom([ObjStart, Str("pre_context"), ArrStart, Str(pre), ArrEnd,
                       Str("post_context"), ArrStart, Str(post), ArrEnd, ObjEnd] + rest, ZeroFrame)
         == Outcome(ZeroFrame.(PreCtx := [pre, post]), rest, Ok)
  {
    var ms := [Member("pre_context", JArr([JStr(pre)])), Member("post_context", JArr([JStr(post)]))];
    assert ms[1..][1..] == [] && [JStr(pre)][1..] == [] && [JStr(post)][1..] == [];
    assert ElemsTokens([JStr(pre)]) == [Str(pre)] && ElemsTokens([JStr(post)]) == [Str(post)];
    assert Tokens(JArr([JStr(pre)])) == [ArrStart, Str(pre), ArrEnd];
    assert Tokens(JArr([JStr(post)])) == [ArrStart, Str(post), ArrEnd];
    assert MembersTokens(ms[1..]) == [Str("post_context"), ArrStart, Str(post), ArrEnd];
    assert MembersTokens(ms) == [Str("pre_context"), ArrStart, Str(pre), ArrEnd, Str("post_context"), ArrStart, Str(post), ArrEnd];
    assert Tokens(JObj(ms)) == [ObjStart, Str("pre_context"), ArrStart, Str(pre), ArrEnd,
                                Str("post_context"), ArrStart, Str(post), ArrEnd, ObjEnd];
    assert StringsShaped([JStr(pre)]) && StringsShaped([JStr(post)]);
    assert FrameShaped(ms) by {
      assert FrameShaped(ms[1..][1..]) && FrameShaped(ms[1..]);
    }
    FrameOk(ms, rest, ZeroFrame);
    assert StringsOf([JStr(pre)]) == [pre] && StringsOf([JStr(post)]) == [post];
    var f1 := ApplyFrameMember(Jx, ZeroFrame, ms[0]);
    assert f1 == ZeroFrame.(PreCtx := [pre]);
    assert ApplyFrameMember(Jx, f1, ms[1]) == ZeroFrame.(PreCtx := [pre, post]);
    assert ApplyFrame(Jx, ZeroFrame, ms) == ApplyFrame(Jx, f1, ms[1..]);
  }

  // =====================================================================
  // Frames

  /** One element decoded successfully is appended and the loop continues after it. */
  lemma FrameElemsStep(ts: seq<Token>, acc: seq<Frame>)
    requires ts != [] && ts[0] != ArrEnd && FrameFrom(ts, ZeroFrame).status.Ok?
    ensures var x := FrameFrom(ts, ZeroFrame);
      FrameElemsFrom(ts, acc) == FrameElemsFrom(x.rest, acc + [x.value])
  {
  }

  lemma {:induction false} FrameElemsOk(es: seq<Json>, tail: seq<Token>, acc: seq<Frame>)
    requires FramesShaped(es)
    ensures FrameElemsFrom(ElemsTokens(es) + tail, acc) == FrameElemsFrom(tail, acc + FramesOf(Jx, es))
    decreases |es|
  {
    if es == [] {
      assert ElemsTokens(es) + tail == tail;
      assert acc + FramesOf(Jx, es) == acc;
    } else {
      var rest := ElemsTokens(es[1..]) + tail;
      ElemsSplit(es, tail);
      FrameOk(es[0].members, rest, ZeroFrame);
      ObjTokens(es[0].members, rest);
      FrameElemsStep(Tokens(es[0]) + rest, acc);
      var x := ApplyFrame(Jx, ZeroFrame, es[0].members);
      FrameElemsOk(es[1..], tail, acc + [x]);
      AppendRegroup(acc, x, FramesOf(Jx, es[1..]), FramesOf(Jx, es));
    }
  }

  /** The frames of an array are appended in document order. */
  lemma FramesOk(es: seq<Json>, rest: seq<Token>, acc: seq<Frame>)
    requires FramesShaped(es)
    ensures FramesFrom(Tokens(JArr(es)) + rest, acc) == Outcome(acc + FramesOf(Jx, es), rest, Ok)
  {
    ArrTokens(es, rest);
    FrameElemsOk(es, [ArrEnd] + rest, acc);
    CloseTokens(ArrEnd, rest);
  }

  /** A failing element stops the loop with its error wrapped with its index. */
  lemma FrameElemsFailStep(ts: seq<Token>, acc: seq<Frame>)
    requires ts != [] && ts[0] != ArrEnd && !FrameFrom(ts, ZeroFrame).status.Ok?
    ensures var x := FrameFrom(ts, ZeroFrame);
      FrameElemsFrom(ts, acc) == Outcome(acc, x.rest, Wrap(x.status, Index(|acc|)))
  {
  }

  /**
   * When the element after `good` fails, the frames before it have been
   * appended, it is not, and its error is wrapped with its index: the
   * number of frames appended so far (one per element, by FramesOf).
   */
  lemma FrameElementFails(good: seq<Json>, ts: seq<Token>, acc: seq<Frame>)
    requires FramesShaped(good) && ts != [] && ts[0] != ArrEnd
    requires !FrameFrom(ts, ZeroFrame).status.Ok?
    ensures var done, x := acc + FramesOf(Jx, good), FrameFrom(ts, ZeroFrame);
      FrameElemsFrom(ElemsTokens(good) + ts, acc) == Outcome(done, x.rest, Wrap(x.status, Index(|done|)))
  {
    FrameElemsOk(good, ts, acc);
    FrameElemsFailStep(ts, acc + FramesOf(Jx, good));
  }

  // =====================================================================
  // Exception

  lemma ExceptionMemberOk(m: Member, rest: seq<Token>, e: Exception)
    requires ExceptionFieldShaped(m)
    ensures ExceptionMemberFrom(Tokens(m.value) + rest, e, m.key) == Outcome(ApplyExceptionMember(Jx, e, m), rest, Ok)
  {
    var v := m.value;
    if m.key in {"module", "type", "value"} {
      ScalarTokens(v, rest);
    } else if m.key == "frames" {
      FramesOk(v.elems, rest, e.Frames);
    } else {
      SkipWhole(v, rest);
    }
  }

  /** A member whose value decodes updates the exception and the loop goes on after it. */
  lemma ExceptionMembersStep(k: string, vs: seq<Token>, e: Exception)
    requires ExceptionMemberFrom(vs, e, k).status.Ok?
    ensures var x := ExceptionMemberFrom(vs, e, k);
      ExceptionMembersFrom([Str(k)] + vs, e) == ExceptionMembersFrom(x.rest, x.value)
  {
    CloseTokens(Str(k), vs);
  }

  lemma {:induction false} ExceptionMembersOk(ms: seq<Member>, tail: seq<Token>, e: Exception)
    requires ExceptionShaped(ms)
    ensures ExceptionMembersFrom(MembersTokens(ms) + tail, e) == ExceptionMembersFrom(tail, ApplyException(Jx, e, ms))
    decreases |ms|
  {
    if ms == [] {
      assert MembersTokens(ms) + tail == tail;
    } else {
      MembersSplit(ms, tail);
      ExceptionMemberOk(ms[0], MembersTokens(ms[1..]) + tail, e);
      ExceptionMembersStep(ms[0].key, Tokens(ms[0].value) + (MembersTokens(ms[1..]) + tail), e);
      ExceptionMembersOk(ms[1..], tail, ApplyExceptionMember(Jx, e, ms[0]));
    }
  }

  /** A failing exception member stops the object with its error wrapped in its key. */
  lemma ExceptionMemberFails(good: seq<Member>, k: string, ts: seq<Token>, e: Exception)
    requires ExceptionShaped(good)
    requires !ExceptionMemberFrom(ts, ApplyException(Jx, e, good), k).status.Ok?
    ensures var x := ExceptionMemberFrom(ts, ApplyException(Jx, e, good), k);
      ExceptionMembersFrom(MembersTokens(good) + ([Str(k)] + ts), e) == Outcome(x.value, x.rest, Wrap(x.status, Key(k)))
  {
    ExceptionMembersOk(good, [Str(k)] + ts, e);
    CloseTokens(Str(k), ts);
  }

  lemma ExceptionOk(ms: seq<Member>, rest: seq<Token>, e: Exception)
    requires ExceptionShaped(ms)
    ensures ExceptionFrom(Tokens(JObj(ms)) + rest, e) == Outcome(ApplyException(Jx, e, ms), rest, Ok)
  {
    ObjTokens(ms, rest);
    ExceptionMembersOk(ms, [ObjEnd] + rest, e);
    CloseTokens(ObjEnd, rest);
  }

  lemma ExceptionUnknownKeySkipped(k: string, j: Json, tail: seq<Token>, e: Exception)
    requires k !in ExceptionKeys
    ensures ExceptionMembersFrom([Str(k)] + (Tokens(j) + tail), e) == ExceptionMembersFrom(tail, e)
  {
    SkipWhole(j, tail);
    assert ExceptionMemberFrom(Tokens(j) + tail, e, k) == Outcome(e, tail, Ok);
    ExceptionMembersStep(k, Tokens(j) + tail, e);
  }

  // =====================================================================
  // Exceptions

  /** One element decoded successfully is appended and the loop continues after it. */
  lemma ExceptionElemsStep(ts: seq<Token>, acc: seq<Exception>)
    requires ts != [] && ts[0] != ArrEnd && ExceptionFrom(ts, ZeroException).status.Ok?
    ensures var x := ExceptionFrom(ts, ZeroException);
      ExceptionElemsFrom(ts, acc) == ExceptionElemsFrom(x.rest, acc + [x.value])
  {
  }

  lemma {:induction false} ExceptionElemsOk(es: seq<Json>, tail: seq<Token>, acc: seq<Exception>)
    requires ExceptionsShaped(es)
    ensures ExceptionElemsFrom(ElemsTokens(es) + tail, acc) == ExceptionElemsFrom(tail, acc + ExceptionsOf(Jx, es))
    decreases |es|
  {
    if es == [] {
      assert ElemsTokens(es) + tail == tail;
      assert acc + ExceptionsOf(Jx, es) == acc;
    } else {
      var rest := ElemsTokens(es[1..]) + tail;
      ElemsSplit(es, tail);
      ExceptionOk(es[0].members, rest, ZeroException);
      ObjTokens(es[0].members, rest);
      ExceptionElemsStep(Tokens(es[0]) + rest, acc);
      var x := ApplyException(Jx, ZeroException, es[0].members);
      ExceptionElemsOk(es[1..], tail, acc + [x]);
      AppendRegroup(acc, x, ExceptionsOf(Jx, es[1..]), ExceptionsOf(Jx, es));
    }
  }

  lemma ExceptionsOk(es: seq<Json>, rest: seq<Token>, acc: seq<Exception>)
    requires ExceptionsShaped(es)
    ensures ExceptionsFrom(Tokens(JArr(es)) + rest, acc) == Outcome(acc + ExceptionsOf(Jx, es), rest, Ok)
  {
    ArrTokens(es, rest);
    ExceptionElemsOk(es, [ArrEnd] + rest, acc);
    CloseTokens(ArrEnd, rest);
  }

  /** A failing element stops the loop with its error wrapped with its index. */
  lemma ExceptionElemsFailStep(ts: seq<Token>, acc: seq<Exception>)
    requires ts != [] && ts[0] != ArrEnd && !ExceptionFrom(ts, ZeroException).status.Ok?
    ensures var x := ExceptionFrom(ts, ZeroException);
      ExceptionElemsFrom(ts, acc) == Outcome(acc, x.rest, Wrap(x.status, Index(|acc|)))
  {
  }

  /**
   * When the element after `good` fails, the exceptions before it have been
   * appended, it is not, and its error is wrapped with its index: the
   * number of exceptions appended so far (one per element, by ExceptionsOf).
   */
  lemma ExceptionElementFails(good: seq<Json>, ts: seq<Token>, acc: seq<Exception>)
    requires ExceptionsShaped(good) && ts != [] && ts[0] != ArrEnd
    requires !ExceptionFrom(ts, ZeroException).status.Ok?
    ensures var done, x := acc + ExceptionsOf(Jx, good), ExceptionFrom(ts, ZeroException);
      ExceptionElemsFrom(ElemsTokens(good) + ts, acc) == Outcome(done, x.rest, Wrap(x.status, Index(|done|)))
  {
    ExceptionElemsOk(good, ts, acc);
    ExceptionElemsFailStep(ts, acc + ExceptionsOf(Jx, good));
  }

  // =====================================================================
  // Frames.Decode and Exceptions.Decode as instances of Array.Decode

  lemma {:induction false} FrameElemsAreArray(ts: seq<Token>, acc: seq<Frame>)
    requires Progresses(FrameElement)
    ensures FrameElemsFrom(ts, acc) == ArrayElemsFrom(ts, acc, FrameElement)
    decreases |ts|
  {
    if ts != [] && ts[0] != ArrEnd {
      var x := FrameFrom(ts, ZeroFrame);
      assert FrameElement(ts) == x;
      if x.status.Ok? {
        FrameElemsAreArray(x.rest, acc + [x.value]);
      }
    }
  }

  /** Frames.Decode is the generic array loop run with the Frame decoder. */
  lemma FramesAreArray(ts: seq<Token>, acc: seq<Frame>)
    ensures Progresses(FrameElement)
    ensures FramesFrom(ts, acc) == ArrayFrom(ts, acc, FrameElement)
  {
    assert Progresses(FrameElement) by {
      forall t: seq<Token> ensures |FrameElement(t).rest| <= |t| && (FrameElement(t).status.Ok? ==> |FrameElement(t).rest| < |t|) {
        assert FrameElement(t) == FrameFrom(t, ZeroFrame);
      }
    }
    if ts != [] && ts[0] == ArrStart {
      FrameElemsAreArray(ts[1..], acc);
    }
  }

  lemma {:induction false} ExceptionElemsAreArray(ts: seq<Token>, acc: seq<Exception>)
    requires Progresses(ExceptionElement)
    ensures ExceptionElemsFrom(ts, acc) == ArrayElemsFrom(ts, acc, ExceptionElement)
    decreases |ts|
  {
    if ts != [] && ts[0] != ArrEnd {
      var x := ExceptionFrom(ts, ZeroException);
      assert ExceptionElement(ts) == x;
      if x.status.Ok? {
        ExceptionElemsAreArray(x.rest, acc + [x.value]);
      }
    }
  }

  /** Exceptions.Decode is the generic array loop run with the Exception decoder. */
  lemma ExceptionsAreArray(ts: seq<Token>, acc: seq<Exception>)
    ensures Progresses(ExceptionElement)
    ensures ExceptionsFrom(ts, acc) == ArrayFrom(ts, acc, ExceptionElement)
  {
    assert Progresses(ExceptionElement) by {
      forall t: seq<Token> ensures |ExceptionElement(t).rest| <= |t| && (ExceptionElement(t).status.Ok? ==> |ExceptionElement(t).rest| < |t|) {
        assert ExceptionElement(t) == ExceptionFrom(t, ZeroException);
      }
    }
    if ts != [] && ts[0] == ArrStart {
      ExceptionElemsAreArray(ts[1..], acc);
    }
  }

  // =====================================================================
  // SDK

  lemma {:induction false} SdkMembersOk(ms: seq<Member>, tail: seq<Token>, s: Sdk)
    requires SdkShaped(ms)
    ensures SdkMembersFrom(MembersTokens(ms) + tail, s) == SdkMembersFrom(tail, ApplySdk(s, ms))
    decreases |ms|
  {
    if ms == [] {
      assert MembersTokens(ms) + tail == tail;
    } else {
      var rest := MembersTokens(ms[1..]) + tail;
      MembersSplit(ms, tail);
      if ms[0].key in SdkKeys {
        ScalarTokens(ms[0].value, rest);
      } else {
        SkipWhole(ms[0].value, rest);
      }
      SdkMembersOk(ms[1..], tail, ApplySdkMember(s, ms[0]));
    }
  }

  /** A failing SDK member stops the object with its error wrapped in its key. */
  lemma SdkMemberFails(good: seq<Member>, k: string, ts: seq<Token>, s: Sdk)
    requires SdkShaped(good)
    requires !SdkMemberFrom(ts, ApplySdk(s, good), k).status.Ok?
    ensures var x := SdkMemberFrom(ts, ApplySdk(s, good), k);
      SdkMembersFrom(MembersTokens(good) + ([Str(k)] + ts), s) == Outcome(x.value, x.rest, Wrap(x.status, Key(k)))
  {
    SdkMembersOk(good, [Str(k)] + ts, s);
    CloseTokens(Str(k), ts);
  }

  lemma SdkOk(ms: seq<Member>, rest: seq<Token>, s: Sdk)
    requires SdkShaped(ms)
    ensures SdkFrom(Tokens(JObj(ms)) + rest, s) == Outcome(ApplySdk(s, ms), rest, Ok)
  {
    ObjTokens(ms, rest);
    SdkMembersOk(ms, [ObjEnd] + rest, s);
    CloseTokens(ObjEnd, rest);
  }

  // =====================================================================
  // Event

  lemma EventMemberOk(m: Member, rest: seq<Token>, e: Event, parse: TimeParser)
    requires EventFieldShaped(m, parse)
    ensures EventMemberFrom(Tokens(m.value) + rest, e, m.key, parse)
         == Outcome(ApplyEventMember(Jx, e, m, parse), rest, Ok)
  {
    var v := m.value;
    if m.key in {"platform", "server_name", "environment", "release", "level", "event_id", "message", "timestamp"} {
      ScalarTokens(v, rest);
    } else if m.key == "sdk" {
      SdkOk(v.members, rest, e.SDK);
    } else if m.key in {"contexts", "extra", "user"} {
      MapOk(v.members, rest, e.Contexts, "");
      MapOk(v.members, rest, e.Extra, "");
      MapOk(v.members, rest, e.User, "");
    } else if m.key == "tags" {
      StrMapOk(v.members, rest, e.Tags);
    } else if m.key == "exception" {
      ExceptionsOk(v.elems, rest, e.Exception);
    } else {
      SkipWhole(v, rest);
    }
  }

  /** A member whose value decodes updates the event and the loop goes on after it. */
  lemma EventMembersStep(k: string, vs: seq<Token>, e: Event, parse: TimeParser)
    requires EventMemberFrom(vs, e, k, parse).status.Ok?
    ensures var x := EventMemberFrom(vs, e, k, parse);
      EventMembersFrom([Str(k)] + vs, e, parse) == EventMembersFrom(x.rest, x.value, parse)
  {
    CloseTokens(Str(k), vs);
  }

  lemma {:induction false} EventMembersOk(ms: seq<Member>, tail: seq<Token>, e: Event, parse: TimeParser)
    requires EventShaped(ms, parse)
    ensures EventMembersFrom(MembersTokens(ms) + tail, e, parse) == EventMembersFrom(tail, ApplyEvent(Jx, e, ms, parse), parse)
    decreases |ms|
  {
    if ms == [] {
      assert MembersTokens(ms) + tail == tail;
    } else {
      MembersSplit(ms, tail);
      EventMemberOk(ms[0], MembersTokens(ms[1..]) + tail, e, parse);
      EventMembersStep(ms[0].key, Tokens(ms[0].value) + (MembersTokens(ms[1..]) + tail), e, parse);
      EventMembersOk(ms[1..], tail, ApplyEventMember(Jx, e, ms[0], parse), parse);
    }
  }

  /**
   * An event document of the expected shape decodes to the Reference
   * interpretation of its members, applied in document order, and exactly
   * its tokens are consumed.
   */
  lemma EventOk(ms: seq<Member>, rest: seq<Token>, e: Event, parse: TimeParser)
    requires EventShaped(ms, parse)
    ensures EventFrom(Tokens(JObj(ms)) + rest, e, parse) == Outcome(ApplyEvent(Jx, e, ms, parse), rest, Ok)
  {
    ObjTokens(ms, rest);
    EventMembersOk(ms, [ObjEnd] + rest, e, parse);
    CloseTokens(ObjEnd, rest);
  }

  /**
   * When the member after `good` fails, decoding stops there with that
   * member's error wrapped with its key, and the fields set so far kept.
   */
  lemma EventMemberFails(good: seq<Member>, k: string, ts: seq<Token>, e: Event, parse: TimeParser)
    requires EventShaped(good, parse)
    requires !EventMemberFrom(ts, ApplyEvent(Jx, e, good, parse), k, parse).status.Ok?
    ensures var x := EventMemberFrom(ts, ApplyEvent(Jx, e, good, parse), k, parse);
      EventMembersFrom(MembersTokens(good) + ([Str(k)] + ts), e, parse) == Outcome(x.value, x.rest, Wrap(x.status, Key(k)))
  {
    EventMembersOk(good, [Str(k)] + ts, e, parse);
    CloseTokens(Str(k), ts);
  }

  /** A timestamp the parser rejects resets Timestamp to zero and fails under "timestamp". */
  lemma TimestampRejected(t: string, rest: seq<Token>, e: Event, parse: TimeParser)
    requires parse(t).None?
    ensures EventFrom([ObjStart, Str("timestamp"), Str(t)] + rest, e, parse)
         == Outcome(e.(Timestamp := ZeroTime), rest, Fail(Error([Key("timestamp")], TimestampParse)))
  {
    var ts := [ObjStart, Str("timestamp"), Str(t)] + rest;
    assert ts[1..] == [Str("timestamp")] + ([Str(t)] + rest);
    CloseTokens(Str("timestamp"), [Str(t)] + rest);
    CloseTokens(Str(t), rest);
  }

  lemma EventUnknownKeySkipped(k: string, j: Json, tail: seq<Token>, e: Event, parse: TimeParser)
    requires k !in EventKeys
    ensures EventMembersFrom([Str(k)] + (Tokens(j) + tail), e, parse) == EventMembersFrom(tail, e, parse)
  {
    SkipWhole(j, tail);
    assert EventMemberFrom(Tokens(j) + tail, e, k, parse) == Outcome(e, tail, Ok);
    EventMembersStep(k, Tokens(j) + tail, e, parse);
  }
}
