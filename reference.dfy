/**
 * What decoding an Event means, stated on JSON trees rather than on token
 * streams: the fields a document of the expected shape sets, the entries a
 * nested object flattens into, the order of array elements. Both backends
 * are proved to compute exactly this on well-shaped input
 * (DecodeJxProofs, DecodeJsonV2Proofs), under a Backend that picks the
 * map number rule (LeafNumber): jx stores a Go int or a float, jsontext an
 * int64. The v2 decoders' error swallowing and early returns lie outside
 * the well-shaped documents described here.
 */
module Reference {
  import opened Errors
  import opened TokenStream
  import opened Events

  datatype Backend = Jx | V2

  /**
   * The map entry for a number: jx keeps an integer literal as a Go int
   * and any other literal as a float; jsontext's Token.Int() takes the
   * integer view of every literal, as an int64.
   */
  function LeafNumber(b: Backend, n: Number): (v: MapValue)
    ensures b == Jx && n.integral ==> v == IntValue(n.intValue)
    ensures b == Jx && !n.integral ==> v == FloatValue(n.text)
    ensures b == V2 ==> v == Int64Value(n.intValue)
  {
    match b
    case Jx => if n.integral then IntValue(n.intValue) else FloatValue(n.text)
    case V2 => Int64Value(n.intValue)
  }

  // =====================================================================
  // Dynamic maps

  /** Every value is a string, a number, or an object of the same shape. */
  predicate MapShaped(ms: seq<Member>)
    decreases ms, 0
  {
    ms == [] || (LeafShaped(ms[0].value) && MapShaped(ms[1..]))
  }

  predicate LeafShaped(j: Json)
    decreases j, 1
  {
    match j
    case JStr(_) => true
    case JNum(_) => true
    case JObj(sub) => MapShaped(sub)
    case _ => false
  }

  /**
   * The keys a map object contributes under `prefix`: `prefix + k` for a
   * string or number member `k`, and the keys of an object member under
   * `prefix + k + "."`.
   */
  function LeafPaths(prefix: string, ms: seq<Member>): set<string>
    requires MapShaped(ms)
    decreases ms
  {
    if ms == [] then {}
    else
      assert LeafShaped(ms[0].value);
      var k := ms[0].key;
      (match ms[0].value
       case JObj(sub) => LeafPaths(prefix + k + ".", sub)
       case _ => {prefix + k})
      + LeafPaths(prefix, ms[1..])
  }

  /** The keys of a map, nil counting as empty. */
  function KeysOf<V>(m: Option<map<string, V>>): set<string>
  {
    if m.None? then {} else m.value.Keys
  }

  /**
   * The members of a map object, in order, flattened into `dst`: the map
   * is made by the first member; a later member overwrites an earlier
   * entry with the same path.
   */
  function Flatten(b: Backend, dst: DynMap, prefix: string, ms: seq<Member>): (r: DynMap)
    requires MapShaped(ms)
    ensures r.None? <==> dst.None? && ms == []
    ensures KeysOf(r) == KeysOf(dst) + LeafPaths(prefix, ms)
    ensures dst.Some? ==> forall p | p in dst.value && p !in LeafPaths(prefix, ms) :: r.value[p] == dst.value[p]
    decreases ms
  {
    if ms == [] then dst
    else
      assert LeafShaped(ms[0].value);
      var m := Made(dst);
      var k := ms[0].key;
      match ms[0].value
      case JStr(s) => Flatten(b, Store(m, prefix + k, StrValue(s)), prefix, ms[1..])
      case JNum(n) => Flatten(b, Store(m, prefix + k, LeafNumber(b, n)), prefix, ms[1..])
      case JObj(sub) => Flatten(b, Flatten(b, m, prefix + k + ".", sub), prefix, ms[1..])
      case _ => assert false; dst
  }

  /** The first member of a map object is the first fold step of Flatten. */
  lemma FlattenFirst(b: Backend, dst: DynMap, prefix: string, ms: seq<Member>)
    requires MapShaped(ms) && ms != []
    ensures MapShaped(ms[..1]) && MapShaped(ms[1..])
    ensures Flatten(b, dst, prefix, ms) == Flatten(b, Flatten(b, Made(dst), prefix, ms[..1]), prefix, ms[1..])
  {
    assert ms[..1][1..] == [];
  }

  /**
   * A string or number member is stored under `prefix + k` as its string or
   * its number entry, unless a later member writes the same path.
   */
  lemma LeafStored(b: Backend, dst: DynMap, prefix: string, k: string, v: Json, rest: seq<Member>)
    requires (v.JStr? || v.JNum?) && MapShaped(rest) && prefix + k !in LeafPaths(prefix, rest)
    ensures MapShaped([Member(k, v)] + rest)
    ensures var r := Flatten(b, dst, prefix, [Member(k, v)] + rest);
      r.Some? && prefix + k in r.value
      && r.value[prefix + k] == (if v.JStr? then StrValue(v.s) else LeafNumber(b, v.n))
  {
    var ms := [Member(k, v)] + rest;
    assert ms[0] == Member(k, v) && ms[1..] == rest;
    assert LeafShaped(ms[0].value);
  }

  /** Every path a map object contributes starts with the prefix. */
  lemma {:induction false} LeafPathsExtend(prefix: string, ms: seq<Member>)
    requires MapShaped(ms)
    ensures forall p | p in LeafPaths(prefix, ms) :: |p| >= |prefix| && p[..|prefix|] == prefix
    decreases ms
  {
    if ms != [] {
      var k := ms[0].key;
      LeafPathsExtend(prefix, ms[1..]);
      match ms[0].value {
        case JObj(sub) =>
          LeafPathsExtend(prefix + k + ".", sub);
          forall p | p in LeafPaths(prefix + k + ".", sub)
            ensures |p| >= |prefix| && p[..|prefix|] == prefix
          {
            assert p[..|prefix|] == (p[..|prefix + k + "."|])[..|prefix|];
          }
        case _ =>
          assert (prefix + k)[..|prefix|] == prefix;
      }
    }
  }

  /**
   * A nested object gets no entry of its own: its members' paths are all
   * longer than `prefix + k`.
   */
  lemma NestedObjectNoEntry(b: Backend, dst: DynMap, prefix: string, k: string, sub: seq<Member>)
    requires MapShaped(sub) && prefix + k !in KeysOf(dst)
    ensures MapShaped([Member(k, JObj(sub))])
    ensures prefix + k !in KeysOf(Flatten(b, dst, prefix, [Member(k, JObj(sub))]))
  {
    var ms := [Member(k, JObj(sub))];
    assert ms[1..] == [];
    assert LeafShaped(ms[0].value) && MapShaped(ms[1..]);
    LeafPathsExtend(prefix + k + ".", sub);
    assert LeafPaths(prefix, ms) == LeafPaths(prefix + k + ".", sub);
  }

  // =====================================================================
  // Integral numbers: the inputs on which the backends' maps agree.

  predicate AllIntegral(j: Json)
    decreases j, 1
  {
    match j
    case JNum(n) => n.integral
    case JArr(es) => ElemsIntegral(es)
    case JObj(ms) => MembersIntegral(ms)
    case _ => true
  }

  predicate ElemsIntegral(es: seq<Json>)
    decreases es, 0
  {
    es == [] || (AllIntegral(es[0]) && ElemsIntegral(es[1..]))
  }

  predicate MembersIntegral(ms: seq<Member>)
    decreases ms, 0
  {
    ms == [] || (AllIntegral(ms[0].value) && MembersIntegral(ms[1..]))
  }

  // =====================================================================
  // String maps (tags) and string arrays (context lines)

  predicate TagsShaped(ms: seq<Member>)
  {
    ms == [] || (ms[0].value.JStr? && TagsShaped(ms[1..]))
  }

  /**
   * The tags of an object, in order, stored verbatim into `dst`: each key
   * holds the string of its last member, and every other entry is kept.
   */
  function ApplyTags(dst: StrMap, ms: seq<Member>): (r: StrMap)
    requires TagsShaped(ms)
    decreases |ms|
    ensures r.None? <==> dst.None? && ms == []
    ensures KeysOf(r) == KeysOf(dst) + KeysIn(ms)
    ensures dst.Some? ==> forall k | k in dst.value && k !in KeysIn(ms) :: r.value[k] == dst.value[k]
    ensures forall i | 0 <= i < |ms| && ms[i].key !in KeysIn(ms[i + 1..]) ::
              ms[i].value.JStr? && r.value[ms[i].key] == ms[i].value.s
  {
    if ms == [] then dst
    else
      KeysInSplit(ms);
      ApplyTags(Some(Made(dst).value[ms[0].key := ms[0].value.s]), ms[1..])
  }

  /** The keys of members are the first key and the keys of the rest. */
  lemma KeysInSplit(ms: seq<Member>)
    requires ms != []
    ensures KeysIn(ms) == {ms[0].key} + KeysIn(ms[1..])
    ensures forall i | 1 <= i < |ms| :: ms[1..][i - 1] == ms[i] && ms[1..][i..] == ms[i + 1..]
  {
    forall k | k in KeysIn(ms) ensures k in {ms[0].key} + KeysIn(ms[1..]) {
      var i :| 0 <= i < |ms| && ms[i].key == k;
      if i > 0 { assert ms[1..][i - 1].key == k; }
    }
    forall k | k in KeysIn(ms[1..]) ensures k in KeysIn(ms) {
      var i :| 0 <= i < |ms[1..]| && ms[1..][i].key == k;
      assert ms[i + 1].key == k;
    }
  }

  /** Regrouping an accumulator after one more element is appended. */
  lemma AppendRegroup<T>(acc: seq<T>, x: T, xs: seq<T>, all: seq<T>)
    requires all == [x] + xs
    ensures acc + [x] + xs == acc + all
  {
  }

  predicate StringsShaped(es: seq<Json>)
  {
    es == [] || (es[0].JStr? && StringsShaped(es[1..]))
  }

  function StringsOf(es: seq<Json>): (r: seq<string>)
    requires StringsShaped(es)
    ensures |r| == |es| && forall i | 0 <= i < |es| :: es[i].JStr? && r[i] == es[i].s
  {
    if es == [] then [] else [es[0].s] + StringsOf(es[1..])
  }

  // =====================================================================
  // SDK

  const SdkKeys := {"name", "version"}

  predicate SdkFieldShaped(m: Member)
  {
    m.key in SdkKeys ==> m.value.JStr?
  }

  predicate SdkShaped(ms: seq<Member>)
  {
    ms == [] || (SdkFieldShaped(ms[0]) && SdkShaped(ms[1..]))
  }

  function ApplySdkMember(s: Sdk, m: Member): (r: Sdk)
    requires SdkFieldShaped(m)
    ensures m.key !in SdkKeys ==> r == s
  {
    match m.key
    case "name" => s.(Name := m.value.s)
    case "version" => s.(Version := m.value.s)
    case _ => s
  }

  function ApplySdk(s: Sdk, ms: seq<Member>): Sdk
    requires SdkShaped(ms)
    decreases |ms|
  {
    if ms == [] then s else ApplySdk(ApplySdkMember(s, ms[0]), ms[1..])
  }

  // =====================================================================
  // Frame

  const FrameKeys := {"filename", "abs_path", "module", "function", "lineno", "context_line",
                      "pre_context", "post_context", "in_app", "vars"}

  predicate FrameFieldShaped(m: Member)
  {
    match m.key
    case "filename" => m.value.JStr?
    case "abs_path" => m.value.JStr?
    case "module" => m.value.JStr?
    case "function" => m.value.JStr?
    case "context_line" => m.value.JStr?
    case "lineno" => m.value.JNum? && m.value.n.integral
    case "pre_context" => m.value.JArr? && StringsShaped(m.value.elems)
    case "post_context" => m.value.JArr? && StringsShaped(m.value.elems)
    case "in_app" => m.value.JBool?
    case "vars" => m.value.JObj? && MapShaped(m.value.members)
    case _ => true
  }

  predicate FrameShaped(ms: seq<Member>)
  {
    ms == [] || (FrameFieldShaped(ms[0]) && FrameShaped(ms[1..]))
  }

  /** One member's effect on a frame; both context arrays extend PreCtx. */
  function ApplyFrameMember(b: Backend, f: Frame, m: Member): (r: Frame)
    requires FrameFieldShaped(m)
    ensures m.key !in FrameKeys ==> r == f
    ensures r.PostCtx == f.PostCtx
  {
    match m.key
    case "filename" => f.(Filename := m.value.s)
    case "abs_path" => f.(AbsPath := m.value.s)
    case "module" => f.(Module := m.value.s)
    case "function" => f.(Function := m.value.s)
    case "lineno" => f.(LineNum := m.value.n.intValue)
    case "context_line" => f.(CtxLine := m.value.s)
    case "pre_context" => f.(PreCtx := f.PreCtx + StringsOf(m.value.elems))
    case "post_context" => f.(PreCtx := f.PreCtx + StringsOf(m.value.elems))
    case "in_app" => f.(InApp := m.value.b)
    case "vars" => f.(Vars := Flatten(b, f.Vars, "", m.value.members))
    case _ => f
  }

  function ApplyFrame(b: Backend, f: Frame, ms: seq<Member>): Frame
    requires FrameShaped(ms)
    decreases |ms|
  {
    if ms == [] then f else ApplyFrame(b, ApplyFrameMember(b, f, ms[0]), ms[1..])
  }

  /** Every element is a frame object. */
  predicate FramesShaped(es: seq<Json>)
  {
    es == [] || (es[0].JObj? && FrameShaped(es[0].members) && FramesShaped(es[1..]))
  }

  /** The frames of an array, each decoded from the zero Frame, in order. */
  function FramesOf(b: Backend, es: seq<Json>): (r: seq<Frame>)
    requires FramesShaped(es)
    ensures |r| == |es|
    ensures forall i | 0 <= i < |es| ::
              es[i].JObj? && FrameShaped(es[i].members) && r[i] == ApplyFrame(b, ZeroFrame, es[i].members)
  {
    if es == [] then [] else [ApplyFrame(b, ZeroFrame, es[0].members)] + FramesOf(b, es[1..])
  }

  // =====================================================================
  // Exception

  const ExceptionKeys := {"module", "type", "value", "frames"}

  predicate ExceptionFieldShaped(m: Member)
  {
    match m.key
    case "module" => m.value.JStr?
    case "type" => m.value.JStr?
    case "value" => m.value.JStr?
    case "frames" => m.value.JArr? && FramesShaped(m.value.elems)
    case _ => true
  }

  predicate ExceptionShaped(ms: seq<Member>)
  {
    ms == [] || (ExceptionFieldShaped(ms[0]) && ExceptionShaped(ms[1..]))
  }

  function ApplyExceptionMember(b: Backend, e: Exception, m: Member): (r: Exception)
    requires ExceptionFieldShaped(m)
    ensures m.key !in ExceptionKeys ==> r == e
  {
    match m.key
    case "module" => e.(Module := m.value.s)
    case "type" => e.(Type := m.value.s)
    case "value" => e.(Value := m.value.s)
    case "frames" => e.(Frames := e.Frames + FramesOf(b, m.value.elems))
    case _ => e
  }

  function ApplyException(b: Backend, e: Exception, ms: seq<Member>): Exception
    requires ExceptionShaped(ms)
    decreases |ms|
  {
    if ms == [] then e else ApplyException(b, ApplyExceptionMember(b, e, ms[0]), ms[1..])
  }

  predicate ExceptionsShaped(es: seq<Json>)
  {
    es == [] || (es[0].JObj? && ExceptionShaped(es[0].members) && ExceptionsShaped(es[1..]))
  }

  /** The exceptions of an array, each decoded from the zero Exception, in order. */
  function ExceptionsOf(b: Backend, es: seq<Json>): (r: seq<Exception>)
    requires ExceptionsShaped(es)
    ensures |r| == |es|
    ensures forall i | 0 <= i < |es| ::
              es[i].JObj? && ExceptionShaped(es[i].members) && r[i] == ApplyException(b, ZeroException, es[i].members)
  {
    if es == [] then [] else [ApplyException(b, ZeroException, es[0].members)] + ExceptionsOf(b, es[1..])
  }

  // =====================================================================
  // Event

  const EventKeys := {"sdk", "platform", "server_name", "environment", "release", "level",
                      "event_id", "message", "contexts", "extra", "user", "tags", "exception",
                      "timestamp"}

  /** The timestamp must be a string the parser accepts. */
  predicate EventFieldShaped(m: Member, parse: TimeParser)
  {
    match m.key
    case "sdk" => m.value.JObj? && SdkShaped(m.value.members)
    case "platform" => m.value.JStr?
    case "server_name" => m.value.JStr?
    case "environment" => m.value.JStr?
    case "release" => m.value.JStr?
    case "level" => m.value.JStr?
    case "event_id" => m.value.JStr?
    case "message" => m.value.JStr?
    case "contexts" => m.value.JObj? && MapShaped(m.value.members)
    case "extra" => m.value.JObj? && MapShaped(m.value.members)
    case "user" => m.value.JObj? && MapShaped(m.value.members)
    case "tags" => m.value.JObj? && TagsShaped(m.value.members)
    case "exception" => m.value.JArr? && ExceptionsShaped(m.value.elems)
    case "timestamp" => m.value.JStr? && parse(m.value.s).Some?
    case _ => true
  }

  predicate EventShaped(ms: seq<Member>, parse: TimeParser)
  {
    ms == [] || (EventFieldShaped(ms[0], parse) && EventShaped(ms[1..], parse))
  }

  function ApplyEventMember(b: Backend, e: Event, m: Member, parse: TimeParser): (r: Event)
    requires EventFieldShaped(m, parse)
    ensures m.key !in EventKeys ==> r == e
  {
    match m.key
    case "sdk" => e.(SDK := ApplySdk(e.SDK, m.value.members))
    case "platform" => e.(Platform := m.value.s)
    case "server_name" => e.(ServerName := m.value.s)
    case "environment" => e.(Environment := m.value.s)
    case "release" => e.(Release := m.value.s)
    case "level" => e.(Level := m.value.s)
    case "event_id" => e.(EventID := m.value.s)
    case "message" => e.(Message := m.value.s)
    case "contexts" => e.(Contexts := Flatten(b, e.Contexts, "", m.value.members))
    case "extra" => e.(Extra := Flatten(b, e.Extra, "", m.value.members))
    case "user" => e.(User := Flatten(b, e.User, "", m.value.members))
    case "tags" => e.(Tags := ApplyTags(e.Tags, m.value.members))
    case "exception" => e.(Exception := e.Exception + ExceptionsOf(b, m.value.elems))
    case "timestamp" => e.(Timestamp := parse(m.value.s).value)
    case _ => e
  }

  function ApplyEvent(b: Backend, e: Event, ms: seq<Member>, parse: TimeParser): Event
    requires EventShaped(ms, parse)
    decreases |ms|
  {
    if ms == [] then e else ApplyEvent(b, ApplyEventMember(b, e, ms[0], parse), ms[1..], parse)
  }

  // =====================================================================
  // Properties of the reference

  /** The keys a list of members uses. */
  function KeysIn(ms: seq<Member>): set<string>
  {
    set i | 0 <= i < |ms| :: ms[i].key
  }

  /** Members whose keys no switch case names leave a frame as it was. */
  lemma {:induction false} UnknownFrameKeysIgnored(b: Backend, f: Frame, ms: seq<Member>)
    requires FrameShaped(ms) && KeysIn(ms) !! FrameKeys
    ensures ApplyFrame(b, f, ms) == f
  {
    if ms != [] {
      assert ms[0].key in KeysIn(ms);
      assert KeysIn(ms[1..]) <= KeysIn(ms) by {
        forall k | k in KeysIn(ms[1..]) ensures k in KeysIn(ms) {
          var i :| 0 <= i < |ms[1..]| && ms[1..][i].key == k;
          assert ms[i + 1].key == k;
        }
      }
      UnknownFrameKeysIgnored(b, f, ms[1..]);
    }
  }

  /** Members whose keys no switch case names leave an event as it was. */
  lemma {:induction false} UnknownEventKeysIgnored(b: Backend, e: Event, ms: seq<Member>, parse: TimeParser)
    requires EventShaped(ms, parse) && KeysIn(ms) !! EventKeys
    ensures ApplyEvent(b, e, ms, parse) == e
  {
    if ms != [] {
      assert ms[0].key in KeysIn(ms);
      assert KeysIn(ms[1..]) <= KeysIn(ms) by {
        forall k | k in KeysIn(ms[1..]) ensures k in KeysIn(ms) {
          var i :| 0 <= i < |ms[1..]| && ms[1..][i].key == k;
          assert ms[i + 1].key == k;
        }
      }
      UnknownEventKeysIgnored(b, e, ms[1..], parse);
    }
  }

  /** A frame field whose key is absent keeps its value (the zero value, from ZeroFrame). */
  lemma {:induction false} AbsentLineNumKept(b: Backend, f: Frame, ms: seq<Member>)
    requires FrameShaped(ms) && "lineno" !in KeysIn(ms)
    ensures ApplyFrame(b, f, ms).LineNum == f.LineNum
    decreases |ms|
  {
    if ms != [] {
      assert ms[0].key in KeysIn(ms);
      AbsentLineNumKept(b, ApplyFrameMember(b, f, ms[0]), ms[1..]);
    }
  }

  /** post_context never reaches PostCtx: it stays as it was. */
  lemma {:induction false} PostCtxUntouched(b: Backend, f: Frame, ms: seq<Member>)
    requires FrameShaped(ms)
    ensures ApplyFrame(b, f, ms).PostCtx == f.PostCtx
    decreases |ms|
  {
    if ms != [] {
      PostCtxUntouched(b, ApplyFrameMember(b, f, ms[0]), ms[1..]);
    }
  }

  /** An event without a timestamp member keeps its timestamp. */
  lemma {:induction false} AbsentTimestampKept(b: Backend, e: Event, ms: seq<Member>, parse: TimeParser)
    requires EventShaped(ms, parse) && "timestamp" !in KeysIn(ms)
    ensures ApplyEvent(b, e, ms, parse).Timestamp == e.Timestamp
    decreases |ms|
  {
    if ms != [] {
      assert ms[0].key in KeysIn(ms);
      AbsentTimestampKept(b, ApplyEventMember(b, e, ms[0], parse), ms[1..], parse);
    }
  }
}
