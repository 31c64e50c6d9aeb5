/**
 * The token stream that both cursor libraries (jx.Decoder and
 * jsontext.Decoder) present to the decoders, JSON values as trees, and the
 * one cursor primitive whose behaviour matters to the decoders beyond a
 * single token: skipping a whole value.
 *
 * Lexing (bytes, whitespace, commas, colons, escapes, number syntax) is the
 * libraries' business and is not modelled: an object member appears in the
 * stream as its key token `Str(k)` followed by the tokens of its value.
 */
module TokenStream {
  import opened Errors

  /**
   * A number literal, kept opaque. `text` is its raw JSON text,
   * `integral` says whether it is an integer literal (what jx's Int()
   * accepts) and `intValue` is its integer view (what jsontext's
   * Token.Int() returns; for a fractional literal, the truncated value).
   */
  datatype Number = Number(text: string, integral: bool, intValue: int)

  datatype Token =
    | ObjStart | ObjEnd | ArrStart | ArrEnd
    | Str(s: string) | Num(n: Number) | Bool(b: bool) | Null

  /** What a peek at the next token reports; `KEnd` is the end of input. */
  datatype Kind = KObjStart | KObjEnd | KArrStart | KArrEnd | KStr | KNum | KBool | KNull | KEnd

  function KindOf(ts: seq<Token>): Kind
  {
    if ts == [] then KEnd
    else match ts[0]
      case ObjStart => KObjStart
      case ObjEnd => KObjEnd
      case ArrStart => KArrStart
      case ArrEnd => KArrEnd
      case Str(_) => KStr
      case Num(_) => KNum
      case Bool(_) => KBool
      case Null => KNull
  }

  /**
   * jsontext's Token.String(): the unescaped text of a string token and the
   * raw JSON text of every other token.
   */
  function Text(t: Token): string
  {
    match t
    case Str(s) => s
    case Num(n) => n.text
    case Bool(b) => if b then "true" else "false"
    case Null => "null"
    case ObjStart => "{"
    case ObjEnd => "}"
    case ArrStart => "["
    case ArrEnd => "]"
  }

  /**
   * The result of a decoder that consumed a prefix of its input: the value
   * it built (on failure, whatever it had built so far, as the Go receiver
   * holds it), the unconsumed tokens, and how it ended.
   */
  datatype Outcome<T> = Outcome(value: T, rest: seq<Token>, status: Status)

  // ---------------------------------------------------------------------
  // JSON values as trees, and the token stream that denotes them.

  datatype Json =
    | JStr(s: string) | JNum(n: Number) | JBool(b: bool) | JNull
    | JArr(elems: seq<Json>) | JObj(members: seq<Member>)

  datatype Member = Member(key: string, value: Json)

  function Tokens(j: Json): seq<Token>
  {
    match j
    case JStr(s) => [Str(s)]
    case JNum(n) => [Num(n)]
    case JBool(b) => [Bool(b)]
    case JNull => [Null]
    case JArr(es) => [ArrStart] + ElemsTokens(es) + [ArrEnd]
    case JObj(ms) => [ObjStart] + MembersTokens(ms) + [ObjEnd]
  }

  function ElemsTokens(es: seq<Json>): seq<Token>
  {
    if es == [] then [] else Tokens(es[0]) + ElemsTokens(es[1..])
  }

  function MembersTokens(ms: seq<Member>): seq<Token>
  {
    if ms == [] then [] else [Str(ms[0].key)] + Tokens(ms[0].value) + MembersTokens(ms[1..])
  }

  // ---------------------------------------------------------------------
  // Skipping one value: jx's Decoder.Skip and jsontext's SkipValue.

  /**
   * Consumes one complete value: a scalar, or an object or array up to its
   * matching closing delimiter. Fails (None) when the input ends first,
   * when it starts with a closing delimiter, or when a container is closed
   * by the wrong delimiter. On success the rest is a proper suffix.
   */
  function SkipValue(ts: seq<Token>): (r: Option<seq<Token>>)
    ensures r.Some? ==> |r.value| < |ts| && r.value == ts[|ts| - |r.value|..]
  {
    if ts == [] then None
    else match ts[0]
      case ObjEnd => None
      case ArrEnd => None
      case ObjStart => SkipNested(ts[1..], [true])
      case ArrStart => SkipNested(ts[1..], [false])
      case _ => Some(ts[1..])
  }

  /**
   * Skips to the end of the containers in `open` (innermost last; true
   * for an object, false for an array).
   */
  function SkipNested(ts: seq<Token>, open: seq<bool>): (r: Option<seq<Token>>)
    requires open != []
    ensures r.Some? ==> |r.value| < |ts| && r.value == ts[|ts| - |r.value|..]
    decreases |ts|
  {
    if ts == [] then None
    else
      var inner := open[|open| - 1];
      match ts[0]
      case ObjStart => SkipNested(ts[1..], open + [true])
      case ArrStart => SkipNested(ts[1..], open + [false])
      case ObjEnd => Close(ts, open, inner)
      case ArrEnd => Close(ts, open, !inner)
      case _ => SkipNested(ts[1..], open)
  }

  /** A closing delimiter in `ts[0]`; `matches` says whether it closes the innermost container. */
  function Close(ts: seq<Token>, open: seq<bool>, matches: bool): (r: Option<seq<Token>>)
    requires open != [] && ts != []
    ensures r.Some? ==> |r.value| < |ts| && r.value == ts[|ts| - |r.value|..]
    decreases |ts|, 0
  {
    if !matches then None
    else if |open| == 1 then Some(ts[1..])
    else SkipNested(ts[1..], open[..|open| - 1])
  }

  /** A decoder's `d.Skip()` / `d.SkipValue()` branch: the value `v` is left as it is. */
  function SkipFrom<T>(ts: seq<Token>, v: T): (r: Outcome<T>)
    ensures r.value == v && |r.rest| <= |ts|
    ensures r.status.Ok? <==> SkipValue(ts).Some?
    ensures r.status.Ok? ==> r.rest == SkipValue(ts).value
    ensures !r.status.Ok? ==> r.rest == ts && r.status == Fail(Error([], Malformed))
  {
    match SkipValue(ts)
    case Some(rest) => Outcome(v, rest, Ok)
    case None => Outcome(v, ts, Fail(Error([], Malformed)))
  }

  /** An opening delimiter pushes its container; its closing one pops it. */
  lemma SkipNestedDelimiters(rest: seq<Token>, open: seq<bool>, obj: bool)
    requires open != []
    ensures SkipNested([if obj then ObjStart else ArrStart] + rest, open) == SkipNested(rest, open + [obj])
    ensures SkipNested([if obj then ObjEnd else ArrEnd] + rest, open + [obj]) == SkipNested(rest, open)
  {
    CloseTokens(if obj then ObjStart else ArrStart, rest);
    CloseTokens(if obj then ObjEnd else ArrEnd, rest);
    assert (open + [obj])[..|open + [obj]| - 1] == open;
  }

  /** A key or scalar token is passed over. */
  lemma SkipNestedScalar(t: Token, rest: seq<Token>, open: seq<bool>)
    requires open != [] && (t.Str? || t.Num? || t.Bool? || t.Null?)
    ensures SkipNested([t] + rest, open) == SkipNested(rest, open)
  {
    CloseTokens(t, rest);
  }

  /** Skipping the tokens of a whole value leaves the open containers as they were. */
  lemma {:induction false} SkipNestedOver(j: Json, tail: seq<Token>, open: seq<bool>)
    requires open != []
    ensures SkipNested(Tokens(j) + tail, open) == SkipNested(tail, open)
    decreases j, 1
  {
    match j
    case JArr(es) =>
      ArrTokens(es, tail);
      SkipNestedDelimiters(ElemsTokens(es) + ([ArrEnd] + tail), open, false);
      SkipElemsOver(es, [ArrEnd] + tail, open + [false]);
      SkipNestedDelimiters(tail, open, false);
    case JObj(ms) =>
      ObjTokens(ms, tail);
      SkipNestedDelimiters(MembersTokens(ms) + ([ObjEnd] + tail), open, true);
      SkipMembersOver(ms, [ObjEnd] + tail, open + [true]);
      SkipNestedDelimiters(tail, open, true);
    case _ =>
      ScalarTokens(j, tail);
      SkipNestedScalar(Tokens(j)[0], tail, open);
  }

  lemma {:induction false} SkipElemsOver(es: seq<Json>, tail: seq<Token>, open: seq<bool>)
    requires open != []
    ensures SkipNested(ElemsTokens(es) + tail, open) == SkipNested(tail, open)
    decreases es, 0
  {
    if es != [] {
      ElemsSplit(es, tail);
      SkipNestedOver(es[0], ElemsTokens(es[1..]) + tail, open);
      SkipElemsOver(es[1..], tail, open);
    } else {
      assert ElemsTokens(es) + tail == tail;
    }
  }

  lemma {:induction false} SkipMembersOver(ms: seq<Member>, tail: seq<Token>, open: seq<bool>)
    requires open != []
    ensures SkipNested(MembersTokens(ms) + tail, open) == SkipNested(tail, open)
    decreases ms, 0
  {
    if ms != [] {
      var rest := MembersTokens(ms[1..]) + tail;
      MembersSplit(ms, tail);
      SkipNestedScalar(Str(ms[0].key), Tokens(ms[0].value) + rest, open);
      SkipNestedOver(ms[0].value, rest, open);
      SkipMembersOver(ms[1..], tail, open);
    } else {
      assert MembersTokens(ms) + tail == tail;
    }
  }

  /** Skip consumes exactly the tokens of one whole value. */
  lemma {:induction false} SkipWhole(j: Json, tail: seq<Token>)
    ensures SkipValue(Tokens(j) + tail) == Some(tail)
  {
    match j
    case JArr(es) =>
      ArrTokens(es, tail);
      SkipElemsOver(es, [ArrEnd] + tail, [false]);
      CloseTokens(ArrEnd, tail);
    case JObj(ms) =>
      ObjTokens(ms, tail);
      SkipMembersOver(ms, [ObjEnd] + tail, [true]);
      CloseTokens(ObjEnd, tail);
    case _ =>
      ScalarTokens(j, tail);
  }

  // ---------------------------------------------------------------------
  // How the tokens of a value sit in front of what follows them.

  /** A scalar is one token. */
  lemma ScalarTokens(j: Json, rest: seq<Token>)
    requires !j.JArr? && !j.JObj?
    ensures |Tokens(j)| == 1
    ensures Tokens(j) + rest == [Tokens(j)[0]] + rest
    ensures (Tokens(j) + rest)[0] == Tokens(j)[0] && (Tokens(j) + rest)[1..] == rest
  {
    assert ([Tokens(j)[0]] + rest)[1..] == rest;
  }

  /** An object is '{', its members, '}'. */
  lemma ObjTokens(ms: seq<Member>, rest: seq<Token>)
    ensures Tokens(JObj(ms)) + rest == [ObjStart] + (MembersTokens(ms) + ([ObjEnd] + rest))
    ensures (Tokens(JObj(ms)) + rest)[0] == ObjStart
    ensures (Tokens(JObj(ms)) + rest)[1..] == MembersTokens(ms) + ([ObjEnd] + rest)
  {
    assert ([ObjStart] + (MembersTokens(ms) + ([ObjEnd] + rest)))[1..] == MembersTokens(ms) + ([ObjEnd] + rest);
  }

  /** An array is '[', its elements, ']'. */
  lemma ArrTokens(es: seq<Json>, rest: seq<Token>)
    ensures Tokens(JArr(es)) + rest == [ArrStart] + (ElemsTokens(es) + ([ArrEnd] + rest))
    ensures (Tokens(JArr(es)) + rest)[0] == ArrStart
    ensures (Tokens(JArr(es)) + rest)[1..] == ElemsTokens(es) + ([ArrEnd] + rest)
  {
    assert ([ArrStart] + (ElemsTokens(es) + ([ArrEnd] + rest)))[1..] == ElemsTokens(es) + ([ArrEnd] + rest);
  }

  /** The first member's key, then its value, then the other members. */
  lemma MembersSplit(ms: seq<Member>, tail: seq<Token>)
    requires ms != []
    ensures MembersTokens(ms) + tail == [Str(ms[0].key)] + (Tokens(ms[0].value) + (MembersTokens(ms[1..]) + tail))
    ensures (MembersTokens(ms) + tail)[0] == Str(ms[0].key)
    ensures (MembersTokens(ms) + tail)[1..] == Tokens(ms[0].value) + (MembersTokens(ms[1..]) + tail)
  {
    assert MembersTokens(ms) == [Str(ms[0].key)] + Tokens(ms[0].value) + MembersTokens(ms[1..]);
    Regroup(Str(ms[0].key), Tokens(ms[0].value), MembersTokens(ms[1..]), tail);
  }

  /** A token, two runs and a tail, regrouped from the right. */
  lemma Regroup(t: Token, a: seq<Token>, b: seq<Token>, tail: seq<Token>)
    ensures [t] + a + b + tail == [t] + (a + (b + tail))
    ensures ([t] + a + b + tail)[0] == t && ([t] + a + b + tail)[1..] == a + (b + tail)
  {
    assert ([t] + (a + (b + tail)))[1..] == a + (b + tail);
  }

  /** The first element, then the others. */
  lemma ElemsSplit(es: seq<Json>, tail: seq<Token>)
    requires es != []
    ensures ElemsTokens(es) + tail == Tokens(es[0]) + (ElemsTokens(es[1..]) + tail)
  {
  }

  /** A closing delimiter and what follows it. */
  lemma CloseTokens(t: Token, rest: seq<Token>)
    ensures ([t] + rest)[0] == t && ([t] + rest)[1..] == rest
  {
    assert ([t] + rest)[1..] == rest;
  }
}
