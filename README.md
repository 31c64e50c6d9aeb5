# Event decoding in go-json-benchmark, modelled in Dafny

The benchmark decodes one error-report document, an **Event**, into Go
records. The Event carries an SDK, strings, three dynamic maps, a tag map,
a list of exceptions each with a list of stack frames, and a timestamp.
Two hand-written decoders do this:

- **jx** (`decode_jx.go`). It is callback-driven. `ObjBytes` calls a member
  callback once per key. `Arr` calls an element callback once per array
  element. Each stops at the first error a callback returns.
- **jsontext v2** (`decode_jsonv2.go`). It is a pull cursor. Each decoder
  checks `PeekKind`, reads tokens with `ReadToken`/`ReadValue` in a `for`
  loop and finally reads the closing delimiter.

The records are in `event.go`.

The model has three layers:

1. **Tokens and records** (`tokens.dfy`, `event.dfy`, `errors.dfy`).
   - The input is a sequence of JSON tokens.
   - A JSON tree (`Json`) has a serializer `Tokens` into that sequence.
   - Go map fields start nil, so they are `Option`s; `None` is the nil map.
   - Errors carry the wrap path (`Key` and `Index` segments) and a kind.
     The message text is not modelled.
   - A `Panic` status stands for the run-time panic of jsontext's
     `Token.Int()`/`Token.Bool()` on a token of another kind.
2. **Decoders** (`decode_jx.dfy`, `decode_jsonv2.dfy`, with `cursor.dfy`).
   Every Go decoder is written twice:
   - a function on the unconsumed tokens (`…From`). It returns the value
     built so far, the tokens left and the status.
   - a method on a `Cursor` object (a token array and a position) whose
     loops mirror the Go loops. Each method is proved to do exactly what
     its function says.
3. **Meaning** (`reference.dfy`, `decode_jx_proofs.dfy`,
   `decode_jsonv2_proofs.dfy`, `agreement.dfy`). A tree-level reference
   interpretation says which fields a document of the expected shape sets,
   how a nested map object flattens into `a.b` keys, and the order of
   array elements. For each backend it is proved that decoding
   `Tokens(j) + rest` consumes exactly `Tokens(j)` and produces the
   reference value. The error paths, skipping and index wrapping are
   proved separately. Finally, the two backends are proved to decode
   the same Event whenever all numbers are integer literals, up to the Go
   type of the integers stored in dynamic maps: jx stores an `int`,
   jsontext an `int64` (`Agreement.RetypeEvent`). One fractional number
   in a map is enough to tell them apart.

Behaviour of the code that the model keeps as written:

- Both backends send `post_context` into `PreCtx` (`decode_jx.go:156-157`,
  `decode_jsonv2.go:204-205`). `PostCtx` is never written
  (`Reference.PostCtxUntouched`), and `PreCtx` ends with the pre-context
  lines followed by the post-context lines (`ContextExample`).
- jsontext v2 swallows a field's error inside Frame, Exception and SDK.
  The wrapped error is assigned and then dropped, and the loop goes on.
  In Event it is returned, wrapped with the *quoted* key text
  (`"\"timestamp\""`), because the key comes from `ReadValue`.
- jsontext v2's map decoder returns straight away on a bool, null or array
  value (`decode_jsonv2.go:284-285`). The entries after it are not read
  and the closing `}` is not consumed (`DecodeJsonV2Proofs.MapEarlyReturn`).
- In jx a map member's number is stored as an `int` when `Int()`
  succeeds, otherwise as a `float64`. jsontext always stores the `int64`
  of `Token.Int()`, which truncates a fractional literal
  (`Agreement.BackendsDisagreeOnFraction`).
- A map is made on the first member, so `{}` leaves a nil map nil, while
  `{"a":{}}` makes an empty one (`MadeLazilyExample`).

## Model

| member | source | states |
|---|---|---|
| Errors.Wrap | decode_jx.go:165-167 | wrapping only touches failures: it keeps the kind and pushes the segment in front of the path; Ok and Panic pass through |
| Events.Store | decode_jx.go:201 | storing under a key adds exactly that key with that value and keeps every other entry |
| Events.Made | decode_jx.go:174-176 | a nil map becomes an empty one; a made map is kept as it is |
| TokenStream.SkipValue | decode_jx.go:163 | skipping one value leaves a strict suffix of the input |
| TokenStream.SkipFrom | decode_jsonv2.go:210-211 | skip succeeds iff a whole value is there, leaves the value unchanged, and fails with Malformed without consuming otherwise |
| TokenStream.SkipWhole | decode_jsonv2.go:211 | skipping over the tokens of any JSON value leaves exactly the tokens after it |
| TokenStream.SkipNestedOver | decode_jx.go:163 | inside open containers, the tokens of a whole value are skipped without changing the nesting |
| TokenStream.SkipElemsOver | decode_jx.go:163 | array elements are skipped as a whole, with nesting unchanged |
| TokenStream.SkipMembersOver | decode_jx.go:163 | object members are skipped as a whole, with nesting unchanged |
| Cursor.Cursor.constructor | decode_jsonv2.go:14-20 | a new cursor is positioned at the start of its tokens |
| Cursor.Cursor.Peek | decode_jsonv2.go:21 | `PeekKind` reports end of input exactly when no tokens are left |
| Cursor.Cursor.Read | decode_jsonv2.go:226-230 | `ReadToken` returns the next token and advances by one, or reports end of input without moving |
| Cursor.Cursor.ReadName | decode_jsonv2.go:21-25 | at `}` the loop ends after consuming it; a string name is returned and consumed; anything else is a Malformed failure without moving |
| Cursor.Cursor.Skip | decode_jsonv2.go:211 | the cursor advances past one whole value exactly when SkipValue finds one, and otherwise stays put |
| DecodeJx.StrFrom | decode_jx.go:142-143 | `d.Str()` succeeds iff the next token is a string; it returns that string and consumes one token; otherwise it yields "" and consumes nothing |
| DecodeJx.IntFrom | decode_jx.go:150-151 | `d.Int()` succeeds iff the next token is an integer literal; otherwise it yields 0 and consumes nothing |
| DecodeJx.BoolFrom | decode_jx.go:158-159 | `d.Bool()` succeeds iff the next token is a boolean; otherwise it yields false and consumes nothing |
| DecodeJx.ContextLinesFrom | decode_jx.go:220-229 | lines already present stay a prefix; a non-array is rejected without consuming; success consumes input |
| DecodeJx.ContextLineElemsFrom | decode_jx.go:221-228 | the `Arr` loop only appends to the lines and never reads backwards |
| DecodeJx.MapFrom | decode_jx.go:172-204 | existing keys are never lost; a non-object is rejected without consuming; success consumes input |
| DecodeJx.MapMembersFrom | decode_jx.go:173-203 | the map is made once a member is seen, and existing keys are kept |
| DecodeJx.MapValueFrom | decode_jx.go:177-201 | a failing value's error path starts with its key; existing keys are kept |
| DecodeJx.StrMapFrom | decode_jx.go:206-218 | existing tags are kept; a non-object is rejected without consuming |
| DecodeJx.StrMapMembersFrom | decode_jx.go:207-217 | the tag map is made once a member is seen, and existing tags are kept |
| DecodeJx.FrameFrom | decode_jx.go:139-170 | PostCtx is never changed; a non-object is rejected without consuming |
| DecodeJx.FrameMembersFrom | decode_jx.go:140-169 | no member changes PostCtx |
| DecodeJx.FrameMemberFrom | decode_jx.go:141-164 | no field case changes PostCtx, including `post_context` |
| DecodeJx.FramesFrom | decode_jx.go:128-137 | frames already present stay a prefix; a non-array is rejected without consuming |
| DecodeJx.FrameElemsFrom | decode_jx.go:129-136 | the `Arr` loop only appends frames |
| DecodeJx.ExceptionFrom | decode_jx.go:107-126 | a non-object is rejected without consuming; success consumes input |
| DecodeJx.ExceptionMembersFrom | decode_jx.go:108-125 | the member loop never reads backwards |
| DecodeJx.ExceptionMemberFrom | decode_jx.go:109-120 | each field case never reads backwards |
| DecodeJx.ExceptionsFrom | decode_jx.go:96-105 | exceptions already present stay a prefix; a non-array is rejected without consuming |
| DecodeJx.ExceptionElemsFrom | decode_jx.go:97-104 | the `Arr` loop only appends exceptions |
| DecodeJx.ArrayFrom | decode_jx.go:79-94 | the generic `Array.Decode` only appends, for any element decoder that makes progress |
| DecodeJx.ArrayElemsFrom | decode_jx.go:85-93 | the generic element loop only appends and never reads backwards |
| DecodeJx.SdkFrom | decode_jx.go:57-72 | a non-object is rejected without consuming; success consumes input |
| DecodeJx.SdkMembersFrom | decode_jx.go:58-71 | the SDK member loop never reads backwards |
| DecodeJx.SdkMemberFrom | decode_jx.go:59-66 | each SDK field case never reads backwards |
| DecodeJx.EventFrom | decode_jx.go:11-55 | a non-object is rejected without consuming; success consumes input |
| DecodeJx.EventMembersFrom | decode_jx.go:12-54 | the event member loop never reads backwards |
| DecodeJx.EventMemberFrom | decode_jx.go:13-49 | each event field case never reads backwards |
| DecodeJx.Str | decode_jx.go:142-143 | reading a string through the cursor gives the value, position and status of StrFrom |
| DecodeJx.Int | decode_jx.go:150-151 | reading an integer through the cursor matches IntFrom |
| DecodeJx.Bool | decode_jx.go:158-159 | reading a boolean through the cursor matches BoolFrom |
| DecodeJx.Skip | decode_jx.go:163 | `d.Skip()` through the cursor matches SkipFrom |
| DecodeJx.Open | decode_jx.go:140 | `ObjBytes`/`Arr` consume the opening delimiter, or fail without moving |
| DecodeJx.AtArrayEnd | decode_jx.go:221 | the `Arr` loop ends at `]` (consumed) and fails at end of input |
| DecodeJx.DecodeContextLines | decode_jx.go:220-229 | the loop computes ContextLinesFrom |
| DecodeJx.DecodeMap | decode_jx.go:172-204 | the recursive map decoder computes MapFrom |
| DecodeJx.DecodeMapValue | decode_jx.go:177-201 | the value switch computes MapValueFrom |
| DecodeJx.DecodeStrMap | decode_jx.go:206-218 | the loop computes StrMapFrom |
| DecodeJx.DecodeFrameMember | decode_jx.go:141-167 | the field switch computes FrameMemberFrom |
| DecodeJx.DecodeFrame | decode_jx.go:139-170 | the member loop computes FrameFrom |
| DecodeJx.DecodeFrames | decode_jx.go:128-137 | the element loop computes FramesFrom |
| DecodeJx.DecodeExceptionMember | decode_jx.go:109-123 | the field switch computes ExceptionMemberFrom |
| DecodeJx.DecodeException | decode_jx.go:107-126 | the member loop computes ExceptionFrom |
| DecodeJx.DecodeExceptions | decode_jx.go:96-105 | the element loop computes ExceptionsFrom |
| DecodeJx.DecodeSdkMember | decode_jx.go:59-69 | the field switch computes SdkMemberFrom |
| DecodeJx.DecodeSdk | decode_jx.go:57-72 | the member loop computes SdkFrom |
| DecodeJx.DecodeEventMember | decode_jx.go:13-52 | the field switch computes EventMemberFrom |
| DecodeJx.DecodeEvent | decode_jx.go:11-55 | the member loop computes EventFrom |
| DecodeJxProofs.ContextLinesOk | decode_jx.go:220-229 | an array of strings is appended, in order, after the lines already there, consuming exactly the array |
| DecodeJxProofs.ContextLineElemsOk | decode_jx.go:221-228 | the element loop over string elements appends them in order |
| DecodeJxProofs.ContextLineNonString | decode_jx.go:222-225 | an element that is neither a string nor `]` stops the array with `d.Str()`'s failure, unwrapped, consuming nothing more and keeping the lines read so far |
| DecodeJxProofs.ContextLineElemsStep | decode_jx.go:222-226 | one string element is appended and the loop continues after it |
| DecodeJxProofs.MapMembersStep | decode_jx.go:173-203 | after a member's value decodes, the loop continues on the map it produced |
| DecodeJxProofs.MapValueOk | decode_jx.go:183-194 | a string, number or nested-object value stores what Flatten says, consuming exactly the value |
| DecodeJxProofs.MapMembersOk | decode_jx.go:173-203 | the member loop over well-shaped members computes Flatten |
| DecodeJxProofs.MapOk | decode_jx.go:172-204 | a map object decodes to its flattening (nested keys joined with "."), consuming exactly the object |
| DecodeJxProofs.MapUnsupportedValue | decode_jx.go:195-199 | a bool, null or array value fails as unsupported, wrapped with its key |
| DecodeJxProofs.FlattenExample | decode_jx.go:188-192 | `{"os":{"name":"linux","version":"6.1"}}` with an empty prefix into a nil map stores exactly `os.name` and `os.version`, consuming the object |
| DecodeJxProofs.MadeLazilyExample | decode_jx.go:174-176 | `{}` leaves a nil map nil; `{"a":{}}` makes an empty map |
| DecodeJxProofs.StrMapMembersOk | decode_jx.go:207-217 | the member loop over string members stores every tag |
| DecodeJxProofs.StrMapMembersStep | decode_jx.go:206-218 | a string tag is stored under its key in the made map and the loop continues after it |
| DecodeJxProofs.StrMapOk | decode_jx.go:206-218 | a tag object decodes to ApplyTags, consuming exactly the object |
| DecodeJxProofs.StrMapNonString | decode_jx.go:211-214 | a non-string tag value fails wrapped with its key; the map has been made |
| DecodeJxProofs.FrameMemberOk | decode_jx.go:141-164 | each well-shaped frame field sets what the reference says, consuming exactly its value |
| DecodeJxProofs.FrameMembersStep | decode_jx.go:140-169 | after a field decodes, the loop continues on the updated frame |
| DecodeJxProofs.FrameMembersOk | decode_jx.go:140-169 | the member loop over well-shaped members computes ApplyFrame |
| DecodeJxProofs.FrameOk | decode_jx.go:139-170 | a frame object decodes to ApplyFrame, consuming exactly the object |
| DecodeJxProofs.FrameUnknownKeySkipped | decode_jx.go:162-163 | an unknown key's whole value is skipped and the frame is unchanged |
| DecodeJxProofs.ContextExample | decode_jx.go:154-157 | pre_context then post_context both end up in PreCtx, in order |
| DecodeJxProofs.FrameElemsStep | decode_jx.go:129-135 | a decoded frame is appended and the loop continues |
| DecodeJxProofs.FrameElemsOk | decode_jx.go:129-136 | the element loop appends the frames in document order |
| DecodeJxProofs.FramesOk | decode_jx.go:128-137 | a frames array is appended after existing frames, in order, consuming exactly the array |
| DecodeJxProofs.FrameElemsFailStep | decode_jx.go:131-133 | a failing frame stops the loop with its error wrapped with `[len]` |
| DecodeJxProofs.FrameElementFails | decode_jx.go:129-136 | after good frames, a failing one is not appended and its error carries its index |
| DecodeJxProofs.FrameElemsAreArray | decode_jx.go:85-93 | the frames element loop is the generic element loop with the frame decoder |
| DecodeJxProofs.FramesAreArray | decode_jx.go:79-94 | `Frames.Decode` computes the same as the generic `Array.Decode` |
| DecodeJxProofs.ExceptionMemberOk | decode_jx.go:109-118 | each well-shaped exception field sets what the reference says |
| DecodeJxProofs.ExceptionMembersStep | decode_jx.go:108-125 | after a field decodes, the loop continues on the updated exception |
| DecodeJxProofs.ExceptionMembersOk | decode_jx.go:108-125 | the member loop computes ApplyException |
| DecodeJxProofs.ExceptionOk | decode_jx.go:107-126 | an exception object decodes to ApplyException, consuming exactly the object |
| DecodeJxProofs.ExceptionUnknownKeySkipped | decode_jx.go:118-119 | an unknown key's value is skipped and the exception is unchanged |
| DecodeJxProofs.ExceptionElemsStep | decode_jx.go:97-103 | a decoded exception is appended and the loop continues |
| DecodeJxProofs.ExceptionElemsOk | decode_jx.go:97-104 | the element loop appends the exceptions in document order |
| DecodeJxProofs.ExceptionsOk | decode_jx.go:96-105 | an exception array is appended in order, consuming exactly the array |
| DecodeJxProofs.ExceptionElemsFailStep | decode_jx.go:99-101 | a failing exception stops the loop with its error wrapped with `[len]` |
| DecodeJxProofs.ExceptionElementFails | decode_jx.go:97-104 | after good exceptions, a failing one is not appended and its error carries its index |
| DecodeJxProofs.ExceptionElemsAreArray | decode_jx.go:85-93 | the exceptions element loop is the generic element loop with the exception decoder |
| DecodeJxProofs.ExceptionsAreArray | decode_jx.go:79-94 | `Exceptions.Decode` computes the same as the generic `Array.Decode` |
| DecodeJxProofs.SdkMembersOk | decode_jx.go:58-71 | the SDK member loop computes ApplySdk |
| DecodeJxProofs.SdkOk | decode_jx.go:57-72 | an SDK object decodes to ApplySdk, consuming exactly the object |
| DecodeJxProofs.EventMemberOk | decode_jx.go:13-47 | each well-shaped event field sets what the reference says |
| DecodeJxProofs.EventMembersStep | decode_jx.go:12-54 | after a field decodes, the loop continues on the updated event |
| DecodeJxProofs.EventMembersOk | decode_jx.go:12-54 | the member loop computes ApplyEvent |
| DecodeJxProofs.EventOk | decode_jx.go:11-55 | an event object decodes to ApplyEvent, consuming exactly the object |
| DecodeJxProofs.EventMemberFails | decode_jx.go:50-53 | after good members, a failing field stops decoding with its error wrapped with the key |
| DecodeJxProofs.SdkMemberFails | decode_jx.go:67-69 | after good SDK members, a failing field stops the object with its error wrapped with the key |
| DecodeJxProofs.ExceptionMemberFails | decode_jx.go:121-123 | after good exception members, a failing field stops the object with its error wrapped with the key |
| DecodeJxProofs.FrameMemberFails | decode_jx.go:165-167 | after good frame members, a failing field stops the object with its error wrapped with the key |
| DecodeJxProofs.TimestampRejected | decode_jx.go:40-46 | a timestamp the parser rejects fails, wrapped with "timestamp", and leaves the zero time |
| DecodeJxProofs.EventUnknownKeySkipped | decode_jx.go:47-48 | an unknown key's value is skipped and the event is unchanged |
| DecodeJsonV2.Quoted | decode_jsonv2.go:22-25 | the key that `ReadValue` returns is the name between double quotes |
| DecodeJsonV2.StrFrom | decode_jsonv2.go:225-231 | `v2DecodeStr` reads any token and returns its text; it fails only at end of input |
| DecodeJsonV2.IntFrom | decode_jsonv2.go:233-239 | `v2DecodeInt` succeeds iff the token is a number and gives its integer view; on another token it consumes it and panics |
| DecodeJsonV2.BoolFrom | decode_jsonv2.go:241-247 | `v2DecodeBool` succeeds iff the token is a boolean; on another token it consumes it and panics |
| DecodeJsonV2.ContextLinesFrom | decode_jsonv2.go:325-341 | lines stay a prefix; a non-array is rejected without consuming; it never panics |
| DecodeJsonV2.ContextLineElemsFrom | decode_jsonv2.go:332-340 | the loop appends the text of every token, whatever its kind; it fails only at end of input |
| DecodeJsonV2.MapFrom | decode_jsonv2.go:249-294 | existing keys are kept; a non-object is rejected without consuming; it never panics |
| DecodeJsonV2.MapMembersFrom | decode_jsonv2.go:256-291 | the map is made before the first member; keys are kept |
| DecodeJsonV2.MapValueFrom | decode_jsonv2.go:266-290 | a failing value's error path starts with its key; the value either consumes input or fails in place |
| DecodeJsonV2.StrMapFrom | decode_jsonv2.go:296-323 | tags are kept; failures carry no key; a non-object is rejected without consuming |
| DecodeJsonV2.StrMapMembersFrom | decode_jsonv2.go:303-320 | the map is made before the first member; a failure is not wrapped with a key |
| DecodeJsonV2.FrameFrom | decode_jsonv2.go:177-219 | PostCtx is never changed; failures carry no key (field errors are dropped) |
| DecodeJsonV2.FrameMembersFrom | decode_jsonv2.go:184-216 | no member changes PostCtx; failures carry no key |
| DecodeJsonV2.FrameMemberFrom | decode_jsonv2.go:189-212 | no field case changes PostCtx |
| DecodeJsonV2.FramesFrom | decode_jsonv2.go:157-173 | frames stay a prefix; a non-array is rejected without consuming |
| DecodeJsonV2.FrameElemsFrom | decode_jsonv2.go:164-170 | the loop only appends frames |
| DecodeJsonV2.ExceptionFrom | decode_jsonv2.go:123-153 | failures carry no key (field errors are dropped); a non-object is rejected |
| DecodeJsonV2.ExceptionMembersFrom | decode_jsonv2.go:130-150 | failures carry no key |
| DecodeJsonV2.ExceptionMemberFrom | decode_jsonv2.go:135-146 | each field case never reads backwards |
| DecodeJsonV2.ExceptionsFrom | decode_jsonv2.go:103-119 | exceptions stay a prefix; a non-array is rejected without consuming |
| DecodeJsonV2.ExceptionElemsFrom | decode_jsonv2.go:110-116 | the loop only appends exceptions |
| DecodeJsonV2.SdkFrom | decode_jsonv2.go:73-99 | it never panics and its failures carry no key; a non-object is rejected |
| DecodeJsonV2.SdkMembersFrom | decode_jsonv2.go:80-96 | it never panics and its failures carry no key |
| DecodeJsonV2.SdkMemberFrom | decode_jsonv2.go:85-92 | an SDK field never panics |
| DecodeJsonV2.EventFrom | decode_jsonv2.go:14-69 | a non-object is rejected without consuming; success consumes input |
| DecodeJsonV2.EventMembersFrom | decode_jsonv2.go:21-66 | the member loop never reads backwards |
| DecodeJsonV2.EventMemberFrom | decode_jsonv2.go:25-62 | each field case never reads backwards |
| DecodeJsonV2.Str | decode_jsonv2.go:225-231 | through the cursor, matches StrFrom |
| DecodeJsonV2.Int | decode_jsonv2.go:233-239 | through the cursor, matches IntFrom |
| DecodeJsonV2.Bool | decode_jsonv2.go:241-247 | through the cursor, matches BoolFrom |
| DecodeJsonV2.SkipValue | decode_jsonv2.go:211 | `d.SkipValue()` through the cursor matches SkipFrom |
| DecodeJsonV2.Open | decode_jsonv2.go:178-183 | the `PeekKind` check and opening `ReadToken` consume the delimiter or fail without moving |
| DecodeJsonV2.AtArrayEnd | decode_jsonv2.go:164 | the loop ends exactly at `]`, which is then consumed as by the closing ReadToken; before an element nothing is read |
| DecodeJsonV2.DecodeContextLines | decode_jsonv2.go:325-341 | the loop computes ContextLinesFrom |
| DecodeJsonV2.DecodeMap | decode_jsonv2.go:249-294 | the loop computes MapFrom |
| DecodeJsonV2.DecodeMapMember | decode_jsonv2.go:257-290 | one loop iteration either ends the call with MapMembersFrom's outcome or consumes input and leaves a loop whose outcome is the same |
| DecodeJsonV2.DecodeMapValue | decode_jsonv2.go:266-290 | the value switch computes MapValueFrom |
| DecodeJsonV2.DecodeStrMap | decode_jsonv2.go:296-323 | the loop computes StrMapFrom |
| DecodeJsonV2.DecodeStrMapMember | decode_jsonv2.go:304-319 | one loop iteration either ends the call with StrMapMembersFrom's outcome or consumes input and leaves a loop whose outcome is the same |
| DecodeJsonV2.DecodeFrameMember | decode_jsonv2.go:189-212 | the field switch computes FrameMemberFrom |
| DecodeJsonV2.DecodeFrame | decode_jsonv2.go:177-219 | the loop computes FrameFrom |
| DecodeJsonV2.DecodeFrames | decode_jsonv2.go:157-173 | the loop computes FramesFrom |
| DecodeJsonV2.DecodeExceptionMember | decode_jsonv2.go:135-146 | the field switch computes ExceptionMemberFrom |
| DecodeJsonV2.DecodeException | decode_jsonv2.go:123-153 | the loop computes ExceptionFrom |
| DecodeJsonV2.DecodeExceptions | decode_jsonv2.go:103-119 | the loop computes ExceptionsFrom |
| DecodeJsonV2.DecodeSdkMember | decode_jsonv2.go:85-92 | the field switch computes SdkMemberFrom |
| DecodeJsonV2.DecodeSdk | decode_jsonv2.go:73-99 | the loop computes SdkFrom |
| DecodeJsonV2.DecodeEventMember | decode_jsonv2.go:25-65 | the field switch computes EventMemberFrom |
| DecodeJsonV2.DecodeEvent | decode_jsonv2.go:14-69 | the loop computes EventFrom |
| DecodeJsonV2Proofs.ContextLinesOk | decode_jsonv2.go:325-341 | an array of strings is appended in order, consuming exactly the array |
| DecodeJsonV2Proofs.ContextLineElemsOk | decode_jsonv2.go:332-338 | the loop over string elements appends them in order |
| DecodeJsonV2Proofs.ContextLineElemsStep | decode_jsonv2.go:333-337 | one string is appended and the loop continues |
| DecodeJsonV2Proofs.MapMembersStep | decode_jsonv2.go:256-291 | after a value decodes, the loop continues on the map it produced |
| DecodeJsonV2Proofs.MapValueOk | decode_jsonv2.go:266-290 | a string, number or nested-object value stores what Flatten (with the v2 number rule) says |
| DecodeJsonV2Proofs.MapMembersOk | decode_jsonv2.go:256-291 | the member loop over well-shaped members computes Flatten |
| DecodeJsonV2Proofs.MapOk | decode_jsonv2.go:249-294 | a map object decodes to its flattening, consuming exactly the object |
| DecodeJsonV2Proofs.MapEarlyReturn | decode_jsonv2.go:284-285 | a bool, null or array value is skipped and decoding returns Ok at once, leaving the rest of the object unread |
| DecodeJsonV2Proofs.EarlyReturnExample | decode_jsonv2.go:284-285 | `{"a":true,"b":"x"}` makes an empty map and leaves `"b":"x"}` unread |
| DecodeJsonV2Proofs.FractionExample | decode_jsonv2.go:267-272 | `{"n":1.5}` stores the truncated integer 1 |
| DecodeJsonV2Proofs.MadeLazilyExample | decode_jsonv2.go:256-259 | `{}` leaves a nil map nil; `{"a":{}}` makes an empty map |
| DecodeJsonV2Proofs.StrMapMembersOk | decode_jsonv2.go:303-320 | the member loop over string members stores every tag |
| DecodeJsonV2Proofs.StrMapOk | decode_jsonv2.go:296-323 | a tag object decodes to ApplyTags, consuming exactly the object |
| DecodeJsonV2Proofs.StrMapNonString | decode_jsonv2.go:312-314 | a non-string tag value fails without consuming it and without a key; the map has been made |
| DecodeJsonV2Proofs.FrameMemberOk | decode_jsonv2.go:189-212 | each well-shaped frame field sets what the reference says |
| DecodeJsonV2Proofs.FrameMembersStep | decode_jsonv2.go:213-215 | a field's error is dropped and the loop continues on the frame as updated |
| DecodeJsonV2Proofs.FramePanicPropagates | decode_jsonv2.go:198-207 | a panic in a field (lineno or in_app of the wrong kind) ends the frame decoder |
| DecodeJsonV2Proofs.FrameMembersOk | decode_jsonv2.go:184-216 | the member loop computes ApplyFrame |
| DecodeJsonV2Proofs.FrameOk | decode_jsonv2.go:177-219 | a frame object decodes to ApplyFrame, consuming exactly the object |
| DecodeJsonV2Proofs.FrameUnknownKeySkipped | decode_jsonv2.go:210-211 | an unknown key's whole value is skipped and the frame is unchanged |
| DecodeJsonV2Proofs.ContextExample | decode_jsonv2.go:202-205 | pre_context then post_context both end up in PreCtx, in order |
| DecodeJsonV2Proofs.FrameElemsStep | decode_jsonv2.go:164-170 | a decoded frame is appended and the loop continues |
| DecodeJsonV2Proofs.FrameElemsOk | decode_jsonv2.go:164-170 | the loop appends the frames in document order |
| DecodeJsonV2Proofs.FramesOk | decode_jsonv2.go:157-173 | a frames array is appended in order, consuming exactly the array |
| DecodeJsonV2Proofs.FrameElemsFailStep | decode_jsonv2.go:166-168 | a failing frame (including at end of input) stops the loop, wrapped with `[len]` |
| DecodeJsonV2Proofs.FrameElementFails | decode_jsonv2.go:164-170 | after good frames, a failing one is not appended and its error carries its index |
| DecodeJsonV2Proofs.ExceptionMemberOk | decode_jsonv2.go:135-146 | each well-shaped exception field sets what the reference says |
| DecodeJsonV2Proofs.ExceptionMembersStep | decode_jsonv2.go:147-149 | a field's error is dropped and the loop continues |
| DecodeJsonV2Proofs.ExceptionPanicPropagates | decode_jsonv2.go:142-143 | a panic inside the frames ends the exception decoder |
| DecodeJsonV2Proofs.ExceptionMembersOk | decode_jsonv2.go:130-150 | the member loop computes ApplyException |
| DecodeJsonV2Proofs.ExceptionOk | decode_jsonv2.go:123-153 | an exception object decodes to ApplyException, consuming exactly the object |
| DecodeJsonV2Proofs.ExceptionUnknownKeySkipped | decode_jsonv2.go:144-145 | an unknown key's value is skipped and the exception is unchanged |
| DecodeJsonV2Proofs.ExceptionElemsStep | decode_jsonv2.go:110-116 | a decoded exception is appended and the loop continues |
| DecodeJsonV2Proofs.ExceptionElemsOk | decode_jsonv2.go:110-116 | the loop appends the exceptions in document order |
| DecodeJsonV2Proofs.ExceptionsOk | decode_jsonv2.go:103-119 | an exception array is appended in order, consuming exactly the array |
| DecodeJsonV2Proofs.ExceptionElemsFailStep | decode_jsonv2.go:112-114 | a failing exception stops the loop, wrapped with `[len]` |
| DecodeJsonV2Proofs.ExceptionElementFails | decode_jsonv2.go:110-116 | after good exceptions, a failing one is not appended and its error carries its index |
| DecodeJsonV2Proofs.SdkMembersStep | decode_jsonv2.go:93-95 | whatever a field does, its error is dropped and the loop continues |
| DecodeJsonV2Proofs.SdkMembersOk | decode_jsonv2.go:80-96 | the SDK member loop computes ApplySdk |
| DecodeJsonV2Proofs.SdkOk | decode_jsonv2.go:73-99 | an SDK object decodes to ApplySdk, consuming exactly the object |
| DecodeJsonV2Proofs.EventMemberOk | decode_jsonv2.go:25-62 | each well-shaped event field sets what the reference says |
| DecodeJsonV2Proofs.EventMembersStep | decode_jsonv2.go:21-66 | after a field decodes, the loop continues on the updated event |
| DecodeJsonV2Proofs.EventMembersOk | decode_jsonv2.go:21-66 | the member loop computes ApplyEvent |
| DecodeJsonV2Proofs.EventOk | decode_jsonv2.go:14-69 | an event object decodes to ApplyEvent, consuming exactly the object |
| DecodeJsonV2Proofs.EventMemberFails | decode_jsonv2.go:63-65 | after good members, a failing field returns its error wrapped with the quoted key |
| DecodeJsonV2Proofs.TimestampRejected | decode_jsonv2.go:53-59 | a timestamp the parser rejects fails, wrapped with `"timestamp"` in quotes, leaving the zero time |
| DecodeJsonV2Proofs.EventUnknownKeySkipped | decode_jsonv2.go:60-61 | an unknown key's value is skipped and the event is unchanged |
| Reference.LeafNumber | decode_jx.go:183-187 | jx stores an integer literal as an `int` and a fractional one as a float; jsontext stores the `int64` integer view of any number |
| Reference.Flatten | decode_jx.go:172-204 | the result is nil only for a nil map and no members; its keys are the old keys plus the leaf paths; every old entry no member writes keeps its value |
| Reference.LeafStored | decode_jx.go:176-200 | a string or number member not overwritten later is stored under prefix+key as its string or its backend's number |
| Reference.FlattenFirst | decode_jx.go:173-203 | flattening members is flattening the first into a made map, then the rest |
| Reference.LeafPathsExtend | decode_jx.go:189 | every flattened key starts with the prefix |
| Reference.NestedObjectNoEntry | decode_jx.go:188-192 | a nested object gets no entry of its own, only entries for its leaves |
| Reference.ApplyTags | decode_jx.go:206-218 | the tag keys are the old keys plus every member key; each key holds the string of its last member; other entries keep their values |
| Reference.KeysInSplit | decode_jx.go:206-218 | the keys of a member list are its first key and the keys of the rest |
| Reference.StringsOf | decode_jx.go:220-229 | one line per element, each the element's string, in order |
| Reference.ApplySdkMember | decode_jx.go:59-66 | a key other than name or version leaves the SDK unchanged |
| Reference.ApplyFrameMember | decode_jx.go:141-164 | an unknown key leaves the frame unchanged, and PostCtx is never written |
| Reference.FramesOf | decode_jx.go:128-137 | one frame per element, in order, each the frame object decoded from the zero Frame |
| Reference.ApplyExceptionMember | decode_jx.go:109-120 | an unknown key leaves the exception unchanged |
| Reference.ExceptionsOf | decode_jx.go:96-105 | one exception per element, in order, each the exception object decoded from the zero Exception |
| Reference.ApplyEventMember | decode_jx.go:13-48 | an unknown key leaves the event unchanged |
| Reference.UnknownFrameKeysIgnored | decode_jx.go:162-163 | members with only unknown keys leave a frame as it was |
| Reference.UnknownEventKeysIgnored | decode_jx.go:47-48 | members with only unknown keys leave an event as it was |
| Reference.AbsentLineNumKept | event.go:43 | without a `lineno` member, LineNum keeps its starting value (0 from the zero Frame) |
| Reference.PostCtxUntouched | event.go:45-46 | no frame document changes PostCtx, since both context keys write PreCtx |
| Reference.AbsentTimestampKept | event.go:19 | without a `timestamp` member, the Timestamp keeps its starting value |
| Agreement.RetypeValue | decode_jsonv2.go:272 | an `int64` map value becomes the Go `int` jx stores; every other value is unchanged |
| Agreement.RetypeMap | decode_jsonv2.go:249-294 | retyping keeps nil, keeps the keys and retypes each value |
| Agreement.RetypeFrames | decode_jsonv2.go:157-173 | retypes every frame, in order |
| Agreement.RetypeExceptions | decode_jsonv2.go:103-119 | retypes every exception, in order |
| Agreement.StoreRetype | decode_jsonv2.go:290 | storing then retyping equals storing the retyped value in the retyped map |
| Agreement.MadeRetype | decode_jsonv2.go:257-259 | making a map commutes with retyping |
| Agreement.RetypeFramesAppend | decode_jsonv2.go:157-173 | retyping distributes over appending frames |
| Agreement.RetypeExceptionsAppend | decode_jsonv2.go:103-119 | retyping distributes over appending exceptions |
| Agreement.FlattenAgree | decode_jsonv2.go:266-272 | on integer literals, jx flattening the retyped map gives the retyped result of jsontext's flattening |
| Agreement.FrameMemberAgree | decode_jsonv2.go:189-212 | a frame field with integer numbers has the same effect in both backends, up to retyping |
| Agreement.FrameAgree | decode_jsonv2.go:177-219 | a frame object with integer numbers has the same meaning in both backends, up to retyping |
| Agreement.FramesAgree | decode_jsonv2.go:157-173 | a frames array with integer numbers decodes to the retyped jsontext frames in jx |
| Agreement.ExceptionMemberAgree | decode_jsonv2.go:135-146 | an exception field decodes alike in both backends, up to retyping |
| Agreement.ExceptionAgree | decode_jsonv2.go:123-153 | an exception object decodes alike in both backends, up to retyping |
| Agreement.ExceptionsAgree | decode_jsonv2.go:103-119 | an exception array decodes to the retyped jsontext exceptions in jx |
| Agreement.EventMemberAgree | decode_jsonv2.go:25-62 | an event field decodes alike in both backends, up to retyping |
| Agreement.EventAgree | decode_jsonv2.go:14-69 | an event object's meaning is the same in both backends, up to retyping |
| Agreement.BackendsAgree | decode_jx.go:11-55 | on a well-shaped event document with integer numbers, jx gives the same rest and status as jsontext and its Event retyped (the `int64` map integers as Go `int`s) |
| Agreement.BackendsDisagreeOnFraction | decode_jx.go:183-187 | `{"n":1.5}` in a map: jx stores the float, jsontext the `int64` 1 |

## Left out

- Lexing. The input is already a token sequence. jx's byte-level reader,
  string escapes, UTF-8 validation and jx's nesting depth limit are not
  modelled.
- The jsontext grammar state machine. Its name/value alternation is
  modelled only where it bites: a name that is not a string is Malformed.
  - Once v2 swallows a field error, the real decoder may be out of step
    with the grammar. The model simply goes on from the tokens left.
  - `v2DecodeStr` on a closing delimiter is rejected by jsontext. The model
    returns the delimiter's text.
  - The v2 `timestamp` member reads its value with `ReadToken`
    (`decode_jsonv2.go:53-58`), which jsontext rejects on a closing
    delimiter. The model consumes the delimiter and hands its text to the
    timestamp parser.
  - `DecodeJsonV2.IntFrom` and `DecodeJsonV2.BoolFrom` on `}` or `]`
    consume the token and Panic, where jsontext's `ReadToken` returns a
    syntax error instead.
  - jsontext's default options reject a repeated member name in an object
    when the name is read. The model does not track names already seen,
    so its v2 member loops accept repeated names (last tag wins, two
    `exception` members both append).
- Escaped member names. v2 switches on the raw key text
  (`decode_jsonv2.go:26`), so an escaped spelling of a field name such as
  `"\u006cevel"` is an unknown key there, while jx decodes the field. The
  model has no escapes: a name is its decoded text.
- Number payloads. A number is its literal text, whether it is an integer
  literal, and its integer view, all kept opaque. float64 conversion,
  int64 saturation in `Token.Int()` and the 32-bit truncation of
  `int(tok.Int())` (`decode_jsonv2.go:238`) are not modelled.
- `time.Parse(time.RFC3339Nano, …)` is a parameter (`TimeParser`).
  Instants are opaque.
- Error message texts (`"expected object, got …"`, `"reading object key"`,
  `"unexpected jx.Type …"`) are not modelled. Only the error kind and the
  key/index wrap path are.
- A run-time panic is modelled as a `Panic` status that ends decoding and
  propagates. Recovery and stack unwinding are not.
- The shadowed `err` in `v2DecodeMap`'s number and string cases
  (`decode_jsonv2.go:268-279`) can never carry an error outward. The model
  has no such path.
- nil versus empty for slices. A slice that is only ever appended to is
  modelled as a sequence.
- `decode_test.go` and the benchmark harness are not part of this model.
- DecodeJsonV2Proofs.FrameOk: it requires an integer `lineno` literal, the
  same frame shape as jx. For jsontext any number literal would do (its
  integer view is taken), so this is weaker than what v2 accepts.
- DecodeJsonV2Proofs.FrameMemberOk: it has the same integer-`lineno`
  restriction as FrameOk.
- DecodeJsonV2Proofs.FrameMembersOk: its document shape requires every `lineno`
  to be an integer literal, as FrameOk does; it says nothing about a
  fractional `lineno`, which jsontext accepts.
- DecodeJsonV2Proofs.FrameElemsOk: its document shape requires every `lineno`
  to be an integer literal, as FrameOk does; it says nothing about a
  fractional `lineno`, which jsontext accepts.
- DecodeJsonV2Proofs.FramesOk: its document shape requires every `lineno`
  to be an integer literal, as FrameOk does; it says nothing about a
  fractional `lineno`, which jsontext accepts.
- DecodeJsonV2Proofs.FrameElementFails: its document shape requires every `lineno`
  to be an integer literal, as FrameOk does; it says nothing about a
  fractional `lineno`, which jsontext accepts.
- DecodeJsonV2Proofs.ExceptionMemberOk: its document shape requires every `lineno`
  to be an integer literal, as FrameOk does; it says nothing about a
  fractional `lineno`, which jsontext accepts.
- DecodeJsonV2Proofs.ExceptionMembersOk: its document shape requires every `lineno`
  to be an integer literal, as FrameOk does; it says nothing about a
  fractional `lineno`, which jsontext accepts.
- DecodeJsonV2Proofs.ExceptionOk: its document shape requires every `lineno`
  to be an integer literal, as FrameOk does; it says nothing about a
  fractional `lineno`, which jsontext accepts.
- DecodeJsonV2Proofs.ExceptionElemsOk: its document shape requires every `lineno`
  to be an integer literal, as FrameOk does; it says nothing about a
  fractional `lineno`, which jsontext accepts.
- DecodeJsonV2Proofs.ExceptionsOk: its document shape requires every `lineno`
  to be an integer literal, as FrameOk does; it says nothing about a
  fractional `lineno`, which jsontext accepts.
- DecodeJsonV2Proofs.ExceptionElementFails: its document shape requires every `lineno`
  to be an integer literal, as FrameOk does; it says nothing about a
  fractional `lineno`, which jsontext accepts.
- DecodeJsonV2Proofs.EventMemberOk: its document shape requires every `lineno`
  to be an integer literal, as FrameOk does; it says nothing about a
  fractional `lineno`, which jsontext accepts.
- DecodeJsonV2Proofs.EventMembersOk: its document shape requires every `lineno`
  to be an integer literal, as FrameOk does; it says nothing about a
  fractional `lineno`, which jsontext accepts.
- DecodeJsonV2Proofs.EventOk: its document shape requires every `lineno`
  to be an integer literal, as FrameOk does; it says nothing about a
  fractional `lineno`, which jsontext accepts.
- DecodeJsonV2Proofs.EventMemberFails: its document shape requires every `lineno`
  to be an integer literal, as FrameOk does; it says nothing about a
  fractional `lineno`, which jsontext accepts.
- DecodeJsonV2Proofs.StrMapOk: holds in the program only for objects without
  repeated member names; jsontext's default rejection of a repeated name
  is not modelled.
- DecodeJsonV2Proofs.StrMapMembersOk: holds in the program only for objects without
  repeated member names; jsontext's default rejection of a repeated name
  is not modelled.
- DecodeJsonV2Proofs.MapOk: holds in the program only for objects without
  repeated member names; jsontext's default rejection of a repeated name
  is not modelled.
- DecodeJsonV2Proofs.MapMembersOk: holds in the program only for objects without
  repeated member names; jsontext's default rejection of a repeated name
  is not modelled.
- DecodeJsonV2Proofs.SdkOk: holds in the program only for objects without
  repeated member names; jsontext's default rejection of a repeated name
  is not modelled.
- DecodeJsonV2Proofs.SdkMembersOk: holds in the program only for objects without
  repeated member names; jsontext's default rejection of a repeated name
  is not modelled.
- DecodeJsonV2Proofs.FrameOk: holds in the program only for objects without
  repeated member names; jsontext's default rejection of a repeated name
  is not modelled.
- DecodeJsonV2Proofs.ExceptionOk: holds in the program only for objects without
  repeated member names; jsontext's default rejection of a repeated name
  is not modelled.
- DecodeJsonV2Proofs.EventOk: holds in the program only for objects without
  repeated member names; jsontext's default rejection of a repeated name
  is not modelled.
- DecodeJsonV2Proofs.EventMembersOk: holds in the program only for objects without
  repeated member names; jsontext's default rejection of a repeated name
  is not modelled.
- Agreement.BackendsAgree: stated for documents whose numbers are all
  integer literals, since on a fraction the backends really differ
  (BackendsDisagreeOnFraction), and only up to RetypeEvent, since a Go
  `int` and an `int64` are different values inside an `any`.
  It also holds in the program only for documents without repeated member
  names (jsontext rejects those, jx does not) and whose field names are
  written without escapes (v2 matches the raw key text).
- DecodeJx.ExceptionMemberFrom: its contract only bounds the tokens it
  consumes. What each field sets is stated by
  DecodeJxProofs.ExceptionMemberOk.
- DecodeJsonV2.ExceptionMemberFrom: its contract only bounds the tokens it
  consumes. What each field sets is stated by
  DecodeJsonV2Proofs.ExceptionMemberOk.
