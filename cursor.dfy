/**
 * A pull cursor over a buffered token stream: the part of jx.Decoder and
 * jsontext.Decoder that the decoders drive. Its only state is the read
 * position; `Rest()` is what has not been consumed yet.
 */
module Cursor {
  import opened Errors
  import opened TokenStream

  class Cursor {
    const toks: seq<Token>
    var pos: nat

    ghost predicate Valid()
      reads this
    {
      pos <= |toks|
    }

    /** The tokens not consumed yet. */
    function Rest(): seq<Token>
      reads this
      requires Valid()
    {
      toks[pos..]
    }

    constructor (ts: seq<Token>)
      ensures Valid() && toks == ts && Rest() == ts
    {
      toks, pos := ts, 0;
    }

    /** PeekKind / Next: the kind of the next token, without consuming it. */
    function Peek(): (k: Kind)
      reads this
      requires Valid()
      ensures (k == KEnd) == (Rest() == [])
    {
      KindOf(toks[pos..])
    }

    /** ReadToken: consumes and returns the next token; fails only at the end of input. */
    method Read() returns (t: Option<Token>)
      requires Valid()
      modifies this
      ensures Valid()
      ensures old(Rest()) == [] ==> t == None && Rest() == old(Rest())
      ensures old(Rest()) != [] ==> t == Some(old(Rest())[0]) && Rest() == old(Rest())[1..]
    {
      if pos == |toks| {
        t := None;
      } else {
        t := Some(toks[pos]);
        pos := pos + 1;
      }
    }

    /**
     * The step of an object loop between members: '}' ends the object
     * (name is None, status Ok), a string is the next member's name;
     * anything else, or the end of input, is an error and nothing is
     * consumed.
     */
    method ReadName() returns (name: Option<string>, st: Status)
      requires Valid()
      modifies this
      ensures Valid()
      ensures var ts := old(Rest());
        if ts != [] && ts[0] == ObjEnd then name == None && st == Ok && Rest() == ts[1..]
        else if ts != [] && ts[0].Str? then name == Some(ts[0].s) && st == Ok && Rest() == ts[1..]
        else name == None && st == Failure(Malformed) && Rest() == ts
    {
      if pos < |toks| && (toks[pos] == ObjEnd || toks[pos].Str?) {
        name := if toks[pos].Str? then Some(toks[pos].s) else None;
        pos, st := pos + 1, Ok;
      } else {
        name, st := None, Failure(Malformed);
      }
    }

    /** Skip / SkipValue: consumes one whole value, or nothing if there is none. */
    method Skip() returns (ok: bool)
      requires Valid()
      modifies this
      ensures Valid()
      ensures ok == SkipValue(old(Rest())).Some?
      ensures ok ==> Rest() == SkipValue(old(Rest())).value
      ensures !ok ==> Rest() == old(Rest())
    {
      var r := SkipValue(toks[pos..]);
      ok := r.Some?;
      if ok {
        pos := |toks| - |r.value|;
      }
    }
  }
}
