/** JSON text for measurement records. Encoding one record (`json.Marshal` of
    a `PerfJSON`) is an oracle that may fail; encoding a slice of records is
    built from it the way `encoding/json` does: `null` for a nil slice,
    otherwise the element encodings joined by commas inside brackets, and a
    failure if any element fails. */
module Json {
  import opened Wrappers
  import opened Messages

  /** `json.Marshal` of one record: its JSON text, or `None` on failure. */
  type Encoder = PerfJson -> Option<string>

  /** The comma-separated encodings of `xs`, or `None` if some record fails. */
  function Elements(encode: Encoder, xs: seq<PerfJson>): (r: Option<string>)
    ensures r.None? <==> exists i | 0 <= i < |xs| :: encode(xs[i]).None?
    ensures |xs| == 1 && r.Some? ==> Some(r.value) == encode(xs[0])
    decreases |xs|
  {
    if xs == [] then Some("")
    else
      match encode(xs[0])
      case None => None
      case Some(head) =>
        if |xs| == 1 then Some(head)
        else
          match Elements(encode, xs[1..])
          case None =>
            assert exists i | 0 <= i < |xs| :: encode(xs[i]).None? by {
              var i :| 0 <= i < |xs[1..]| && encode(xs[1..][i]).None?;
              assert encode(xs[i + 1]).None?;
            }
            None
          case Some(tail) => Some(head + "," + tail)
  }

  /** `json.Marshal` of a slice of records. An empty history in the server is
      always a nil slice, which Go encodes as `null`. */
  function MarshalSlice(encode: Encoder, xs: seq<PerfJson>): (r: Option<string>)
    ensures xs == [] ==> r == Some("null")
    ensures xs != [] ==> (r.None? <==> exists i | 0 <= i < |xs| :: encode(xs[i]).None?)
    ensures xs != [] && r.Some? ==> |r.value| >= 2 && r.value[0] == '[' && r.value[|r.value| - 1] == ']'
  {
    if xs == [] then Some("null")
    else
      match Elements(encode, xs)
      case None => None
      case Some(body) => Some("[" + body + "]")
  }

  /** Appending a record whose encoding is `d` extends the element list by a
      comma and `d`. */
  lemma {:induction false} ElementsAppend(encode: Encoder, xs: seq<PerfJson>, x: PerfJson, d: string)
    requires xs != []
    requires encode(x) == Some(d)
    requires Elements(encode, xs).Some?
    ensures Elements(encode, xs + [x]) == Some(Elements(encode, xs).value + "," + d)
    decreases |xs|
  {
    var ys := xs + [x];
    assert ys[0] == xs[0];
    assert ys[1..] == xs[1..] + [x];
    if |xs| > 1 {
      ElementsAppend(encode, xs[1..], x, d);
      var head := encode(xs[0]).value;
      var tail := Elements(encode, xs[1..]).value;
      assert Elements(encode, xs) == Some(head + "," + tail);
      assert head + "," + (tail + "," + d) == (head + "," + tail) + "," + d;
    } else {
      assert ys[1..] == [x];
    }
  }
}
