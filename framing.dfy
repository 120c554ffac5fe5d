/** Newline-delimited framing on the two pipes. A frame is one serialised
    JSON value followed by `'\n'`; the reading side splits the byte stream
    with tokio's `Lines::next_line`. */
module Framing {
  import opened Wrappers
  import opened Json

  /** The text written for one message: `format!("{}\n", to_string(&v))`. */
  function FrameLine(v: Value): (line: string)
    ensures |line| > 0 && line[|line| - 1] == '\n'
    ensures forall k | 0 <= k < |line| - 1 :: line[k] != '\n'
  {
    Serialize(v) + "\n"
  }

  /** Everything written for the messages `vs`, in order. */
  function Frames(vs: seq<Value>): string {
    if vs == [] then "" else FrameLine(vs[0]) + Frames(vs[1..])
  }

  /** The serialised text of each message (what each frame carries). */
  function SerializeAll(vs: seq<Value>): (ts: seq<string>)
    ensures |ts| == |vs|
  {
    if vs == [] then [] else [Serialize(vs[0])] + SerializeAll(vs[1..])
  }

  /** Index of the first `'\n'` in `s`, if any. */
  function FindNewline(s: string): (r: Option<nat>)
    ensures r.Some? ==> r.value < |s| && s[r.value] == '\n' && forall k | 0 <= k < r.value :: s[k] != '\n'
    ensures r.None? ==> forall k | 0 <= k < |s| :: s[k] != '\n'
  {
    if s == [] then None
    else if s[0] == '\n' then Some(0)
    else match FindNewline(s[1..])
      case None => None
      case Some(k) => Some(k + 1)
  }

  /** One line with its terminator removed: tokio strips a final `'\r'`
      only from a line that ended in `'\n'`. */
  function StripCr(line: string): string {
    if |line| > 0 && line[|line| - 1] == '\r' then line[..|line| - 1] else line
  }

  /** The successive results of `next_line` on a stream holding `s`:
      each `'\n'`-terminated line without its `"\n"` or `"\r\n"`, then the
      unterminated rest if it is not empty. */
  function Lines(s: string): seq<string>
    decreases |s|
  {
    if s == [] then []
    else match FindNewline(s)
      case None => [s]
      case Some(k) => [StripCr(s[..k])] + Lines(s[k + 1..])
  }

  /** Frames are appended one at a time. */
  lemma {:induction false} FramesSnoc(vs: seq<Value>, v: Value)
    ensures Frames(vs + [v]) == Frames(vs) + FrameLine(v)
  {
    if vs == [] {
      assert vs + [v] == [v];
    } else {
      assert (vs + [v])[1..] == vs[1..] + [v];
      FramesSnoc(vs[1..], v);
    }
  }

  /** Reading a stream that starts with a whole frame yields that frame's
      text first, then whatever follows. */
  lemma SplitFrame(v: Value, rest: string)
    ensures Lines(FrameLine(v) + rest) == [Serialize(v)] + Lines(rest)
  {
    var t := Serialize(v);
    var s := FrameLine(v) + rest;
    assert s[..|t|] == t;
    assert s[|t|] == '\n';
    assert FindNewline(s) == Some(|t|);
    assert s[|t| + 1..] == rest;
    assert !IsControl(t[|t| - 1]);
  }

  /** Framing round trip: splitting the concatenated frames of `vs` into
      lines gives back the serialised text of each message, one per line,
      in order. */
  lemma {:induction false} LinesOfFrames(vs: seq<Value>)
    ensures Lines(Frames(vs)) == SerializeAll(vs)
  {
    if vs != [] {
      SplitFrame(vs[0], Frames(vs[1..]));
      LinesOfFrames(vs[1..]);
    }
  }
}
