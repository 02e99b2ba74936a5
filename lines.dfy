/** Newline-terminated records: how a text body is cut into the lines a streaming client reads. */
module Lines {
  import opened Wrappers

  /** The body made of `lines`, each followed by a line feed. */
  function Terminated(lines: seq<string>): string
  {
    if lines == [] then [] else lines[0] + "\n" + Terminated(lines[1..])
  }

  /** The lines with a line feed between consecutive ones: how a multi-line text literal
      is written down line by line. */
  function Joined(lines: seq<string>): string
  {
    if lines == [] then [] else if |lines| == 1 then lines[0] else lines[0] + "\n" + Joined(lines[1..])
  }

  /** Position of the first line feed in `s`. */
  function FirstLineFeed(s: string): (r: Option<nat>)
    ensures r.Some? ==> r.value < |s| && s[r.value] == '\n' && '\n' !in s[..r.value]
    ensures r.None? ==> '\n' !in s
  {
    if s == [] then None
    else if s[0] == '\n' then Some(0)
    else match FirstLineFeed(s[1..])
      case None => None
      case Some(i) =>
        assert s[..i + 1] == [s[0]] + s[1..][..i];
        Some(i + 1)
  }

  /** What a client reading up to each line feed sees: the records of `s`, line feeds removed.
      A final piece with no line feed after it is returned as a last record. */
  function Split(s: string): seq<string>
    decreases |s|
  {
    match FirstLineFeed(s)
    case None => if s == [] then [] else [s]
    case Some(i) => [s[..i]] + Split(s[i + 1..])
  }

  /** Cutting a body of line-feed-free lines at its line feeds gives the lines back, in order. */
  lemma {:induction false} SplitTerminated(lines: seq<string>)
    requires forall i :: 0 <= i < |lines| ==> '\n' !in lines[i]
    ensures Split(Terminated(lines)) == lines
  {
    if lines != [] {
      var s := Terminated(lines);
      var head := lines[0];
      assert s == head + ("\n" + Terminated(lines[1..]));
      assert s[|head|] == '\n';
      assert s[..|head|] == head;
      var r := FirstLineFeed(s);
      assert r == Some(|head|);
      assert s[|head| + 1..] == Terminated(lines[1..]);
      SplitTerminated(lines[1..]);
      assert Split(s) == [head] + lines[1..];
    }
  }
}
