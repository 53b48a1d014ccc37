/**
 * Text helpers shared by the executor and its observers: the output that a
 * sequence of echoed commands leaves in a sink, and Rust's
 * `str::split_terminator('\n')`, which the switch tests use to read it back.
 */
module Text {

  /** A line of text: it holds no newline character. */
  predicate NoNewline(s: string) {
    '\n' !in s
  }

  /** What `echo c` prints for each command `c` in turn: the command and a newline. */
  function Echoed(cmds: seq<string>): string
  {
    if cmds == [] then "" else cmds[0] + "\n" + Echoed(cmds[1..])
  }

  /** The index of the first occurrence of `c` in `s`. */
  function IndexOf(s: string, c: char): (i: nat)
    requires c in s
    ensures i < |s| && s[i] == c
    ensures c !in s[..i]
  {
    if s[0] == c then 0 else 1 + IndexOf(s[1..], c)
  }

  /**
   * `s.split_terminator('\n')`: the pieces between newlines, where a final
   * newline ends the last piece instead of starting an empty one.
   */
  function SplitTerminator(s: string): (r: seq<string>)
    decreases |s|
    ensures forall k :: 0 <= k < |r| ==> NoNewline(r[k])
    ensures Echoed(r) == if s == [] || s[|s| - 1] == '\n' then s else s + "\n"
  {
    if s == [] then []
    else if '\n' !in s then [s]
    else
      var i := IndexOf(s, '\n');
      var r := [s[..i]] + SplitTerminator(s[i + 1..]);
      assert r[1..] == SplitTerminator(s[i + 1..]);
      assert s == s[..i] + "\n" + s[i + 1..];
      r
  }

  /** The first newline of `line + "\n" + rest` is the one after `line`. */
  lemma FirstNewlineEndsLine(line: string, rest: string)
    requires NoNewline(line)
    ensures '\n' in line + "\n" + rest
    ensures IndexOf(line + "\n" + rest, '\n') == |line|
  {
    var s := line + "\n" + rest;
    assert s[|line|] == '\n';
    var i := IndexOf(s, '\n');
    assert forall k :: 0 <= k < |line| ==> s[k] == line[k];
  }

  /** Splitting echoed lines at their newlines gives back exactly those lines. */
  lemma {:induction false} SplitEchoed(cmds: seq<string>)
    requires forall k :: 0 <= k < |cmds| ==> NoNewline(cmds[k])
    ensures SplitTerminator(Echoed(cmds)) == cmds
  {
    if cmds != [] {
      var rest := Echoed(cmds[1..]);
      var s := cmds[0] + "\n" + rest;
      assert Echoed(cmds) == s;
      FirstNewlineEndsLine(cmds[0], rest);
      assert s[..|cmds[0]|] == cmds[0];
      assert s[|cmds[0]| + 1..] == rest;
      assert SplitTerminator(s) == [cmds[0]] + SplitTerminator(rest);
      SplitEchoed(cmds[1..]);
      assert cmds == [cmds[0]] + cmds[1..];
    }
  }
}
