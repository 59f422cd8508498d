/** Text as the protocol sees it: a stream of one-byte characters cut at line feeds. */
module Text {

  const LF := '\n'

  /** The stream cut at every LF; the last element is the unterminated tail, empty
      when the stream ends in LF. */
  function Lines(t: string): (ls: seq<string>)
    ensures |ls| >= 1
    ensures forall l <- ls :: LF !in l
  {
    if t == "" then [""]
    else
      var ls, c := Lines(t[..|t| - 1]), t[|t| - 1];
      var last := |ls| - 1;
      if c == LF then ls + [""] else ls[..last] + [ls[last] + [c]]
  }

  /** Every line followed by its LF. */
  function Terminated(ls: seq<string>): string {
    if ls == [] then "" else Terminated(ls[..|ls| - 1]) + ls[|ls| - 1] + [LF]
  }

  function Concat(chunks: seq<string>): string {
    if chunks == [] then "" else chunks[0] + Concat(chunks[1..])
  }

  function TrimBlank(t: string): (d: string)
    ensures d == "" || d[0] != LF
    ensures |d| <= |t| && d == t[|t| - |d|..]
    ensures forall i | 0 <= i < |t| - |d| :: t[i] == LF
  {
    if t != "" && t[0] == LF then TrimBlank(t[1..]) else t
  }

  ghost predicate BlankLineAt(t: string, i: int) {
    0 <= i && i + 1 < |t| && t[i] == LF && t[i + 1] == LF
  }

  /** Where the first LF LF starts, or |t| when there is none. */
  function BlankAt(t: string): (i: nat)
    ensures i <= |t|
    ensures i < |t| ==> BlankLineAt(t, i)
    ensures forall j | 0 <= j < i :: !BlankLineAt(t, j)
  {
    if |t| < 2 then |t|
    else if t[0] == LF && t[1] == LF then 0
    else
      var i := BlankAt(t[1..]);
      assert forall j | 1 <= j < i + 1 :: BlankLineAt(t, j) ==> BlankLineAt(t[1..], j - 1);
      assert i < |t[1..]| ==> BlankLineAt(t, i + 1);
      i + 1
  }

  /** BlankAt is the only index with its three properties. */
  lemma BlankAtUnique(t: string, i: nat)
    requires i <= |t|
    requires i < |t| ==> BlankLineAt(t, i)
    requires forall j | 0 <= j < i :: !BlankLineAt(t, j)
    ensures BlankAt(t) == i
  {
    var k := BlankAt(t);
    assert k < i ==> !BlankLineAt(t, k);
    assert i < k ==> !BlankLineAt(t, i);
  }

  /** Cutting and putting the LFs back is the identity, whatever the stream. */
  lemma {:induction false} LinesRebuild(t: string)
    ensures var ls := Lines(t); Terminated(ls[..|ls| - 1]) + ls[|ls| - 1] == t
  {
    if t == "" {
    } else {
      var p, c := t[..|t| - 1], t[|t| - 1];
      LinesRebuild(p);
      assert t == p + [c];
      var ls := Lines(p);
      if c == LF {
        assert (ls + [""])[..|ls|] == ls;
      } else {
        assert Lines(t)[..|ls| - 1] == ls[..|ls| - 1];
      }
    }
  }

  /** A piece without LF only lengthens the tail. */
  lemma {:induction false} LinesAppendPiece(t: string, piece: string)
    requires LF !in piece
    ensures var ls := Lines(t); Lines(t + piece) == ls[..|ls| - 1] + [ls[|ls| - 1] + piece]
  {
    var ls := Lines(t);
    if piece == "" {
      assert t + piece == t;
      assert ls[|ls| - 1] + piece == ls[|ls| - 1];
    } else {
      var p, c := piece[..|piece| - 1], piece[|piece| - 1];
      LinesAppendPiece(t, p);
      assert (t + piece)[..|t + piece| - 1] == t + p;
      assert c in piece;
      var ms := Lines(t + p);
      assert ms[..|ms| - 1] == ls[..|ls| - 1];
      assert ls[|ls| - 1] + piece == ls[|ls| - 1] + p + [c];
    }
  }

  lemma LinesAppendLF(t: string)
    ensures Lines(t + [LF]) == Lines(t) + [""]
  {
    assert (t + [LF])[..|t|] == t;
  }

  /** Cutting a terminated list of lines gives the list back, with an empty tail. */
  lemma {:induction false} LinesOfTerminated(ls: seq<string>)
    requires forall l <- ls :: LF !in l
    ensures Lines(Terminated(ls)) == ls + [""]
  {
    if ls != [] {
      var init, l := ls[..|ls| - 1], ls[|ls| - 1];
      assert forall m <- init :: m in ls;
      LinesOfTerminated(init);
      LinesAppendLine(Terminated(init), init, l);
      assert ls == init + [l];
    }
  }

  lemma LinesAppendLine(t: string, ls: seq<string>, l: string)
    requires Lines(t) == ls + [""] && LF !in l
    ensures Lines(t + l + [LF]) == ls + [l] + [""]
  {
    hide Lines;
    LinesAppendPiece(t, l);
    assert (ls + [""])[..|ls|] == ls && "" + l == l;
    LinesAppendLF(t + l);
  }

  /** A blank line in a terminated list of lines is an empty line. */
  lemma {:induction false} TerminatedHasNoBlank(ls: seq<string>)
    requires forall l <- ls :: LF !in l && l != ""
    ensures BlankAt(Terminated(ls)) == |Terminated(ls)|
    ensures ls != [] ==> Terminated(ls) != "" && Terminated(ls)[0] != LF
  {
    if ls != [] {
      var init, l := ls[..|ls| - 1], ls[|ls| - 1];
      assert forall l <- init :: l in ls;
      TerminatedHasNoBlank(init);
      var t, u := Terminated(init), Terminated(ls);
      assert u == t + l + [LF];
      assert l in ls;
      NoBlankAppend(t, l);
      if init == [] { assert u[0] == l[0]; } else { assert u[0] == t[0]; }
    }
  }

  lemma NoBlankAppend(t: string, l: string)
    requires BlankAt(t) == |t| && l != "" && LF !in l
    ensures BlankAt(t + l + [LF]) == |t + l + [LF]|
  {
    hide BlankAt;
    var u := t + l + [LF];
    forall j | 0 <= j < |u| ensures !BlankLineAt(u, j) {
      if j + 1 < |t| {
        assert !BlankLineAt(t, j) && u[j] == t[j] && u[j + 1] == t[j + 1];
      } else if j < |t| {
        assert u[j + 1] == l[0];
      } else if j + 1 < |u| {
        assert u[j] == l[j - |t|];
      }
    }
    BlankAtUnique(u, |u|);
  }

  lemma Regroup(a: string, b: string, c: string)
    ensures a + b + c == a + (b + c)
  {
  }

  // ---------- messages ----------

  /** Lines closed by a blank line: the shape of every request and every response. */
  function Message(ls: seq<string>): string { Terminated(ls) + [LF] }

  ghost predicate Solid(ls: seq<string>) { forall l <- ls :: l != "" && LF !in l }

  /** A message of non-empty lines has its first blank line at its very end. */
  lemma MessageEnds(ls: seq<string>)
    requires ls != [] && Solid(ls)
    ensures TrimBlank(Message(ls)) == Message(ls)
    ensures |Message(ls)| >= 2 && BlankAt(Message(ls)) == |Message(ls)| - 2
  {
    var u, t := Terminated(ls), Message(ls);
    TerminatedHasNoBlank(ls);
    assert t[0] == u[0];
    forall j | 0 <= j < |u| - 1 ensures !BlankLineAt(t, j) {
      assert !BlankLineAt(u, j);
    }
    assert BlankLineAt(t, |u| - 1);
    BlankAtUnique(t, |u| - 1);
  }

  lemma MessageLines(ls: seq<string>)
    requires ls != [] && forall l <- ls :: LF !in l
    ensures Lines(Message(ls)) == ls + ["", ""]
    ensures |Message(ls)| >= 2 && Lines(Message(ls)[..|Message(ls)| - 2]) == ls
  {
    var u := Terminated(ls);
    var text := u[..|u| - 1];
    assert u == text + [LF] && Message(ls)[..|u| - 1] == text;
    LinesOfTerminated(ls);
    LinesAppendLF(u);
    LinesAppendLF(text);
    assert (Lines(text) + [""])[..|ls|] == ls;
    assert ls + [""] + [""] == ls + ["", ""];
  }
}
