/** Standard input as `from_stdin` sees it: the stream is cut into lines the
    way `getline` returns them, and each line loses its last character before
    it is handed to the renderer. */
module Lines {

  /** A line as `getline` returns it: not empty, and no newline before its
      last character. */
  predicate IsLine(line: string)
  {
    line != [] && forall j :: 0 <= j < |line| - 1 ==> line[j] != '\n'
  }

  /** The length of the first line of a non-empty stream: up to and including
      the first newline, or the whole stream when it has none. */
  function LineLength(s: string): (n: nat)
    requires s != []
    ensures 0 < n <= |s|
    ensures forall k :: 0 <= k < n - 1 ==> s[k] != '\n'
    ensures n < |s| ==> s[n - 1] == '\n'
    decreases |s|
  {
    if s[0] == '\n' || |s| == 1 then 1 else 1 + LineLength(s[1..])
  }

  /** The successive results of `getline` on the stream `s`, up to end of file. */
  function GetLines(s: string): (r: seq<string>)
    ensures forall k :: 0 <= k < |r| ==> IsLine(r[k])
    ensures forall k :: 0 <= k < |r| - 1 ==> r[k] != [] && r[k][|r[k]| - 1] == '\n'
    decreases |s|
  {
    if s == [] then []
    else
      var n := LineLength(s);
      [s[..n]] + GetLines(s[n..])
  }

  function Concat(ls: seq<string>): string
  {
    if ls == [] then [] else ls[0] + Concat(ls[1..])
  }

  /** `line[read - 1] = 0`: the last character is cut off, newline or not. */
  function Chop(line: string): (r: string)
    requires line != []
    ensures |r| == |line| - 1 && r + [line[|line| - 1]] == line
  {
    line[..|line| - 1]
  }

  /** The names `from_stdin` hands to the renderer, one per line read. */
  function StdinNames(s: string): (r: seq<string>)
    ensures |r| == |GetLines(s)|
  {
    var ls := GetLines(s);
    seq(|ls|, k requires 0 <= k < |ls| => Chop(ls[k]))
  }

  /** Newline-terminated names, one per line. */
  function JoinLines(names: seq<string>): string
  {
    if names == [] then [] else names[0] + "\n" + JoinLines(names[1..])
  }

  // ---------------------------------------------------------------------------
  // Lemmas

  /** The lines are the stream cut into pieces: nothing is lost or added. */
  lemma {:induction false} LinesConcat(s: string)
    ensures Concat(GetLines(s)) == s
    decreases |s|
  {
    if s != [] {
      var n := LineLength(s);
      LinesConcat(s[n..]);
      assert GetLines(s)[1..] == GetLines(s[n..]);
      assert s[..n] + s[n..] == s;
    }
  }

  /** Reading one line: the first name, then the names of the rest of the stream. */
  lemma StdinNamesCons(s: string)
    requires s != []
    ensures StdinNames(s) == [Chop(s[..LineLength(s)])] + StdinNames(s[LineLength(s)..])
  {
    var ls := GetLines(s);
    assert ls == [s[..LineLength(s)]] + GetLines(s[LineLength(s)..]);
  }

  /** No name handed on contains a newline: each line has at most one, at its
      end, and that is the character cut off. */
  lemma StdinNamesHaveNoNewline(s: string, k: nat)
    requires k < |StdinNames(s)|
    ensures '\n' !in StdinNames(s)[k]
  {
    var line := GetLines(s)[k];
    assert IsLine(line);
    assert StdinNames(s)[k] == line[..|line| - 1];
  }

  /** A name without a newline, followed by a newline, is one whole line. */
  lemma {:induction false} TerminatedLineLength(name: string, rest: string)
    requires '\n' !in name
    ensures LineLength(name + "\n" + rest) == |name| + 1
    decreases |name|
  {
    if name != [] {
      assert (name + "\n" + rest)[1..] == name[1..] + "\n" + rest;
      TerminatedLineLength(name[1..], rest);
    }
  }

  /** A stream without a newline is one line. */
  lemma {:induction false} UnterminatedLineLength(last: string)
    requires last != [] && '\n' !in last
    ensures LineLength(last) == |last|
    decreases |last|
  {
    if |last| > 1 {
      UnterminatedLineLength(last[1..]);
    }
  }

  /** Reading a name written on a line of its own gives that name back. */
  lemma TerminatedNameStep(name: string, rest: string)
    requires '\n' !in name
    ensures StdinNames(name + "\n" + rest) == [name] + StdinNames(rest)
  {
    var s := name + "\n" + rest;
    TerminatedLineLength(name, rest);
    var n := |name| + 1;
    assert s[..n] == name + "\n";
    assert s[n..] == rest;
    StdinNamesCons(s);
  }

  /** Names written one per line, each followed by a newline, are read back
      exactly: cutting the last character removes just the newline. */
  lemma {:induction false} NamesRoundTrip(names: seq<string>)
    requires forall k :: 0 <= k < |names| ==> '\n' !in names[k]
    ensures StdinNames(JoinLines(names)) == names
    decreases |names|
  {
    if names != [] {
      TerminatedNameStep(names[0], JoinLines(names[1..]));
      NamesRoundTrip(names[1..]);
    }
  }

  /** A last line without a newline loses its own last character: the name
      handed on is one character short. */
  lemma {:induction false} UnterminatedLastLine(names: seq<string>, last: string)
    requires forall k :: 0 <= k < |names| ==> '\n' !in names[k]
    requires last != [] && '\n' !in last
    ensures StdinNames(JoinLines(names) + last) == names + [last[..|last| - 1]]
    decreases |names|
  {
    if names == [] {
      UnterminatedLineLength(last);
      assert JoinLines(names) + last == last;
      StdinNamesCons(last);
      assert last[..|last|] == last && last[|last|..] == [];
      assert StdinNames([]) == [];
      assert StdinNames(last) == [Chop(last)];
    } else {
      var rest := JoinLines(names[1..]) + last;
      assert JoinLines(names) + last == names[0] + "\n" + rest;
      TerminatedNameStep(names[0], rest);
      UnterminatedLastLine(names[1..], last);
      assert names == [names[0]] + names[1..];
    }
  }
}
