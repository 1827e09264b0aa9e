/** The swf2pdf driver: `main`'s argument loop over the process-global
    configuration, the choice between explicit files and standard input, and
    the order in which file names reach the page renderer. Rendering itself is
    an opaque sink that records the names it is given. */
module Swf2pdf {
  import opened Args
  import opened Lines

  datatype Option<T> = None | Some(value: T)

  /** `EXIT_SUCCESS` (main's `return 0`) or `EXIT_FAILURE` (from `usage()`). */
  datatype ExitStatus = ExitSuccess | ExitFailure

  /** What one run of the program does: its exit status, the path of the PDF
      surface it creates (none when it exits before creating one), and the
      file names passed to `render_page`, in call order. */
  datatype Effect = Effect(status: ExitStatus, outputPath: Option<string>, rendered: seq<string>)

  /** The names `render_page` receives once the configuration is built:
      the collected files when there are any, otherwise one per stdin line. */
  function RenderTrace(c: Config, stdin: string): (r: seq<string>)
    ensures |c.files| > 0 ==> r == c.files
    ensures c.files == [] ==> |r| == |GetLines(stdin)|
  {
    if |c.files| > 0 then c.files else StdinNames(stdin)
  }

  /** The whole program, given its argument vector and the contents of stdin. */
  function Behaviour(argv: seq<string>, stdin: string): (r: Effect)
    ensures r.status == ExitSuccess <==> Parse(ProgramArgs(argv)).Parsed?
    ensures r.status == ExitFailure <==> r.outputPath == None
    ensures r.status == ExitFailure ==> r.rendered == []
  {
    match Parse(ProgramArgs(argv))
    case UsageExit => Effect(ExitFailure, None, [])
    case Parsed(c) => Effect(ExitSuccess, Some(c.output), RenderTrace(c, stdin))
  }

  /** The PDF surface, seen only through the `render_page` calls made on it. */
  class Surface {
    const path: string
    var rendered: seq<string>

    constructor (path: string)
      ensures this.path == path && rendered == []
    {
      this.path := path;
      rendered := [];
    }

    /** `render_page`: loading and drawing are outside the model; the call
        and its file name are recorded. */
    method RenderPage(filename: string)
      modifies this
      ensures rendered == old(rendered) + [filename]
    {
      rendered := rendered + [filename];
    }
  }

  /** Standard input: its whole contents and how far `getline` has read. */
  class InputStream {
    const data: string
    var pos: nat

    ghost predicate Valid()
      reads this
    {
      pos <= |data|
    }

    /** What is still to be read. */
    function Remaining(): string
      reads this
      requires Valid()
    {
      data[pos..]
    }

    constructor (data: string)
      ensures Valid() && this.data == data && Remaining() == data
    {
      this.data := data;
      pos := 0;
    }

    /** `getline`: the next line with its newline, if it has one, and its
        length; -1 at end of file. */
    method GetLine() returns (read: int, line: string)
      requires Valid()
      modifies this
      ensures Valid()
      ensures old(Remaining()) == [] ==> read == -1 && Remaining() == []
      ensures old(Remaining()) != [] ==>
                var n := LineLength(old(Remaining()));
                read == n == |line| && line == old(Remaining())[..n] && Remaining() == old(Remaining())[n..]
    {
      if pos == |data| {
        read, line := -1, [];
      } else {
        var n := LineLength(data[pos..]);
        line := data[pos..pos + n];
        read := n;
        pos := pos + n;
      }
    }
  }

  /** `from_stdin`: every line read, with its last character cut off, goes to
      `render_page`, in the order read, until end of file. */
  method FromStdin(input: InputStream, surface: Surface)
    requires input.Valid()
    modifies input, surface
    ensures input.Valid() && input.Remaining() == []
    ensures surface.rendered == old(surface.rendered) + StdinNames(old(input.Remaining()))
  {
    while true
      invariant input.Valid()
      invariant surface.rendered + StdinNames(input.Remaining())
             == old(surface.rendered) + StdinNames(old(input.Remaining()))
      decreases |input.Remaining()|
    {
      ghost var before, done := input.Remaining(), surface.rendered;
      var read, line := input.GetLine();
      if read == -1 {
        assert StdinNames([]) == [];
        break;
      }
      ReadOneLine(done, before, line, input.Remaining());
      line := line[..read - 1];
      surface.RenderPage(line);
    }
  }

  /** The step `from_stdin` takes per line: the line read, without its last
      character, is the first name, and the rest of the stream gives the names
      after it. */
  lemma ReadOneLine(done: seq<string>, before: string, line: string, rest: string)
    requires before != []
    requires line == before[..LineLength(before)] && rest == before[LineLength(before)..]
    ensures line != []
    ensures done + [line[..|line| - 1]] + StdinNames(rest) == done + StdinNames(before)
  {
    StdinNamesCons(before);
  }

  /** The process globals `output_file`, `input_files` and `num_input_files`. */
  class Globals {
    var outputFile: string
    var inputFiles: array<string>
    var numInputFiles: nat

    /** `num_input_files` is the number of entries of `input_files`. */
    ghost predicate Valid()
      reads this
    {
      inputFiles.Length == numInputFiles
    }

    /** The configuration the globals hold. */
    function Current(): Config
      reads this, inputFiles
      requires Valid()
    {
      Config(outputFile, inputFiles[..numInputFiles])
    }

    /** The globals at program start: `output.pdf`, no input files. */
    constructor ()
      ensures Valid() && Current() == Initial
    {
      outputFile := DefaultOutput;
      inputFiles := new string[0];
      numInputFiles := 0;
    }

    /** Counts one more file, grows `input_files` by one entry, keeping the
        entries it had, and stores `arg` in the new last entry. */
    method AddInputFile(arg: string)
      requires Valid()
      modifies this
      ensures Valid() && fresh(inputFiles)
      ensures Current() == old(Current()).(files := old(Current()).files + [arg])
    {
      numInputFiles := numInputFiles + 1;
      var grown := new string[numInputFiles];
      forall k | 0 <= k < numInputFiles - 1 {
        grown[k] := inputFiles[k];
      }
      inputFiles := grown;
      inputFiles[numInputFiles - 1] := arg;
    }

    /** `main`'s argument loop: returns true where `usage()` would end the
        process, and otherwise leaves in the globals what `Scan` computes. */
    method ParseArgs(argv: seq<string>) returns (usage: bool)
      requires Valid()
      modifies this
      ensures Valid()
      ensures Scan(ProgramArgs(argv), old(Current())) == if usage then UsageExit else Parsed(Current())
    {
      var i := 1;
      while i < |argv|
        invariant 1 <= i && Valid()
        invariant Scan(ProgramArgs(argv), old(Current())) == Scan(Suffix(argv, i), Current())
      {
        ScanAt(argv, i, Current());
        var arg := argv[i];
        if arg == "-o" || arg == "--output" {
          i := i + 1;
          if i >= |argv| {
            return true;
          }
          outputFile := argv[i];
        } else if arg == "-h" || arg == "--help" {
          return true;
        } else {
          AddInputFile(arg);
        }
        i := i + 1;
      }
      return false;
    }

    /** `from_args`: every collected file goes to `render_page`, in order. */
    method FromArgs(surface: Surface)
      requires Valid()
      modifies surface
      ensures surface.rendered == old(surface.rendered) + Current().files
    {
      var file := 0;
      while file < numInputFiles
        invariant 0 <= file <= numInputFiles
        invariant surface.rendered == old(surface.rendered) + inputFiles[..file]
      {
        surface.RenderPage(inputFiles[file]);
        file := file + 1;
      }
    }
  }

  /** `main`: parse the arguments into the globals, create the PDF surface at
      the output path, and render either the collected files or the stdin lines. */
  method RunProgram(argv: seq<string>, stdin: string) returns (e: Effect)
    ensures e == Behaviour(argv, stdin)
  {
    var globals := new Globals();
    var usage := globals.ParseArgs(argv);
    if usage {
      return Effect(ExitFailure, None, []);
    }
    var surface := new Surface(globals.outputFile);
    if globals.numInputFiles > 0 {
      globals.FromArgs(surface);
    } else {
      var input := new InputStream(stdin);
      FromStdin(input, surface);
    }
    return Effect(ExitSuccess, Some(surface.path), surface.rendered);
  }

  // ---------------------------------------------------------------------------
  // Lemmas about whole runs

  /** A help option reached by the scan ends the run with a failure status
      before any surface is created: nothing is rendered. */
  lemma HelpRendersNothing(argv: seq<string>, stdin: string, pre: seq<string>, h: string, post: seq<string>)
    requires ProgramArgs(argv) == pre + [h] + post
    requires Parse(pre).Parsed? && IsHelpOption(h)
    ensures Behaviour(argv, stdin) == Effect(ExitFailure, None, [])
  {
    HelpExits(pre, h, post);
  }

  /** An output option as the last argument reached ends the run with a
      failure status before any surface is created. */
  lemma DanglingOutputRendersNothing(argv: seq<string>, stdin: string, pre: seq<string>, o: string)
    requires ProgramArgs(argv) == pre + [o]
    requires Parse(pre).Parsed? && IsOutputOption(o)
    ensures Behaviour(argv, stdin) == Effect(ExitFailure, None, [])
  {
    DanglingOutputExits(pre, o);
  }

  /** A failed run always has a cause among the arguments: a help option, or
      an output option with nothing after it, reached by the scan. */
  lemma FailureHasCause(argv: seq<string>, stdin: string) returns (k: nat)
    requires Behaviour(argv, stdin).status == ExitFailure
    ensures var args := ProgramArgs(argv);
      k < |args| && Parse(args[..k]).Parsed? &&
      (IsHelpOption(args[k]) || (IsOutputOption(args[k]) && k == |args| - 1))
  {
    k := UsageCause(ProgramArgs(argv), Initial);
  }

  /** When arguments name input files, `render_page` gets exactly those
      arguments whose role is an input file, once each, in argument order,
      whatever stdin holds; the surface is at the last output value given. */
  lemma ExplicitFilesInOrder(argv: seq<string>, stdin: string)
    requires var args := ProgramArgs(argv);
      !Refused(Roles(args)) && Selected(args, Roles(args)) != []
    ensures var args := ProgramArgs(argv);
      Behaviour(argv, stdin)
        == Effect(ExitSuccess, Some(LastValue(args, Roles(args), DefaultOutput)), Selected(args, Roles(args)))
  {
    ScanByRoles(ProgramArgs(argv), Initial);
  }

  /** Arguments that are all plain file names are rendered as given, into `output.pdf`. */
  lemma PlainArgumentsRendered(argv: seq<string>, stdin: string)
    requires ProgramArgs(argv) != []
    requires forall k :: 0 <= k < |ProgramArgs(argv)| ==> !IsOption(ProgramArgs(argv)[k])
    ensures Behaviour(argv, stdin) == Effect(ExitSuccess, Some(DefaultOutput), ProgramArgs(argv))
  {
    PlainArgumentsAreFiles(ProgramArgs(argv));
  }

  /** With no input files collected, stdin supplies the names: names written
      one per line, each ending in a newline, reach `render_page` exactly, in
      order, and the surface is at the configured output path. */
  lemma StdinModeRendersEachLine(argv: seq<string>, c: Config, names: seq<string>)
    requires Parse(ProgramArgs(argv)) == Parsed(c) && c.files == []
    requires forall k :: 0 <= k < |names| ==> '\n' !in names[k]
    ensures Behaviour(argv, JoinLines(names)) == Effect(ExitSuccess, Some(c.output), names)
  {
    NamesRoundTrip(names);
  }
}
