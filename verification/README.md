# swf2pdf command-line driver, modelled in Dafny

swf2pdf turns Flash (SWF) files into the pages of a single PDF document, one
page per input file. All of the SWF loading and drawing is done by swfdec and
cairo. The program's own logic is its `main` driver, and that is what this
project models:

- the argument loop, which fills the global `output_file` (default
  `output.pdf`) and the growing `input_files` array counted by
  `num_input_files`;
- `usage()`, an exit with `EXIT_FAILURE` that happens before any PDF
  surface is created;
- the choice of input source. When files were collected, `from_args` hands
  each one to `render_page` in order. Otherwise `from_stdin` reads standard
  input line by line with `getline`, cuts off the last byte of each line
  and hands the result to `render_page`. In the model one `char` stands for
  one byte.

Files:

- `args.dfy` (module `Args`): the argument loop as the function `Scan`/`Parse`.
  It also gives an independent reading of the arguments, `Roles`, which says
  what each position is: output option, output value, help option, input file,
  or dangling output option. The lemmas tie the loop to that reading and state
  the loop's properties: order is kept, the last `-o` wins, the `-o` value is
  taken verbatim, and help or a dangling `-o` gives a usage exit.
- `lines.dfy` (module `Lines`): how `getline` cuts a stream into lines, and
  the names `from_stdin` derives from them. Proved: the lines concatenate back
  to the stream, and newline-terminated names read back exactly. A final line
  without a newline loses its last byte.
- `swf2pdf.dfy` (module `Swf2pdf`): the imperative model.
  - Class `Globals` holds the three process globals. `ParseArgs` is the C loop,
    with `i` advanced inside the body for `-o`. `AddInputFile` is the `realloc`
    growth by one entry. `FromArgs` is `from_args`.
  - `InputStream.GetLine` stands for `getline`, and `FromStdin` for
    `from_stdin`.
  - `Surface.RenderPage` stands for `render_page`. It records the file name it
    is given.
  - `RunProgram` is `main`. It is proved to produce `Behaviour(argv, stdin)`:
    the exit status, the output path of the surface, and the names rendered,
    in order.

The options the code accepts, as modelled:

- `-o/--output` and `-h/--help` are the only options; there are no flags for an error mode, for verbosity or for reading stdin;
- `-h` and a missing `-o` value both print the usage line and exit with `EXIT_FAILURE`;
- stdin is read exactly when no input file was collected.

## Model

| member | source | states |
|---|---|---|
| Args.Scan | swf2pdf.c:60-77 | a scan that does not exit only appends to the files it started with, at most one file per argument |
| Args.Parse | swf2pdf.c:58-77 | the parse from the initial globals collects at most as many files as there are arguments |
| Args.RolesMeaning | swf2pdf.c:60-76 | an argument read as an input file is never an option, help and output options are what they say, and an output option with no value can only be the last argument |
| Args.OptionValuePairs | swf2pdf.c:62-66 | an argument is an output value exactly when the argument before it is an output option that consumed it |
| Args.ScanByRoles | swf2pdf.c:60-77 | the loop exits exactly when a help option or a dangling `-o` occurs; otherwise the output is the last `-o` value, and the files are the input-file arguments in argument order, after those already held |
| Args.ScanConcat | swf2pdf.c:60-77 | once a prefix is scanned without exiting, the rest is scanned from the globals the prefix left |
| Args.ScanPlain | swf2pdf.c:72-76 | arguments that are not options are all appended, in order, and the output path is unchanged |
| Args.ScanKeepsOutput | swf2pdf.c:62-66 | a scan that meets no output option keeps the output path it started with |
| Args.ScanFilesAreNotOptions | swf2pdf.c:62-76 | no option token is ever stored among the files |
| Args.PlainArgumentsAreFiles | swf2pdf.c:72-76 | plain arguments become the file list exactly, with output `output.pdf` |
| Args.HelpExits | swf2pdf.c:70-71 | a help option reached by the scan gives a usage exit, whatever follows it |
| Args.DanglingOutputExits | swf2pdf.c:63-65 | `-o`/`--output` as the last argument reached gives a usage exit |
| Args.OutputValueVerbatim | swf2pdf.c:62-66 | the argument after `-o` becomes the output path verbatim, even when it looks like an option, and the files are unchanged |
| Args.LastOutputWins | swf2pdf.c:62-66 | when several `-o` options appear, the last one sets the output path |
| Args.OutputDefault | swf2pdf.c:11 | without any output option the output path is `output.pdf` |
| Args.FilesAreNotOptions | swf2pdf.c:62-76 | the collected files never include `-o`, `--output`, `-h` or `--help` |
| Args.UsageCause | swf2pdf.c:60-71 | every usage exit is caused by a help option, or by an output option with nothing after it, reached by a scan that had not exited before it |
| Lines.LineLength | swf2pdf.c:46 | a `getline` line ends at the first newline, which it includes, or at the end of the stream; it is never empty |
| Lines.GetLines | swf2pdf.c:46 | every line `getline` returns is non-empty, with no newline before its last character, and every line but the last ends in a newline |
| Lines.Chop | swf2pdf.c:47 | `line[read - 1] = 0` leaves the line minus exactly its last element, newline or not |
| Lines.StdinNames | swf2pdf.c:46-48 | one name per line read; with `NamesRoundTrip` and `UnterminatedLastLine` this fixes the names for every stream |
| Lines.StdinNamesHaveNoNewline | swf2pdf.c:46-48 | no name handed to `render_page` from stdin contains a newline |
| Lines.LinesConcat | swf2pdf.c:46 | the lines concatenate back to the whole stream |
| Lines.NamesRoundTrip | swf2pdf.c:46-49 | names written one per line, each ending in a newline, are handed on exactly |
| Lines.UnterminatedLastLine | swf2pdf.c:47 | a last line without a newline loses its own last byte (one model `char`) |
| Swf2pdf.Surface.RenderPage | swf2pdf.c:15-34 | a `render_page` call is recorded with its file name, after the earlier ones |
| Swf2pdf.InputStream.GetLine | swf2pdf.c:46 | `getline` returns the next line and its length, or -1 at end of file |
| Swf2pdf.FromStdin | swf2pdf.c:42-51 | each stdin line, with its last character cut off, is rendered once, in the order read, until end of file |
| Swf2pdf.Globals.constructor | swf2pdf.c:11-13 | the globals start as `output.pdf` with no input files |
| Swf2pdf.Globals.AddInputFile | swf2pdf.c:73-75 | the count grows by one, the old entries are kept, and the argument becomes the last entry; count and array length stay equal |
| Swf2pdf.Globals.ParseArgs | swf2pdf.c:59-77 | the loop over `argv[1..]` returns at a usage exit exactly when `Scan` does; otherwise it leaves `Scan`'s configuration in the globals |
| Swf2pdf.Globals.FromArgs | swf2pdf.c:36-40 | every collected file is rendered once, in order |
| Swf2pdf.RenderTrace | swf2pdf.c:80-84 | with files collected, exactly those files, whatever stdin holds; with none, one name per stdin line |
| Swf2pdf.Behaviour | swf2pdf.c:58-88 | the run succeeds exactly when parsing does not end in a usage exit; it fails exactly when no surface is created, and then nothing is rendered |
| Swf2pdf.RunProgram | swf2pdf.c:58-88 | the run produces `Behaviour`: a usage exit with failure status and no surface, or success with a surface at the output path and the rendered names |
| Swf2pdf.HelpRendersNothing | swf2pdf.c:70-71 | help reached in the scan ends the run with failure status, no surface, nothing rendered |
| Swf2pdf.DanglingOutputRendersNothing | swf2pdf.c:63-65 | a final `-o` ends the run with failure status, no surface, nothing rendered |
| Swf2pdf.FailureHasCause | swf2pdf.c:60-71 | a failed run has a help option or a dangling `-o` reached by the scan |
| Swf2pdf.ExplicitFilesInOrder | swf2pdf.c:80-81 | with input files named, exactly the input-file arguments are rendered, once each, in argument order, whatever stdin holds |
| Swf2pdf.PlainArgumentsRendered | swf2pdf.c:72-81 | plain file arguments are rendered as given, into `output.pdf` |
| Swf2pdf.StdinModeRendersEachLine | swf2pdf.c:82-84 | a run whose arguments collect no input file renders names written one per line on stdin exactly, in order, into the configured output path |

## Left out

- `render_page` internals (swf2pdf.c:15-34) are not modelled: `realpath`, the `file://` URL in a `PATH_MAX + 7` buffer, the early return when the URL is NULL, swfdec loading and rendering, and cairo page sizing. These are calls into the operating system and foreign libraries. `Surface.RenderPage` only records the file name it is handed.
- Creating and destroying the cairo surface and context (swf2pdf.c:78-79, 85-86) are not modelled. The surface is reduced to its output path and its record of `render_page` calls.
- The `printf` in `usage()` is left out. `usage()` is modelled only as an exit with failure status.
- The global `skip` (swf2pdf.c:10) is never read, and the `-s/--skip` branch (swf2pdf.c:67-69) is commented out, so neither is modelled.
- `getline`'s buffer allocation, the final `free`, and read errors (which `getline` also reports as -1) are not modelled. Stdin is a finite string that is read to its end.
- A failed `realloc` (NULL) is not modelled. `AddInputFile` allocates a fresh array one entry longer and copies the old entries.
- Arguments and lines are modelled as strings without NUL characters. `line[read - 1] = 0` is modelled as dropping the last character. A line with a NUL byte earlier on, which C would cut shorter, is not modelled.
- Lines.Chop: one `char` of the model stands for one byte of the C line, so `line[read - 1] = 0` removes one `char`. A stream whose last line has no newline and ends in a multi-byte UTF-8 character, which C cuts in the middle, is not modelled. Newline splitting is not affected, because the newline byte never occurs inside a multi-byte character.
- Lines.UnterminatedLastLine: states the lost last byte for streams of single-byte characters only, for the same reason as `Lines.Chop`.
- Swf2pdf.Globals.AddInputFile: `num_input_files` is an unbounded `nat`. The overflow of the C `int` past `INT_MAX` arguments is not modelled.
