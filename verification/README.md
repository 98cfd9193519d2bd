# Xilinx programming web server: a verified model of its core

The web server lets a browser do three things:

- program Xilinx FPGAs with a bitstream ("Program FPGA");
- program their configuration flash ("Program Flash Memory");
- list the targets and devices behind a hardware server ("List Hardware").

Each operation writes a TCL script and starts Vivado on it. It streams the tool's output to the browser and writes every output line to a log file. Runs of one kind go through a job queue that a single worker thread serves.

This project models, in Dafny, the logic around those side effects:

- **Listing line processor** (`TreeBuilder`, `ListingShape`). This is the state machine inside the listing stream. It builds a server → targets → devices tree from the tool's output and decides which lines are shown live. `ListingShape` describes what the listing script prints and proves the tree that comes out of it.
- **Three streams** (`ProgramFpga`, `ProgramFlash`, `ListHw`, with shared pieces in `LineSink`). Each run is a pure function. Its inputs are the results of the `readline()` calls on the tool's output, whether the Vivado settings script exists, and an optional raise at a named stage: writing the TCL file, opening the log, starting the tool, or after the k-th output line. A run returns the items yielded to the browser and the texts written to the log, in order.
- **Script parameters** (`TclBlocks`, `ProgramFpga.ParameterBlocks`, `ProgramFlash`). These are:
  - the per-target `hw_targets`, `bitfiles` and `ltxfiles` lists;
  - the flash script's `PROGRAM.*` property lines and the 0/1 conversion of its switches.

  Each is read back line by line: one line per target, in target order.
- **Result-channel protocol** (`Channel`), taken sequentially:
  - The worker pushes a job's items, then a report if the stream raised, then one `None`.
  - The submitter yields everything up to the first `None`.
  - A worker serving a queue in order gives each submitter exactly its own job's output.
- **Web application helpers** (`App`):
  - the configuration loader;
  - the server lookup;
  - the projection sent to the page;
  - the jobs that the two upload forms become.

Python's string operations are modelled exactly where the logic depends on them, in `PyStr`:
- `strip`, `lstrip` and `strip(chars)`;
- `startswith`;
- `split` and `rsplit(".", 1)`;
- ASCII `lower`;
- `iter(readline, '')`;
- truthiness;
- `int(bool)`;
- `os.path.join`.

## Behaviour worth noting

These follow from the code and are what the model states:

- **Log contents.** Not every line a stream yields is logged:
  - The FPGA stream does not log its two header lines. It does log the settings error and the finish banner, because they go through `write_and_yield`.
  - The flash stream logs none of the following: its headers, its settings error, its finish banner.
  - The listing stream logs neither its settings error nor its finish banner.
  - All three streams log the exception text.
- **Exit code.** Each stream waits for the tool but never logs or shows its exit code.
- **Missing settings script.** The error line is not the only output: in the two programming streams it comes after the two header lines, and in the listing stream after the log-file header.
- **Unknown section header.** A `Devices at target T:` line naming an unknown target adds no entry. It only clears the current target, so the device lines that follow are dropped (`ListingShape.OrphanSectionDropped`).
- **Repeated target names.** When the tool lists two targets with the same name, every `Devices at target` section for that name fills the first entry with it, and the later entries stay empty (`TreeBuilder.FirstNamed`, `TreeBuilder.ApplyHeader`). `ListingShape.ListingBuildsTree` therefore assumes distinct names.
- **Event shape.** The flash and listing streams yield `{"type": ...}` dicts; the FPGA stream yields bare strings.
- **Log sink.** A failing log write inside the read loop ends up in the stream's own `except` handler, which is modelled as a raise while reading.

## Model

| member | source | states |
|---|---|---|
| TreeBuilder.Initial | webserver/tabs/xilinx_tests.py:43-44 | A listing starts with the requested server, no targets and no current target. |
| TreeBuilder.FirstNamed | webserver/tabs/xilinx_tests.py:69-74 | The `for ... break / else` search finds the first entry with the name: no earlier entry has it. It finds nothing exactly when no entry has it. |
| TreeBuilder.Classify | webserver/tabs/xilinx_tests.py:57-77 | The prefix tests are tried in source order (`#PROP`, `Target:`, `Devices at target`, `Device:`). The first match decides the kind, and the name is the text the source's split-and-strip cuts out. |
| TreeBuilder.Apply | webserver/tabs/xilinx_tests.py:61-77 | No line ever moves the current target outside the target list or changes the server. |
| TreeBuilder.ApplyTarget | webserver/tabs/xilinx_tests.py:62-65 | A `Target:` line appends one new entry with no devices, after all existing ones (duplicates are not merged), and makes it current. |
| TreeBuilder.ApplyHeader | webserver/tabs/xilinx_tests.py:66-74 | A `Devices at target T:` line leaves the tree alone. It makes the first entry named T current, or clears the current target when no entry has that name. |
| TreeBuilder.ApplyDevice | webserver/tabs/xilinx_tests.py:75-77 | A `Device:` line under a current target appends the name to that entry's devices only. Every other entry, the entry count and the cursor are unchanged. |
| TreeBuilder.ApplyInert | webserver/tabs/xilinx_tests.py:58-59 | `#PROP` lines, other lines, and device lines with no current target leave the tree and the cursor unchanged. |
| TreeBuilder.WriteAndYield | webserver/tabs/xilinx_tests.py:48-82 | One call does two things. The state moves exactly as the classified line says (a `#PROP` line leaves it alone). The line is returned unchanged exactly when its stripped text does not start with `#`. |
| TreeBuilder.FeedKeepsValid | webserver/tabs/xilinx_tests.py:135-136 | However many lines are processed, the current target is always an existing entry. |
| TreeBuilder.NextShows | webserver/tabs/xilinx_tests.py:136-138 | One loop turn yields a line, unchanged, exactly when it is shown, and yields nothing otherwise. |
| TreeBuilder.FeedShowsFiltered | webserver/tabs/xilinx_tests.py:135-138 | The read loop forwards exactly the lines whose stripped text does not start with `#`, unchanged and in their original order. |
| TreeBuilder.FeedAppend | webserver/tabs/xilinx_tests.py:135-138 | Processing output in two stretches gives the same final state and the same shown lines as processing it at once. |
| TreeBuilder.FeedBuilds | webserver/tabs/xilinx_tests.py:135-136 | The final tree and cursor depend on the lines only through how each one is classified. |
| TreeBuilder.BuildSkipsInert | webserver/tabs/xilinx_tests.py:57-77 | Only target, header and device lines affect the tree; all others can be dropped wherever they occur. |
| TreeBuilder.NoiseKeepsState | webserver/tabs/xilinx_tests.py:57-77 | The following can be removed from the tool's output without changing the final tree or cursor: banners, echoed commands, `#PROP` dumps, and any other non-structural line. |
| ListingShape.ClassifyTargetLine | webserver/tabs/xilinx_tests.py:62-63 | A printed `Target: n` line (newline included) is read as announcing exactly `n`. |
| ListingShape.ClassifyHeaderLine | webserver/tabs/xilinx_tests.py:66-67 | A printed `Devices at target n:` line is read as the header of exactly `n`, after the split on the marker and both strips. |
| ListingShape.ClassifyDeviceLine | webserver/tabs/xilinx_tests.py:75-76 | A printed `Device: d` line is read as announcing exactly `d`, and not as a section header, although both start with `Device`. |
| ListingShape.ClassifyPropLine | webserver/tabs/xilinx_tests.py:58-59 | Every `#PROP d: p` line the script prints is a property line, whatever `d` and `p` are. |
| ListingShape.ScriptKinds | webserver/tabs/xilinx_tests.py:96-109 | Every line the listing script prints is classified as the kind of line it was printed as. |
| ListingShape.DeviceKindsFill | webserver/tabs/xilinx_tests.py:102-109 | A run of device lines, each followed by its property lines, extends the current entry's devices by exactly those names, in order. |
| ListingShape.AnnouncementKindsAppend | webserver/tabs/xilinx_tests.py:97 | The announcement block appends one empty entry per target, in announcement order. |
| ListingShape.FillSection | webserver/tabs/xilinx_tests.py:99-111 | A target's section finds that target's own entry, because no earlier target shares its name, and fills it with its devices. |
| ListingShape.SectionKindsFill | webserver/tabs/xilinx_tests.py:99-111 | The sections, in order, fill every announced entry with its own devices. |
| ListingShape.ListingBuildsTree | webserver/tabs/xilinx_tests.py:90-114 | From the listing script's output, the tree has one entry per target, in announcement order, each holding that target's devices in printed order. |
| ListingShape.ListingTreeDespiteNoise | webserver/tabs/xilinx_tests.py:90-114 | The same tree results from any real output whose structural lines are the script's, whatever other lines the tool interleaves. |
| ListingShape.CursorlessDevicesInert | webserver/tabs/xilinx_tests.py:75-77 | With no current target, any number of device lines change nothing. |
| ListingShape.OrphanSectionDropped | webserver/tabs/xilinx_tests.py:66-77 | A section naming an unknown target adds no entry. Its devices are dropped, and the only change is that no target is current. |
| ListingShape.FreshSection | webserver/tabs/xilinx_tests.py:62-77 | Consider a new target announced and then listed at once. It gets a new last entry with exactly its devices, and stays current. |
| ListingShape.InterleavedListing | webserver/tabs/xilinx_tests.py:62-77 | Output that announces each target just before its own section builds the same tree as the script's announce-all-first order. |
| LineSink.ReadLines | webserver/tabs/xilinx_tests.py:135 | `iter(readline, '')` gives the non-empty results of `readline()`, in order, up to the first empty one (end of output). |
| LineSink.VisibleIffShown | webserver/tabs/xilinx_tests.py:80 | For a leading `#`, the listing stream's `strip()` test (`PyStr.Strip`) and the programming streams' `lstrip()` test (`PyStr.LStrip`) always agree. |
| LineSink.Handled | webserver/tabs/program_xilinx_fpga.py:198-201 | The lines handled before the loop stops form a prefix of the output. It is the whole output unless a raise interrupts reading, and then it is exactly as long as the stage says. |
| LineSink.SettingsErrorVisible | webserver/tabs/program_xilinx_fpga.py:179 | The settings error passed through `write_and_yield` is never hidden. |
| LineSink.BannerVisible | webserver/tabs/program_xilinx_fpga.py:205 | Every banner, followed by anything, is shown: it opens with a line break and `=`. |
| ListHw.FedShowsVisible | webserver/tabs/xilinx_tests.py:135-138 | Across all lines handled, the listing loop forwards exactly the visible ones, in order. |
| ListHw.ToolOutputShows | webserver/tabs/xilinx_tests.py:135-149 | After the tool starts, the items are the visible handled lines, then either the exception text, or the finish banner followed by the tree. |
| ListHw.ToolRun | webserver/tabs/xilinx_tests.py:135-149 | `StreamListHw`: once the tool starts, a listing shows the header, the visible handled lines in order, and then the exception text, or the banner and the tree built from every handled line. It logs every handled line (including `#PROP` lines) and the exception text, but neither the header nor the banner. |
| ListHw.SettingsMissing | webserver/tabs/xilinx_tests.py:84-87 | `StreamListHw`: without the settings script, a listing shows the header and one error item and logs nothing. This holds whatever the tool would print and whatever would raise. |
| ListHw.FaultBeforeTool | webserver/tabs/xilinx_tests.py:84-149 | `StreamListHw`: once the settings script is found, a raise while writing the TCL file or starting the tool shows the header and the exception text, logs that text once, and yields no tree. The tool's output plays no part. |
| ListHw.TreeComesLast | webserver/tabs/xilinx_tests.py:142-143 | Every run yields at least two items. A tree can only be the last item, and every earlier item is a log item. There is a tree exactly when the settings script exists and nothing raised. The tree then comes right after the finish banner and is built from every output line. |
| ListHw.ListingYieldsTree | webserver/tabs/xilinx_tests.py:135-143 | Suppose the tool's structural lines are the listing script's output for some targets. Then a clean run ends with the tree of exactly those targets and their devices. |
| ListHw.EnqueueDelivers | webserver/tabs/xilinx_tests.py:155-183 | `EnqueueHwList`: a listing request receives every item the stream yielded, up to a raise that escaped the stream. If there was such a raise, the worker's report follows, and nothing after that. |
| TclBlocks.LtxEntry | webserver/tabs/program_xilinx_fpga.py:60-63 | The probes entry is the quoted path exactly when a non-empty path was given and the file exists; otherwise it is `""`. |
| TclBlocks.SetBlockLines | webserver/tabs/program_xilinx_fpga.py:75-77 | Read back by lines, a `set name {...}` block is its opening line, its entries in order, `}` and a blank line, whatever follows it. |
| TclBlocks.HwTargetsLines | webserver/tabs/program_xilinx_fpga.py:56-58 | The `hw_targets` block has exactly one `{server/target device}` line per target, in target order. It is empty exactly when there are no targets. |
| TclBlocks.FileBlocksAligned | webserver/tabs/program_xilinx_fpga.py:59-63 | The `bitfiles` and `ltxfiles` blocks have exactly one line per target, so line `i` of each belongs to target `i`. Every bitfiles line is the quoted bitstream path, and every ltxfiles line is the probes entry. |
| ProgramFpga.AllowedFileIff | webserver/tabs/program_xilinx_fpga.py:31-32 | `AllowedFile` accepts a name exactly when its last four characters are `.` followed by `bit` or `bin` in any letter case. This is a search-free characterisation, proved against the `rsplit`/`lower` definition. |
| ProgramFpga.ParameterBlocksLines | webserver/tabs/program_xilinx_fpga.py:52-77 | `ParameterBlocks`: the script's three lists, read back by lines, are headed runs of equal length. They hold the target entries in order, then the bitstream path once per target, then the probes entry once per target, so line `i` of each list belongs to target `i`. |
| ProgramFpga.Echo | webserver/tabs/program_xilinx_fpga.py:173-176 | `write_and_yield` returns the text unchanged exactly when it is visible; otherwise it returns `None`. |
| ProgramFpga.RelayShowsVisible | webserver/tabs/program_xilinx_fpga.py:198-201 | The read loop yields exactly the visible lines, in order. |
| ProgramFpga.ToolOutputShows | webserver/tabs/program_xilinx_fpga.py:198-211 | After the tool starts, the yielded items are the visible handled lines and then the closing text, and none is `None`. The log is every handled line and then the same closing text. |
| ProgramFpga.FinishedVisible | webserver/tabs/program_xilinx_fpga.py:205 | The finish banner that goes through `write_and_yield` is visible. |
| ProgramFpga.NeverYieldsNone | webserver/tabs/program_xilinx_fpga.py:178-205 | No run yields `None`, so the worker never pushes a premature end marker. |
| ProgramFpga.StartedRun | webserver/tabs/program_xilinx_fpga.py:166-169 | Once the tool starts, the run is the two headers followed by the tool part. |
| ProgramFpga.ToolRun | webserver/tabs/program_xilinx_fpga.py:160-211 | `StreamVivado`: once the tool starts, a run shows the two headers, the visible handled lines in order, then the finish banner, or the exception text if reading or logging raised. The log holds every handled line in order, then the same closing text, but not the headers. |
| ProgramFpga.SettingsMissing | webserver/tabs/program_xilinx_fpga.py:178-180 | `StreamVivado`: without the settings script, the run shows the two headers and one error line, and logs that line. The tool's output plays no part. |
| ProgramFpga.FaultBeforeTool | webserver/tabs/program_xilinx_fpga.py:165-211 | `StreamVivado`: a raise while writing the TCL file, opening the log or starting the tool shows the exception text once, after the two headers unless the TCL file could not be written. The log holds exactly that text. The tool's output plays no part. |
| ProgramFpga.EnqueueDelivers | webserver/tabs/program_xilinx_fpga.py:218-239 | `EnqueueJob`: the response carries every string the stream yielded, up to a raise that escaped the stream. On such a raise, exactly one "Worker Exception" text follows, and then the response ends. |
| ProgramFlash.Bit | webserver/tabs/program_xilinx_fpga_flash.py:51-54 | `int(b)` is 0 or 1, and 1 exactly when `b` holds. |
| ProgramFlash.Flags | webserver/tabs/program_xilinx_fpga_flash.py:51-54 | Blank check and erase are 1 only when the job turns them on. Programming and verifying are 0 only when the job turns them off. |
| ProgramFlash.CfgmemSwitches | webserver/tabs/program_xilinx_fpga_flash.py:120-123 | The four switch properties appear in source order, each with the 0/1 value that the defaults above give. |
| ProgramFlash.CfgmemOneLine | webserver/tabs/program_xilinx_fpga_flash.py:120-128 | Every property line is a single line when the bitstream path has no line break. |
| ProgramFlash.CfgmemBlockCuts | webserver/tabs/program_xilinx_fpga_flash.py:120-128 | Read back by lines, the property block holds its seven property lines and nothing else. |
| ProgramFlash.CfgmemBlockLines | webserver/tabs/program_xilinx_fpga_flash.py:120-128 | `CfgmemBlock`: each switch is set on its own line to the value its flag gives. The lines then set a zero checksum and the file's address range, and embed the bitstream path, quoted, inside `[list ...]`. |
| ProgramFlash.FlashTargetsLines | webserver/tabs/program_xilinx_fpga_flash.py:50-68 | `FlashTargetsBlock`: the flash script's `hw_targets` list has one `{server/target device}` line per target, in order. It is empty when the job has no `targets` key. |
| ProgramFlash.RelayShowsVisible | webserver/tabs/program_xilinx_fpga_flash.py:205-208 | The read loop yields one log dict per visible line, in order. Empty or not, each line's dict is always truthy. |
| ProgramFlash.StartedRun | webserver/tabs/program_xilinx_fpga_flash.py:168-173 | Once the tool starts, a flash run is the two header dicts followed by the tool part. |
| ProgramFlash.ToolRunShows | webserver/tabs/program_xilinx_fpga_flash.py:162-222 | `StreamVivadoFlash`: once the tool starts, a flash run shows the two headers, the visible handled lines in order, then the finish banner, or the exception text. |
| ProgramFlash.ToolRunLogs | webserver/tabs/program_xilinx_fpga_flash.py:176-222 | `StreamVivadoFlash`: once the tool starts, the log holds every handled line in order and the exception text if there was one, but neither the headers nor the banner. |
| ProgramFlash.SettingsMissing | webserver/tabs/program_xilinx_fpga_flash.py:182-187 | `StreamVivadoFlash`: without the settings script, the run shows the two headers and one error item, writes nothing to its log, and never reads the tool's output. |
| ProgramFlash.FaultBeforeTool | webserver/tabs/program_xilinx_fpga_flash.py:167-222 | `StreamVivadoFlash`: a raise while writing the TCL file, opening the log or starting the tool shows one exception dict, after the two header dicts unless the TCL file could not be written. The log holds exactly the exception text. The tool's output plays no part. |
| ProgramFlash.LogHoldsToolLinesOnly | webserver/tabs/program_xilinx_fpga_flash.py:162-222 | Whatever happens, every log entry is a line the tool printed or the exception text. The headers, the settings error and the finish banner are never logged. |
| ProgramFlash.EnqueueDelivers | webserver/tabs/program_xilinx_fpga_flash.py:229-253 | `EnqueueJob`: the response carries every dict the stream yielded, up to a raise that escaped the stream. On such a raise, one "Worker Exception" dict follows, and then the response ends. |
| Channel.Pushed | webserver/tabs/program_xilinx_fpga.py:232-234 | The worker pushes a prefix of the stream's items: all of them unless the stream raised. |
| Channel.WorkerChannel | webserver/tabs/program_xilinx_fpga.py:229-239 | A job's result queue starts with the pushed items and always ends with exactly one `None`, which is its last entry. |
| Channel.Consume | webserver/tabs/program_xilinx_fpga.py:218-226 | The submitter yields the payloads read before the first `None`, and stops there. |
| Channel.ConsumeStopsAtSentinel | webserver/tabs/program_xilinx_fpga.py:222-226 | Nothing after the end marker is ever yielded. |
| Channel.ConsumeWorkerChannel | webserver/tabs/program_xilinx_fpga.py:218-239 | If a stream never yields `None`, its queue holds exactly one `None`, at the end. The submitter receives the stream's items, followed by the worker's report if the stream raised. |
| Channel.SegmentsOfFlatten | webserver/tabs/program_xilinx_fpga.py:229-239 | Cutting the worker's whole push history at its end markers gives each job's output back, in submission order; no job's items leak into another's. |
| Channel.Worker | webserver/tabs/program_xilinx_fpga.py:229-239 | The worker loop serves jobs strictly in queue order. Job k's queue gets exactly job k's channel, and the push history is those channels one after another. |
| Channel.RunJob | webserver/tabs/program_xilinx_fpga.py:231-238 | One iteration walks the stream's items in order and stops where the stream raised. It pushes each item, then the report on a raise, then exactly one `None` as the last entry. The pushed prefix is `Pushed(job)`, and no `None` comes before the end when the items carry none. |
| Channel.WorkerServesInOrder | webserver/tabs/program_xilinx_fpga.py:218-239 | End to end, for streams that never yield `None`: the k-th stretch of the worker's pushes is exactly what the k-th submitter receives, which is the k-th job's output. |
| App.LoadServerConfig | webserver/app.py:14-19 | Without a configuration file, both server lists are empty; otherwise the file's contents are used as they are. |
| App.FirstTargets | webserver/app.py:21-26 | `GetHwTargetsForServer` returns the `targets` of the first server whose address equals the argument exactly. It returns `[]` when that server has no `targets` key or no server matches. |
| App.Choices | webserver/app.py:39-44 | `Index` gives the page one entry per server, in configuration order, with that server's name and address. |
| App.NoConfig | webserver/app.py:15-16 | Without a configuration file, the page offers no server and every lookup finds no targets. |
| App.ChoiceResolves | webserver/app.py:23-25 | Picking a server's entry on the page (`Index`) resolves, through `GetHwTargetsForServer`, to that server's targets, unless an earlier server has the same address, in which case the first such server wins. |
| App.PathJoinPlaces | webserver/app.py:59 | `PathJoin`: a relative upload name lands inside the upload folder. The path starts with the folder, ends with the name, and has one separator between them. An absolute name replaces the folder. |
| App.UploadBitfile | webserver/app.py:55-76 | The model builds a job exactly when the bitstream part was sent with a non-empty name and the form has `hw_server`; otherwise the request fails and nothing is queued. The job names that server and the bitstream joined to the upload folder. The probes path is set exactly when a probes file with a non-empty name was sent. |
| App.BitfileJobTargets | webserver/app.py:67-68 | The FPGA job's targets are those the address book lists for the first server with the submitted address. |
| App.UploadBinfile | webserver/app.py:86-102 | The model builds a job exactly when the bitstream part was sent with a non-empty name. Its server is missing exactly when the form lacks `hw_server`. Each switch is present and records whether its checkbox was sent. |
| App.FormDecidesFlags | webserver/app.py:98-101 | For a submitted form, each switch the script receives is 1 exactly when its checkbox was sent. An unticked "program" or "verify" box turns that step off, whatever the script's defaults. |
| App.FlashWithoutServer | webserver/app.py:91-92 | Without a `hw_server` field, the flash job names server `None` and has no targets. |
| PyStr.Split | webserver/tabs/xilinx_tests.py:63 | `str.split` gives at least one piece, and more than one exactly when the separator occurs. |
| PyStr.SplitJoins | webserver/tabs/xilinx_tests.py:67 | The pieces of `s.split(sep)` join back to `s`, and none of them contains the separator. |
| PyStr.AfterLast | webserver/tabs/program_xilinx_fpga.py:32 | `rsplit(c, 1)[-1]` is the longest suffix without `c`. It is preceded by `c` whenever it is not the whole text. |

## Left out

- Spawning the tool (`bash -c`, `source`, `Popen`): the tool's output is an input, as the results of successive `readline()` calls.
- Filesystem effects are not modelled: `os.makedirs`, file writes, saving uploads, and `os.path.exists`. Existence is a boolean input, the log is an output sequence, and the generated TCL file is only a possible point of failure.
- Timestamps and the log and TCL file names built from them: both paths are inputs.
- Threads and `queue.Queue` blocking: the worker and its queues are modelled sequentially, as FIFO order plus end markers.
- `traceback.format_exc()` text and `str(e)`: opaque strings chosen by the environment.
- How Vivado runs the script. This includes the `string match "*${device_name}*"` device selection, which uses glob patterns.
- The constant parts of the TCL templates. Only the generated lists and property lines are modelled; the flash script's `PRM_FILE` and `UNUSED_PIN_TERMINATION` lines are constant text.
- Flask routing, form parsing and `Response` streaming, including how the flash stream's dicts are encoded in a `text/plain` response. Uploads are modelled as their file names.
- `webserver/static/scripts.js` (browser code) and the `proasic_servers` list beyond its projection onto the page.
- No route in `webserver/app.py` submits a listing job. `ListHw.EnqueueHwList` models `enqueue_hw_list` as written, but nothing in the application calls it.
- Configuration files whose entries lack `name` or `address`, or hold JSON values other than strings: the model's configuration entries always have string names and addresses.
- TclBlocks.LtxEntry: one `ltxExists` flag stands for the `os.path.exists` check that the script generator repeats for every target; the model does not let the file appear or vanish halfway through the loop.
- A raise while the `except` handler of a stream writes the exception text to the log: modelled as a raise that escapes the stream (`Escape`), which the worker reports.
- App.UploadBitfile: saving the bitstream before `request.form["hw_server"]` is read (so a rejected request still leaves the upload on disk) is a filesystem effect and is not modelled.
- ProgramFpga.ParameterBlocksLines: the line structure of the lists is their Tcl list structure only when the names and paths contain no whitespace, braces, quotes or backslashes. Upload names are not sanitised, and Tcl's list parsing is not modelled, so for other names the property is stated about lines, not about what `lindex` returns.
- ProgramFlash.FlashTargetsLines: the same holds for the flash script's `hw_targets` list; it is stated about lines, not about Tcl list elements.
- App.UploadBinfile: when the bitstream part is missing (`request.files[...]` raises) or has an empty name (the joined path is the upload folder itself, which `save` cannot overwrite), the model yields no job; the error response Flask sends in that case is not modelled. Other ways `save` can fail (a name such as `.`, `..` or `dir/`, a full disk, missing permissions) are filesystem effects and are not modelled either: the model still builds a job for them. The same holds for App.UploadBitfile.
