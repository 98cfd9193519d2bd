/**
  The web application's own logic around the queues: the server address
  book, the projection of it sent to the page, and the job a form submission
  becomes.
 */
module App {
  import opened Wrappers
  import opened PyStr
  import opened TclBlocks
  import ProgramFpga
  import ProgramFlash

  /** One server of the configuration file: a name, an address and an optional `targets` list. */
  datatype ServerEntry = ServerEntry(name: string, address: string, targets: Option<seq<TargetRef>>)

  /** The configuration file's contents: either server list may be absent. */
  datatype ServerConfig = ServerConfig(xilinx: Option<seq<ServerEntry>>, proasic: Option<seq<ServerEntry>>)

  /** `load_server_config()`: the file's contents, or two empty lists when there is no file. */
  function LoadServerConfig(file: Option<ServerConfig>): (c: ServerConfig)
    ensures file.None? ==> c.xilinx == Some([]) && c.proasic == Some([])
    ensures file.Some? ==> c == file.value
  {
    match file
    case None => ServerConfig(Some([]), Some([]))
    case Some(c) => c
  }

  /** `config.get("xilinx_hw_servers", [])` */
  function XilinxServers(file: Option<ServerConfig>): seq<ServerEntry> {
    LoadServerConfig(file).xilinx.GetOr([])
  }

  /** `config.get("proasic_servers", [])` */
  function ProasicServers(file: Option<ServerConfig>): seq<ServerEntry> {
    LoadServerConfig(file).proasic.GetOr([])
  }

  /**
    The `targets` of the first server whose address is `address` (a form
    field that may be missing), `[]` when that server has no `targets` key,
    and `[]` when no server has that address.
   */
  function FirstTargets(servers: seq<ServerEntry>, address: Option<string>): (r: seq<TargetRef>)
    ensures (forall k :: 0 <= k < |servers| ==> Some(servers[k].address) != address) ==> r == []
    ensures forall k ::
              0 <= k < |servers| && Some(servers[k].address) == address
              && (forall j :: 0 <= j < k ==> Some(servers[j].address) != address)
              ==> r == servers[k].targets.GetOr([])
    decreases |servers|
  {
    if servers == [] then []
    else if Some(servers[0].address) == address then servers[0].targets.GetOr([])
    else FirstTargets(servers[1..], address)
  }

  /** `get_hw_targets_for_server(server_address)` */
  function GetHwTargetsForServer(file: Option<ServerConfig>, address: Option<string>): seq<TargetRef> {
    FirstTargets(XilinxServers(file), address)
  }

  /** A dropdown entry of the page: a server's name and address only. */
  datatype Choice = Choice(name: string, address: string)

  function Choices(servers: seq<ServerEntry>): (r: seq<Choice>)
    ensures |r| == |servers|
    ensures forall k :: 0 <= k < |r| ==> r[k].name == servers[k].name && r[k].address == servers[k].address
  {
    seq(|servers|, k requires 0 <= k < |servers| => Choice(servers[k].name, servers[k].address))
  }

  /** `index()`: the two dropdown lists rendered into the page. */
  datatype Page = Page(xilinx: seq<Choice>, proasic: seq<Choice>)

  function Index(file: Option<ServerConfig>): Page {
    Page(Choices(XilinxServers(file)), Choices(ProasicServers(file)))
  }

  /** Without a configuration file the page offers no server and no server has targets. */
  lemma NoConfig(address: Option<string>)
    ensures Index(None) == Page([], [])
    ensures GetHwTargetsForServer(None, address) == []
  {
  }

  /**
    Picking the `k`-th Xilinx entry of the page submits an address that the
    lookup resolves to the `k`-th server's targets, unless an earlier server
    has the same address, in which case that earlier server wins.
   */
  lemma ChoiceResolves(file: Option<ServerConfig>, k: nat)
    requires k < |Index(file).xilinx|
    ensures var servers := XilinxServers(file);
      var picked := Index(file).xilinx[k].address;
      && ((forall j :: 0 <= j < k ==> servers[j].address != picked)
            ==> GetHwTargetsForServer(file, Some(picked)) == servers[k].targets.GetOr([]))
      && (forall j :: 0 <= j < k && servers[j].address == picked
            && (forall i :: 0 <= i < j ==> servers[i].address != picked)
            ==> GetHwTargetsForServer(file, Some(picked)) == servers[j].targets.GetOr([]))
  {
  }

  // ---------------------------------------------------------------------
  // Uploads and job construction
  // ---------------------------------------------------------------------

  /**
    `os.path.join(folder, name)`: a name that starts with `/` replaces the
    folder; otherwise the two are joined with one `/` unless the folder is
    empty or already ends with one.
   */
  function PathJoin(folder: string, name: string): string {
    if StartsWith(name, "/") then name
    else if folder == [] || folder[|folder| - 1] == '/' then folder + name
    else folder + "/" + name
  }

  /**
    A relative name lands inside the folder: the joined path starts with the
    folder, ends with the name, and puts exactly one separator between them
    when the folder has none at its end. An absolute name is taken as it is.
   */
  lemma PathJoinPlaces(folder: string, name: string)
    ensures StartsWith(name, "/") ==> PathJoin(folder, name) == name
    ensures !StartsWith(name, "/") ==>
      var p := PathJoin(folder, name);
      && |p| >= |folder| + |name|
      && p[..|folder|] == folder
      && p[|p| - |name|..] == name
      && (folder != [] && folder[|folder| - 1] != '/' ==> |p| == |folder| + 1 + |name| && p[|folder|] == '/')
      && (folder == [] || folder[|folder| - 1] == '/' ==> |p| == |folder| + |name|)
  {
    if !StartsWith(name, "/") {
      var p := PathJoin(folder, name);
      if folder != [] && folder[|folder| - 1] != '/' {
        assert p == folder + ("/" + name);
      }
    }
  }

  /**
    An uploaded file part that can be saved: the part was sent and has a
    non-empty file name. `request.files[...]` raises when the part is
    missing, and an empty name joins to the upload folder itself, which
    `save` cannot overwrite; Flask answers both with an error and no job is
    queued.
   */
  predicate Saved(name: Option<string>) {
    name.Some? && name.value != ""
  }

  /**
    `upload_bitfile()`: the FPGA job a form submission becomes. There is no
    job when the bitstream part is missing or unnamed, or when the form has
    no `hw_server` (`request.form[...]` raises). The probes file counts only
    when one was sent with a non-empty file name.
   */
  function UploadBitfile(form: map<string, string>, bitName: Option<string>, ltxName: Option<string>,
                         uploads: string, file: Option<ServerConfig>): (r: Option<ProgramFpga.FpgaJob>)
    ensures r.Some? <==> Saved(bitName) && "hw_server" in form
    ensures r.Some? ==> r.value.bitPath == PathJoin(uploads, bitName.value)
    ensures r.Some? ==> (r.value.ltxPath.Some? <==> Saved(ltxName))
    ensures r.Some? && Saved(ltxName) ==> r.value.ltxPath == Some(PathJoin(uploads, ltxName.value))
    ensures r.Some? ==> r.value.hwServer == form["hw_server"]
  {
    if !Saved(bitName) || "hw_server" !in form then None
    else
      var server := form["hw_server"];
      var ltxPath := if Saved(ltxName) then Some(PathJoin(uploads, ltxName.value)) else None;
      Some(ProgramFpga.FpgaJob(PathJoin(uploads, bitName.value), ltxPath, server, GetHwTargetsForServer(file, Some(server))))
  }

  /** The FPGA job targets what the address book lists for the chosen server. */
  lemma BitfileJobTargets(form: map<string, string>, bitName: Option<string>, ltxName: Option<string>,
                          uploads: string, file: Option<ServerConfig>, k: nat)
    requires Saved(bitName) && "hw_server" in form
    requires k < |XilinxServers(file)| && XilinxServers(file)[k].address == form["hw_server"]
    requires forall j :: 0 <= j < k ==> XilinxServers(file)[j].address != form["hw_server"]
    ensures UploadBitfile(form, bitName, ltxName, uploads, file).value.targets == XilinxServers(file)[k].targets.GetOr([])
  {
  }

  /**
    `upload_binfile()`: the flash job a form submission becomes. There is no
    job when the bitstream part is missing or unnamed. The server is read
    with `.get`, so a missing field gives `None`; each switch is on exactly
    when its checkbox was sent.
   */
  function UploadBinfile(form: map<string, string>, binName: Option<string>, uploads: string,
                         file: Option<ServerConfig>): (r: Option<ProgramFlash.FlashJob>)
    ensures r.Some? <==> Saved(binName)
    ensures r.Some? ==> r.value.binFile == PathJoin(uploads, binName.value)
    ensures r.Some? ==> (r.value.hwServer.Some? <==> "hw_server" in form)
    ensures r.Some? ==> r.value.blankCheck == Some("blank_check" in form) && r.value.erase == Some("erase" in form)
    ensures r.Some? ==> r.value.cfgProgram == Some("cfg_program" in form) && r.value.verify == Some("verify" in form)
    ensures r.Some? ==> r.value.targets.Some?
  {
    if !Saved(binName) then None
    else
      var server := if "hw_server" in form then Some(form["hw_server"]) else None;
      Some(ProgramFlash.FlashJob(
        PathJoin(uploads, binName.value), server, Some(GetHwTargetsForServer(file, server)),
        Some("blank_check" in form), Some("erase" in form), Some("cfg_program" in form), Some("verify" in form)))
  }

  /**
    For a submitted form the script's defaults never apply: each switch is 1
    exactly when its checkbox was sent, so an unticked "program" or "verify"
    box turns that step off.
   */
  lemma FormDecidesFlags(form: map<string, string>, binName: Option<string>, uploads: string, file: Option<ServerConfig>)
    requires Saved(binName)
    ensures var f := ProgramFlash.Flags(UploadBinfile(form, binName, uploads, file).value);
      && (f.blankCheck == 1 <==> "blank_check" in form)
      && (f.erase == 1 <==> "erase" in form)
      && (f.cfgProgram == 1 <==> "cfg_program" in form)
      && (f.verify == 1 <==> "verify" in form)
  {
  }

  /** Without a `hw_server` field the flash job names server `None` and has no targets. */
  lemma FlashWithoutServer(form: map<string, string>, binName: Option<string>, uploads: string, file: Option<ServerConfig>)
    requires Saved(binName) && "hw_server" !in form
    ensures var job := UploadBinfile(form, binName, uploads, file).value;
      && ProgramFlash.ServerText(job.hwServer) == "None"
      && job.targets == Some([])
  {
  }
}
