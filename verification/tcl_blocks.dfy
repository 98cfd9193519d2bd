/**
  The parameter blocks of the generated TCL scripts: one line per selected
  target, inside a `set name { ... }` list that the script's loop indexes
  by target position. The model reads the lists by lines; Tcl's own list
  parsing (whitespace splitting, brace and quote grouping) is not modelled.
 */
module TclBlocks {
  import opened Wrappers
  import opened PyStr

  /** One `{"target": ..., "device": ...}` entry of a server's target list in the configuration. */
  datatype TargetRef = TargetRef(target: string, device: string)

  /** The text holds no line break, so it stays on the one line it is written on. */
  predicate OneLine(s: string) {
    '\n' !in s
  }

  /** Two one-line texts written one after the other stay on one line. */
  lemma OneLineConcat(a: string, b: string)
    requires OneLine(a) && OneLine(b)
    ensures OneLine(a + b)
  {
    forall i | 0 <= i < |a + b| ensures (a + b)[i] != '\n' {
      if i >= |a| {
        assert (a + b)[i] == b[i - |a|];
      }
    }
  }

  /** Each entry followed by a line break: a block built with `+=` in a loop. */
  function Lines(entries: seq<string>): string
    decreases |entries|
  {
    if entries == [] then "" else entries[0] + "\n" + Lines(entries[1..])
  }

  /** `set name {` on its own line, then the block, then `}` and a blank line. */
  function SetBlock(name: string, block: string): string {
    "set " + name + " {\n" + block + "}\n\n"
  }

  /** `'    {' + f"{server}/{target}" + ' ' + device + '}'`: one element of the `hw_targets` list. */
  function HwTargetEntry(server: string, t: TargetRef): string {
    "    {" + server + "/" + t.target + " " + t.device + "}"
  }

  function HwTargetEntries(server: string, ts: seq<TargetRef>): (r: seq<string>)
    ensures |r| == |ts|
  {
    seq(|ts|, i requires 0 <= i < |ts| => HwTargetEntry(server, ts[i]))
  }

  function HwTargetsBlock(server: string, ts: seq<TargetRef>): string {
    Lines(HwTargetEntries(server, ts))
  }

  /** `'    "' + path + '"'`: one element of the `bitfiles` or `ltxfiles` list. */
  function QuotedEntry(path: string): string {
    "    \"" + path + "\""
  }

  /** The probes file is used only when a non-empty path was given and that file exists; otherwise `""`. */
  function LtxEntry(ltxPath: Option<string>, ltxExists: bool): (r: string)
    ensures r == QuotedEntry(ltxPath.value) <== ltxPath.Some? && ltxPath.value != "" && ltxExists
    ensures r == QuotedEntry("") <== ltxPath.None? || ltxPath.value == "" || !ltxExists
  {
    if ltxPath.Some? && ltxPath.value != "" && ltxExists then QuotedEntry(ltxPath.value) else QuotedEntry("")
  }

  /** `n` copies of one entry. */
  function Repeat(entry: string, n: nat): (r: seq<string>)
    ensures |r| == n && forall i :: 0 <= i < n ==> r[i] == entry
  {
    seq(n, _ => entry)
  }

  /** The same bitstream path once per target. */
  function BitfilesBlock(bitPath: string, ts: seq<TargetRef>): string {
    Lines(Repeat(QuotedEntry(bitPath), |ts|))
  }

  /** The same probes entry once per target. */
  function LtxfilesBlock(ltxPath: Option<string>, ltxExists: bool, ts: seq<TargetRef>): string {
    Lines(Repeat(LtxEntry(ltxPath, ltxExists), |ts|))
  }

  // ---------------------------------------------------------------------
  // Reading the blocks back line by line
  // ---------------------------------------------------------------------

  /** Cutting a rendered block at its line breaks gives back its entries, in order. */
  lemma {:induction false} CutLines(entries: seq<string>, tail: string)
    requires forall i :: 0 <= i < |entries| ==> OneLine(entries[i])
    ensures Cut(Lines(entries) + tail, '\n') == entries + Cut(tail, '\n')
    decreases |entries|
  {
    if entries == [] {
      assert Lines(entries) + tail == tail;
    } else {
      CutLines(entries[1..], tail);
      CutFirstLine(entries, tail);
      assert entries == [entries[0]] + entries[1..];
    }
  }

  lemma CutFirstLine(entries: seq<string>, tail: string)
    requires entries != [] && OneLine(entries[0])
    ensures Cut(Lines(entries) + tail, '\n') == [entries[0]] + Cut(Lines(entries[1..]) + tail, '\n')
  {
    var more := Lines(entries[1..]) + tail;
    assert Lines(entries) + tail == entries[0] + ['\n'] + more;
    CutAtChar(entries[0], '\n', more);
  }

  /** `"}\n\n"` followed by `tail` cuts into `}`, an empty line, and the cuts of `tail`. */
  lemma CutClose(tail: string)
    ensures Cut("}\n\n" + tail, '\n') == ["}", ""] + Cut(tail, '\n')
  {
    assert "}\n\n" + tail == "}" + ['\n'] + ("" + ['\n'] + tail);
    CutAtChar("}", '\n', "" + ['\n'] + tail);
    CutAtChar("", '\n', tail);
    assert "" + ['\n'] + tail == ['\n'] + tail;
  }

  /** How a `set` block reads back line by line: its opening line, its entries, `}` and an empty line. */
  function SetBlockRead(name: string, entries: seq<string>): seq<string> {
    ["set " + name + " {"] + entries + ["}", ""]
  }

  /**
    A `set` block reads back as its opening line, its entries in order, the
    closing brace and a blank line, whatever text follows it.
   */
  lemma SetBlockLines(name: string, entries: seq<string>, tail: string)
    requires OneLine(name)
    requires forall i :: 0 <= i < |entries| ==> OneLine(entries[i])
    ensures Cut(SetBlock(name, Lines(entries)) + tail, '\n') == SetBlockRead(name, entries) + Cut(tail, '\n')
  {
    var head := "set " + name + " {";
    assert '\n' !in head by {
      forall i | 0 <= i < |head| ensures head[i] != '\n' {
        if 4 <= i < 4 + |name| {
          assert head[i] == name[i - 4];
        }
      }
    }
    var rest := Lines(entries) + ("}\n\n" + tail);
    assert SetBlock(name, Lines(entries)) + tail == head + ['\n'] + rest;
    CutAtChar(head, '\n', rest);
    CutLines(entries, "}\n\n" + tail);
    CutClose(tail);
  }

  /** Three `set` blocks one after another read back as three headed runs of entries. */
  lemma {:induction false} ThreeSetBlocksLines(n1: string, e1: seq<string>, n2: string, e2: seq<string>, n3: string, e3: seq<string>)
    requires OneLine(n1) && OneLine(n2) && OneLine(n3)
    requires forall i :: 0 <= i < |e1| ==> OneLine(e1[i])
    requires forall i :: 0 <= i < |e2| ==> OneLine(e2[i])
    requires forall i :: 0 <= i < |e3| ==> OneLine(e3[i])
    ensures Cut(SetBlock(n1, Lines(e1)) + SetBlock(n2, Lines(e2)) + SetBlock(n3, Lines(e3)), '\n')
         == SetBlockRead(n1, e1) + SetBlockRead(n2, e2) + SetBlockRead(n3, e3) + [""]
  {
    var b1 := SetBlock(n1, Lines(e1));
    var b2 := SetBlock(n2, Lines(e2));
    var b3 := SetBlock(n3, Lines(e3));
    SetBlockLines(n3, e3, "");
    SetBlockLines(n2, e2, b3);
    SetBlockLines(n1, e1, b2 + b3);
    assert b3 + "" == b3;
    assert b1 + b2 + b3 == b1 + (b2 + b3);
    var h1 := SetBlockRead(n1, e1);
    var h2 := SetBlockRead(n2, e2);
    var h3 := SetBlockRead(n3, e3);
    assert h1 + (h2 + (h3 + [""])) == h1 + h2 + h3 + [""];
  }

  /**
    The `hw_targets` block has one `{server/target device}` line per target,
    in the order of the list, and is empty exactly when the list is.
   */
  lemma HwTargetsLines(server: string, ts: seq<TargetRef>)
    requires OneLine(server)
    requires forall i :: 0 <= i < |ts| ==> OneLine(ts[i].target) && OneLine(ts[i].device)
    ensures var ls := Cut(HwTargetsBlock(server, ts), '\n');
      && |ls| == |ts| + 1 && ls[|ts|] == ""
      && forall k :: 0 <= k < |ts| ==> ls[k] == HwTargetEntry(server, ts[k])
    ensures HwTargetsBlock(server, ts) == "" <==> ts == []
  {
    var es := HwTargetEntries(server, ts);
    forall i | 0 <= i < |ts| ensures OneLine(es[i]) {
      EntryOneLine(server, ts[i]);
    }
    CutLines(es, "");
    assert HwTargetsBlock(server, ts) + "" == HwTargetsBlock(server, ts);
    if ts != [] {
      assert |HwTargetsBlock(server, ts)| > 0;
    }
  }

  lemma EntryOneLine(server: string, t: TargetRef)
    requires OneLine(server) && OneLine(t.target) && OneLine(t.device)
    ensures OneLine(HwTargetEntry(server, t))
  {
    var e := HwTargetEntry(server, t);
    var a := "    {" + server + "/";
    var b := a + t.target + " ";
    assert e == b + t.device + "}";
    forall i | 0 <= i < |e| ensures e[i] != '\n' {
      if i < 5 {
      } else if i < 5 + |server| {
        assert e[i] == server[i - 5];
      } else if i == 5 + |server| {
      } else if i < |a| + |t.target| {
        assert e[i] == t.target[i - |a|];
      } else if i == |a| + |t.target| {
      } else if i < |b| + |t.device| {
        assert e[i] == t.device[i - |b|];
      }
    }
  }

  lemma QuotedOneLine(path: string)
    requires OneLine(path)
    ensures OneLine(QuotedEntry(path))
  {
    var e := QuotedEntry(path);
    forall i | 0 <= i < |e| ensures e[i] != '\n' {
      if 5 <= i < 5 + |path| {
        assert e[i] == path[i - 5];
      }
    }
  }

  /**
    The `bitfiles` and `ltxfiles` blocks have exactly as many lines as the
    `hw_targets` block, so line `i` of each holds the files of target `i`;
    every `ltxfiles` line names the probes file, or `""` when there is none.
   */
  lemma FileBlocksAligned(bitPath: string, ltxPath: Option<string>, ltxExists: bool, ts: seq<TargetRef>)
    requires OneLine(bitPath) && (ltxPath.Some? ==> OneLine(ltxPath.value))
    ensures var bs := Cut(BitfilesBlock(bitPath, ts), '\n');
      && |bs| == |ts| + 1 && bs[|ts|] == ""
      && forall k :: 0 <= k < |ts| ==> bs[k] == QuotedEntry(bitPath)
    ensures var ls := Cut(LtxfilesBlock(ltxPath, ltxExists, ts), '\n');
      && |ls| == |ts| + 1 && ls[|ts|] == ""
      && forall k :: 0 <= k < |ts| ==> ls[k] == LtxEntry(ltxPath, ltxExists)
  {
    QuotedOneLine(bitPath);
    QuotedOneLine("");
    if ltxPath.Some? {
      QuotedOneLine(ltxPath.value);
    }
    var bs := Repeat(QuotedEntry(bitPath), |ts|);
    var ls := Repeat(LtxEntry(ltxPath, ltxExists), |ts|);
    CutLines(bs, "");
    CutLines(ls, "");
    assert BitfilesBlock(bitPath, ts) + "" == BitfilesBlock(bitPath, ts);
    assert LtxfilesBlock(ltxPath, ltxExists, ts) + "" == LtxfilesBlock(ltxPath, ltxExists, ts);
  }
}
