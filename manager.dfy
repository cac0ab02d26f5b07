/** The GRUB 2 configuration writer of `libs/Manager.py`.

    `write_entries` truncates `grub.cfg`, writes a three-line header and then,
    for each discovered kernel that has options in the configuration, appends
    one `menuentry` block. `convert_to_list` and `search` keep the configured
    kernels as two parallel lists and look a version up by position. */
module BootManager {
  import opened Outcomes
  import opened BootConfig

  /** The file `grub.cfg` in the working directory, as text. */
  class ConfigFile {
    var content: string

    constructor(initial: string)
      ensures content == initial
    {
      content := initial;
    }

    /** `open(..., "w")`: whatever the file held is discarded. */
    method OpenForWrite()
      modifies this
      ensures content == ""
    {
      content := "";
    }

    /** `write(text)` on a handle opened with "w" or "a": the text goes at the end. */
    method Write(text: string)
      modifies this
      ensures content == old(content) + text
    {
      content := content + text;
    }
  }

  // ---------------------------------------------------------------------------
  // The text the configuration file is meant to hold

  /** The header: the timeout and the default version, each copied verbatim, and a blank line. */
  function Header(conf: Config): string {
    "set timeout=" + conf.timeout + "\n" + "set default=" + conf.default + "\n" + "\n"
  }

  /** The block for one configured kernel `k`. */
  function MenuEntry(conf: Config, k: string): string
    requires k in Keys(conf.kernels)
  {
    "menuentry \"Funtoo - " + k + "\" {\n"
    + "\tlinux " + conf.bootdir + "/" + k + "/vmlinuz " + Get(conf.kernels, k) + "\n"
    + "\tinitrd " + conf.bootdir + "/" + k + "/initrd\n"
    + "}\n"
  }

  /** The discovered kernels that the configuration knows, in discovery order. */
  function Reconcile(conf: Config, ks: seq<string>): (rs: seq<string>)
    ensures forall i :: 0 <= i < |rs| ==> rs[i] in Keys(conf.kernels)
    ensures |rs| <= |ks|
  {
    if ks == [] then []
    else
      var last := ks[|ks| - 1];
      Reconcile(conf, ks[..|ks| - 1]) + (if last in Keys(conf.kernels) then [last] else [])
  }

  /** One block per kernel of `rs`, in order. */
  function Blocks(conf: Config, rs: seq<string>): string
    requires forall i :: 0 <= i < |rs| ==> rs[i] in Keys(conf.kernels)
  {
    if rs == [] then "" else Blocks(conf, rs[..|rs| - 1]) + MenuEntry(conf, rs[|rs| - 1])
  }

  /** What the loop of `write_entries` has appended after visiting the kernels `ks`. */
  function Entries(conf: Config, ks: seq<string>): string {
    if ks == [] then ""
    else
      var last := ks[|ks| - 1];
      Entries(conf, ks[..|ks| - 1]) + (if last in Keys(conf.kernels) then MenuEntry(conf, last) else "")
  }

  // ---------------------------------------------------------------------------
  // Properties of reconciliation and of the emitted text

  /** A kernel is kept exactly when it was discovered and the configuration has options for it. */
  lemma {:induction false} ReconcileMembers(conf: Config, ks: seq<string>, k: string)
    ensures k in Reconcile(conf, ks) <==> k in ks && k in Keys(conf.kernels)
  {
    if ks != [] {
      var init := ks[..|ks| - 1];
      ReconcileMembers(conf, init, k);
      assert ks == init + [ks[|ks| - 1]];
    }
  }

  /** Reconciling a concatenation reconciles each part: the kept kernels keep their order. */
  lemma {:induction false} ReconcileAppend(conf: Config, a: seq<string>, b: seq<string>)
    ensures Reconcile(conf, a + b) == Reconcile(conf, a) + Reconcile(conf, b)
  {
    if b != [] {
      var init := b[..|b| - 1];
      ReconcileAppend(conf, a, init);
      assert (a + b)[..|a + b| - 1] == a + init;
    } else {
      assert a + b == a;
    }
  }

  lemma {:induction false} BlocksAppendOne(conf: Config, rs: seq<string>, r: string)
    requires forall i :: 0 <= i < |rs| ==> rs[i] in Keys(conf.kernels)
    requires r in Keys(conf.kernels)
    ensures Blocks(conf, rs + [r]) == Blocks(conf, rs) + MenuEntry(conf, r)
  {
    assert (rs + [r])[..|rs|] == rs;
  }

  /** The loop's output is one block per reconciled kernel, in discovery order. */
  lemma {:induction false} EntriesAreBlocks(conf: Config, ks: seq<string>)
    ensures Entries(conf, ks) == Blocks(conf, Reconcile(conf, ks))
  {
    if ks != [] {
      var init := ks[..|ks| - 1];
      var last := ks[|ks| - 1];
      EntriesAreBlocks(conf, init);
      if last in Keys(conf.kernels) {
        BlocksAppendOne(conf, Reconcile(conf, init), last);
      } else {
        assert Reconcile(conf, ks) == Reconcile(conf, init);
      }
    }
  }

  /** The text for a concatenation of kernel lists is the concatenation of their texts. */
  lemma {:induction false} EntriesAppend(conf: Config, a: seq<string>, b: seq<string>)
    ensures Entries(conf, a + b) == Entries(conf, a) + Entries(conf, b)
  {
    if b != [] {
      var init := b[..|b| - 1];
      EntriesAppend(conf, a, init);
      assert (a + b)[..|a + b| - 1] == a + init;
    } else {
      assert a + b == a;
    }
  }

  /** A discovered kernel without configured options adds nothing, wherever it appears. */
  lemma UnknownKernelAddsNothing(conf: Config, a: seq<string>, k: string, b: seq<string>)
    requires k !in Keys(conf.kernels)
    ensures Entries(conf, a + [k] + b) == Entries(conf, a + b)
  {
    EntriesAppend(conf, a + [k], b);
    EntriesAppend(conf, a, [k]);
    EntriesAppend(conf, a, b);
    assert [k][..0] == [];
  }

  // ---------------------------------------------------------------------------
  // The Manager object

  class Manager {
    const conf: Config
    var names: seq<string>             // __ck_names
    var values: seq<string>            // __ck_values
    var kernels: Option<seq<string>>   // __kernels: absent until set_kernel_list runs

    /** The two lists are parallel: `values[i]` is the configured options of `names[i]`. */
    ghost predicate Valid()
      reads this
    {
      && |names| == |values|
      && forall i :: 0 <= i < |names| ==>
           names[i] in Keys(conf.kernels) && Get(conf.kernels, names[i]) == values[i]
    }

    constructor(conf: Config)
      ensures this.conf == conf && names == [] && values == [] && kernels == None
      ensures Valid()
    {
      this.conf := conf;
      names, values, kernels := [], [], None;
    }

    /** `set_kernel_list` as written: the kernels are stored, then the call
        `self.convert_to_list(self)` passes one argument too many and raises. */
    method SetKernelList(ks: seq<string>) returns (r: Outcome<()>)
      modifies this`kernels
      ensures kernels == Some(ks)
      ensures r == Stop(Raised(TypeError))
    {
      kernels := Some(ks);
      r := Stop(Raised(TypeError));
    }

    /** `set_kernel_list` as intended: store the kernels and convert the configured dict. */
    method SetKernelListIntended(ks: seq<string>)
      requires Valid()
      modifies this`kernels, this`names, this`values
      ensures Valid()
      ensures kernels == Some(ks)
      ensures names == old(names) + Keys(conf.kernels) && values == old(values) + Values(conf.kernels)
    {
      kernels := Some(ks);
      ConvertToList();
    }

    /** `write_entries`: `grub.cfg` ends up holding exactly the header followed by one
        block per discovered kernel that the configuration lists, in discovery order. */
    method WriteEntries(file: ConfigFile) returns (r: Outcome<()>)
      modifies file
      ensures conf.bootloader != "grub2" ==> r == Stop(Exit(2)) && file.content == old(file.content)
      ensures conf.bootloader == "grub2" && kernels.None? ==>
                r == Stop(Raised(AttributeError)) && file.content == Header(conf)
      ensures conf.bootloader == "grub2" && kernels.Some? ==>
                r == Ok(()) && file.content == Header(conf) + Blocks(conf, Reconcile(conf, kernels.value))
    {
      if conf.bootloader != "grub2" {
        return Stop(Exit(2));
      }
      file.OpenForWrite();
      file.Write("set timeout=" + conf.timeout + "\n");
      file.Write("set default=" + conf.default + "\n");
      file.Write("\n");
      if kernels.None? {
        return Stop(Raised(AttributeError));
      }
      var ks := kernels.value;
      var i := 0;
      while i < |ks|
        invariant 0 <= i <= |ks|
        invariant file.content == Header(conf) + Entries(conf, ks[..i])
      {
        var kernel := ks[i];
        if kernel in Keys(conf.kernels) {
          WriteMenuEntry(file, kernel);
        }
        assert ks[..i + 1][..i] == ks[..i];
        i := i + 1;
      }
      assert ks[..|ks|] == ks;
      EntriesAreBlocks(conf, ks);
      r := Ok(());
    }

    /** The four writes of one `menuentry` block, through a handle opened with "a". */
    method WriteMenuEntry(file: ConfigFile, kernel: string)
      requires kernel in Keys(conf.kernels)
      modifies file
      ensures file.content == old(file.content) + MenuEntry(conf, kernel)
    {
      var fullKernelPath := conf.bootdir + "/" + kernel;
      var title := "menuentry \"Funtoo - " + kernel + "\" {\n";
      var linux := "\tlinux " + fullKernelPath + "/vmlinuz " + Get(conf.kernels, kernel) + "\n";
      var initrd := "\tinitrd " + fullKernelPath + "/initrd\n";
      assert MenuEntry(conf, kernel) == title + linux + initrd + "}\n";
      file.Write(title);
      file.Write(linux);
      file.Write(initrd);
      file.Write("}\n");
    }

    /** `convert_to_list`: every key, then every value, of the configured dict is
        appended in dict order; nothing already in the lists is removed. */
    method ConvertToList()
      requires Valid()
      modifies this`names, this`values
      ensures Valid()
      ensures names == old(names) + Keys(conf.kernels)
      ensures values == old(values) + Values(conf.kernels)
    {
      var keys := Keys(conf.kernels);
      var i := 0;
      while i < |keys|
        invariant 0 <= i <= |keys|
        invariant names == old(names) + keys[..i]
        invariant values == old(values)
      {
        names := names + [keys[i]];
        assert keys[..i + 1] == keys[..i] + [keys[i]];
        i := i + 1;
      }
      var vals := Values(conf.kernels);
      i := 0;
      while i < |vals|
        invariant 0 <= i <= |vals|
        invariant names == old(names) + keys
        invariant values == old(values) + vals[..i]
      {
        values := values + [vals[i]];
        assert vals[..i + 1] == vals[..i] + [vals[i]];
        i := i + 1;
      }
      assert keys[..|keys|] == keys && vals[..|vals|] == vals;
      forall j | |old(names)| <= j < |names|
        ensures names[j] in Keys(conf.kernels) && Get(conf.kernels, names[j]) == values[j]
      {
        var k := j - |old(names)|;
        assert names[j] == keys[k] == conf.kernels[k].0;
        assert values[j] == vals[k] == conf.kernels[k].1;
        GetEntry(conf.kernels, k);
      }
    }

    /** `search` as written: a hit reaches the message that adds an int to a str,
        which raises; a miss returns -1. */
    method Search(target: string) returns (r: Outcome<int>)
      ensures target in names ==> r == Stop(Raised(TypeError))
      ensures target !in names ==> r == Ok(-1)
    {
      var i := 0;
      while i < |names|
        invariant 0 <= i <= |names|
        invariant target !in names[..i]
      {
        if names[i] == target {
          return Stop(Raised(TypeError));
        }
        assert names[..i + 1] == names[..i] + [names[i]];
        i := i + 1;
      }
      assert names[..|names|] == names;
      r := Ok(-1);
    }

    /** `search` as intended: the first position of `target`, or -1; the options
        stored at that position are the target's configured options. */
    method IndexOf(target: string) returns (i: int)
      ensures -1 <= i < |names|
      ensures i == -1 <==> target !in names
      ensures i >= 0 ==> names[i] == target && target !in names[..i]
      ensures i >= 0 && Valid() ==> values[i] == Get(conf.kernels, target)
    {
      i := 0;
      while i < |names|
        invariant 0 <= i <= |names|
        invariant target !in names[..i]
      {
        if names[i] == target {
          return;
        }
        assert names[..i + 1] == names[..i] + [names[i]];
        i := i + 1;
      }
      assert names[..|names|] == names;
      i := -1;
    }
  }

  /** In the code as written, `set_kernel_list` fails before any name is recorded,
      so a later `search` on that Manager finds nothing, whatever it looks for. */
  method SearchAfterSetKernelList(conf: Config, ks: seq<string>, target: string)
    returns (stored: Outcome<()>, found: Outcome<int>)
    ensures stored == Stop(Raised(TypeError))
    ensures found == Ok(-1)
  {
    var m := new Manager(conf);
    stored := m.SetKernelList(ks);
    found := m.Search(target);
  }
}
