# bliss-boot, modelled in Dafny

bliss-boot generates a GRUB 2 configuration file (`grub.cfg`) for the kernels
found under the boot directory, and it can install GRUB 2 or extlinux to a drive.
This project models the four classes that do the work and proves what each one
promises:

- **Manager** (`manager.dfy`, module `BootManager`). It pairs the discovered kernels
  with the kernels listed in the configuration. `write_entries` truncates
  `grub.cfg`, writes a header holding the timeout and the default kernel, and then
  appends one `menuentry` block per discovered kernel that has configured options.
  `convert_to_list` and `search` keep the configured kernels as two parallel lists.
- **Scanner** (`scanner.dfy`, module `KernelScanner`). It adds every stripped line
  of the boot-directory listing to one set. The class itself holds that set, so
  every Scanner shares it.
- **Tools** (`tools.dfy`, module `CliTools`). It does the following:
  - refuses a non-root user;
  - scans the command line for `-o/--output`, `-f/--force` and `-h/--help`;
  - resolves `UUID=` and `PARTUUID=` drive identifiers;
  - wraps messages in terminal colour codes.
- **Installer** (`installer.dfy`, module `BootInstaller`). It chooses GRUB 2 or
  extlinux from two flags. It then runs a fixed sequence of external commands and
  stops at the first failure. For extlinux, the firmware it writes depends on the
  partition-table layout.

Shared modules:
- `outcomes.dfy` (`Outcomes`) says how a run stops. `quit(n)` is `Exit(n)`, and an
  exception nothing catches is `Raised(...)`.
- `pytext.dfy` (`PyText`) models the Python string operations the code relies on:
  `str.strip()`, `str.split(sep)` and `''.join(...)`.
- `bootconfig.dfy` (`BootConfig`) is the configuration record of `etc/conf.py`. Its
  kernel table is a dict, modelled as key/value pairs in insertion order with
  distinct keys.

External programs are not run. These are `whoami`, `ls`, `blkid`,
`grub2-install`, `extlinux`, `sgdisk`, `dd`, `shutil.copy` and `os.makedirs`.
What each would answer is an input:
- the user name for `ProcessArguments`;
- the listing for `find_kernels`;
- a lookup function for `blkid`;
- an `Env` record for the installer.

Each install method also returns the list of commands it issued, in order. The
file `grub.cfg` is a `ConfigFile` object whose text the methods change in place.

Methods that loop or change state are proved against specification functions:
- `WriteEntries` against `Header`, `Reconcile` and `Blocks`;
- `FindKernels` against `StrippedLines`;
- `ProcessArguments` against the fold `ScanPrefix`;
- `InstallGrub2` and `InstallExtlinux` against `Grub2Run` and `ExtlinuxRun`.

Lemmas then prove what those functions promise.

## Model

| member | source | states |
|---|---|---|
| PyText.StripShape | libs/Scanner.py:31 | `strip()` cuts whitespace from both ends only: the result is a slice `s[i..j]`, everything dropped is whitespace, and the result neither starts nor ends with whitespace |
| PyText.StripLeftShape | libs/Scanner.py:31 | removing leading whitespace leaves a suffix of the input; everything dropped is whitespace, and the result does not start with whitespace |
| PyText.StripRightShape | libs/Scanner.py:31 | removing trailing whitespace leaves a prefix of the input; everything dropped is whitespace, and the result does not end with whitespace |
| PyText.StripIdempotent | libs/Scanner.py:31 | stripping a stripped line changes nothing |
| PyText.Split | libs/Tools.py:69 | `split("=")` always yields at least one piece, and no piece contains the separator |
| PyText.JoinSplit | libs/Tools.py:69 | joining the pieces of a split with the same separator gives back the original string |
| PyText.ConcatSplitLength | libs/Tools.py:69-83 | `''.join(s.split(sep))` is shorter than `s` by exactly the number of separators in `s` |
| PyText.SplitNoSeparator | libs/Tools.py:69 | a string without the separator splits into itself alone |
| PyText.CountPositive | libs/Tools.py:83 | the separator count is positive exactly when the separator occurs |
| PyText.ConcatSplitIsIdentity | libs/Tools.py:81-84 | the test `value == ''.join(value.split("="))` holds exactly when `value` has no `=` |
| BootConfig.Keys | libs/Manager.py:72 | `keys()` gives one key per dict entry |
| BootConfig.Values | libs/Manager.py:75 | `values()` gives one value per dict entry |
| BootConfig.Get | libs/Manager.py:62 | `conf.kernels[kernel]` on a present key is the value of an entry with that key |
| BootConfig.GetEntry | libs/Manager.py:72-76 | in a dict, looking up the key of entry `i` yields entry `i`'s value |
| BootManager.ConfigFile.OpenForWrite | libs/Manager.py:35 | opening with "w" empties the file |
| BootManager.ConfigFile.Write | libs/Manager.py:36-38 | a write appends its text to the end of the file |
| BootManager.Reconcile | libs/Manager.py:44-46 | the kernels given entries are configured ones, and there are never more of them than were discovered |
| BootManager.ReconcileMembers | libs/Manager.py:44-46 | a kernel gets an entry exactly when it was discovered and it has configured options |
| BootManager.ReconcileAppend | libs/Manager.py:44-46 | matching kernels keeps discovery order; matching a concatenation matches each part |
| BootManager.BlocksAppendOne | libs/Manager.py:58-65 | one more matched kernel appends exactly its `menuentry` block |
| BootManager.EntriesAreBlocks | libs/Manager.py:44-67 | the text the loop appends is the matched kernels' blocks, in discovery order |
| BootManager.EntriesAppend | libs/Manager.py:44-67 | the text for a concatenation of kernel lists is the concatenation of their texts |
| BootManager.UnknownKernelAddsNothing | libs/Manager.py:66-67 | a discovered kernel without configured options adds nothing to `grub.cfg`, wherever it appears |
| BootManager.Manager.constructor | libs/Manager.py:10-15 | a new Manager has empty name and value lists, and no kernel list yet |
| BootManager.Manager.SetKernelList | libs/Manager.py:18-20 | as written: the kernel list is stored, then the call to `convert_to_list` with an extra argument raises TypeError |
| BootManager.Manager.SetKernelListIntended | libs/Manager.py:18-20 | as intended: the kernel list is stored and the configured dict is appended to the two parallel lists |
| BootManager.Manager.WriteEntries | libs/Manager.py:26-67 | a bootloader other than grub2 exits with 2 and leaves the file alone; otherwise the file is truncated and holds the header then one block per matched kernel in discovery order; with no kernel list set, the header is written and then AttributeError is raised |
| BootManager.Manager.WriteMenuEntry | libs/Manager.py:54-65 | the four writes for one kernel append exactly its `menuentry` block (title, `linux` line with its options, `initrd` line, closing brace) |
| BootManager.Manager.ConvertToList | libs/Manager.py:71-76 | every configured key is appended to the names and every value to the values, in dict order, and the lists stay parallel |
| BootManager.Manager.Search | libs/Manager.py:83-90 | as written: a name that is present reaches the message that adds an int to a str and raises TypeError; an absent name gives -1 |
| BootManager.SearchAfterSetKernelList | libs/Manager.py:18-90 | in the code as written, `set_kernel_list` raises TypeError before recording any name, so a later `search` on that Manager returns -1 for every name |
| BootManager.Manager.IndexOf | libs/Manager.py:83-90 | as intended: the first position of the name, -1 exactly when it is absent; the value at that position is the kernel's configured options |
| KernelScanner.StrippedLines | libs/Scanner.py:29-31 | the names found are exactly the stripped lines of the listing |
| KernelScanner.StrippedLinesAtMostLines | libs/Scanner.py:29-31 | there are never more names than listing lines |
| KernelScanner.StrippedLinesRepeated | libs/Scanner.py:29-31 | scanning the same listing twice adds no new names |
| KernelScanner.KernelPool.constructor | libs/Scanner.py:13 | the class-level kernel set starts empty |
| KernelScanner.Scanner.FindKernels | libs/Scanner.py:18-31 | the shared set grows by exactly the stripped lines of the listing; nothing is removed, and an empty listing changes nothing |
| KernelScanner.Scanner.GetKernels | libs/Scanner.py:39-40 | returns the shared set itself |
| KernelScanner.ScannersShareKernels | libs/Scanner.py:13-31 | for any two Scanners on the same set, whatever one finds is added to what the other reports, on top of the names already there |
| CliTools.ScanHaltsAtFirstStop | libs/Tools.py:47-63 | the scan stops exactly when some argument stops it, at the first one: `-h` exits with 0, and `-o` as the last argument exits with 1 |
| CliTools.ScanHaltedStays | libs/Tools.py:47-63 | once the scan has stopped, later arguments change nothing |
| CliTools.ScanLastOutputWins | libs/Tools.py:50-55 | the output file is the argument after the last `-o` that is followed by a non-flag; without one it is unchanged |
| CliTools.ScanForceSticky | libs/Tools.py:58-59 | force is 1 once any `-f` was seen, else unchanged |
| CliTools.FirstIdKind | libs/Tools.py:73-79 | the loop stops at the first piece that is `UUID` or `PARTUUID` |
| CliTools.Tools.constructor | libs/Tools.py:18-19 | no output file and no force at first |
| CliTools.Tools.IsFlag | libs/Tools.py:28-35 | returns 0 exactly when the argument is one of the six option spellings, and -1 otherwise |
| CliTools.Tools.ProcessArguments | libs/Tools.py:38-63 | a user other than root fails with exit 1 and changes nothing; for root, the outcome and the new output and force settings are those of the argument scan |
| CliTools.Tools.GetDriveFromIdentifier | libs/Tools.py:89-97 | returns the blkid answer when it is non-empty; otherwise fails with exit 1 |
| CliTools.Tools.MapIdentifierToDrive | libs/Tools.py:67-86 | as written: a value without `=` passes through unless it is exactly `UUID` or `PARTUUID`, which raises IndexError; a value with `=` is resolved from the piece after the first identifier kind |
| CliTools.Tools.MapIdentifierToDriveIntended | libs/Tools.py:67-86 | as intended: every value without `=` passes through unchanged |
| CliTools.Tools.Colorize | libs/Tools.py:124-139 | "none" returns the message unchanged; any other known colour gives its start code, the message, and the reset code, 14 characters longer in all |
| CliTools.Tools.IsOutputSet | libs/Tools.py:158-162 | 1 exactly when an output file was given, else 0 |
| CliTools.Tools.GetOutputFile | libs/Tools.py:166-167 | returns the output path the scan left |
| CliTools.Tools.IsForceSet | libs/Tools.py:171-172 | returns the force setting the scan left |
| BootInstaller.GetBootInstall | libs/Installer.py:69-75 | both flags is fatal; grub2 alone gives "grub2", extlinux alone gives "extlinux", neither gives none; each case holds in both directions |
| BootInstaller.Installer.constructor | libs/Installer.py:24-33 | a new Installer has partition number -1 and layout "none" |
| BootInstaller.Installer.Create | libs/Installer.py:24-75 | construction dies when both bootloaders are requested; otherwise the new Installer holds the chosen bootloader, the configured menu module, -1 and "none" |
| BootInstaller.Installer.SetDriveNumber | libs/Installer.py:45-50 | only the partition number changes, and its getter returns the new value |
| BootInstaller.Installer.SetDriveType | libs/Installer.py:53-58 | only the layout changes, and its getter returns the new value |
| BootInstaller.Installer.SetBootloader | libs/Installer.py:61-66 | only the bootloader changes, and its getter returns the new value |
| BootInstaller.Installer.Start | libs/Installer.py:36-42 | "grub2" runs the GRUB 2 install, "extlinux" runs the extlinux install, and anything else runs no command |
| BootInstaller.Installer.InstallGrub2 | libs/Installer.py:78-93 | the outcome and the commands issued are those of the GRUB 2 install sequence |
| BootInstaller.Grub2Properties | libs/Installer.py:78-93 | with no drive the run dies before any command; otherwise it runs grub2-install once and succeeds exactly when that returns 0 |
| BootInstaller.Installer.CopyFiles | libs/Installer.py:117-130 | copies the files in order and dies at the first one that is missing or does not show up in the target directory |
| BootInstaller.CopyRunOnlyCopies | libs/Installer.py:123-130 | the copy loop issues only copies, and it can die only because a file is missing or was not copied |
| BootInstaller.Installer.InstallExtlinux | libs/Installer.py:96-167 | the outcome and the commands issued are those of the five-stage extlinux sequence |
| BootInstaller.FirmwareMatchesLayout | libs/Installer.py:132-165 | firmware written is gptmbr.bin on gpt and mbr.bin on msdos, only to the drive, only when the file exists, and on gpt only after the bootable flag was set |
| BootInstaller.UnknownLayoutIsFatal | libs/Installer.py:132-167 | a layout other than gpt or msdos is fatal, and then neither the bootable flag nor any firmware is written |
| BootInstaller.GptFlagFailureWritesNoFirmware | libs/Installer.py:137-149 | on gpt, a failed bootable-flag toggle is fatal and no firmware is written |
| BootInstaller.MissingFirmwareIsSilent | libs/Installer.py:155-165 | a missing firmware file means no write and no firmware error |
| BootInstaller.ExtlinuxDoneMeans | libs/Installer.py:96-167 | a completed extlinux install had a known layout, a working extlinux, both menu files copied, and on gpt a successful flag toggle |

## Left out

- Terminal output is not modelled: `print`, `Print`, `Success`, `Warn`, `PrintHeader`, and the installer's `eprint`, `esucc` and `ewarn`. It has no effect on the state.
- `PrintUsage` is modelled only as `Exit(0)`, and `Fail` only as `Exit(1)`.
- `tools.die` is an installer outcome `Died(reason)`. In `libs/Toolkit.py` it also deletes `grub.cfg` and exits with 5; those are filesystem and process effects.
- `Toolkit.create_bootlink` is not modelled; it only makes a filesystem symlink.
- The installer calls `is_grub2`, `is_extlinux` and `get_el_path`, which `libs/Toolkit.py` does not define. Their results are inputs: the two flags and the path given to `Create`.
- Scanner's class attribute is one `KernelPool` object, and every Scanner must be built on that same object. Dafny does not enforce this: a Scanner built on another pool would not share its names.
- `get_kernels` returns the live set object in Python, and `set_kernel_list` then holds that same object. `KernelScanner.Scanner.GetKernels` returns a copy of the set's contents instead. The code shown never changes the set after handing it over.
- External programs are not run: `whoami`, `ls`, `blkid | grep | cut`, `grub2-install`, `extlinux`, `sgdisk`, `dd`, `shutil.copy` and `os.makedirs`. Their answers are inputs: the user name, the listing, the lookup function and the `Env` record.
- `libs/ConfigLoader.py` and `libs/Variables.py` are not part of this model.
  - Only the constants they define are used: the program and firmware paths. The configured `el_ui` is an input, given to `Create`.
  - The configuration itself is the `Config` record.
- The Scanner set's iteration order is not modelled. Python iterates a set in no defined order, so `WriteEntries` takes the discovered kernels as a sequence in whatever order they arrive.
- `Tools` keeps `_force` and `_outputFile` as class attributes. They are fields of one `Tools` object here, because the program uses a single one.
- `print_kernels` in Manager and in Scanner only prints.
- `str.strip()` removes only the ASCII characters that `str.isspace()` accepts: space, tab, line feed, carriage return, vertical tab, form feed, and 0x1C to 0x1F. Python also strips non-ASCII spaces such as U+0085, U+00A0 and U+2028. A directory listing of kernel names does not hold those.
- The grub2 device syntax shown in the comments of `etc/conf.py` is not used by the modelled code.
- CliTools.Tools.Colorize: requires a known colour. For any other colour, the source reaches `return` with `colored_message` unassigned, and that raises UnboundLocalError.
- BootInstaller.Installer.InstallExtlinux: requires the partition number to be a string when the layout is gpt. The source concatenates it into the sgdisk command, so the int -1 the constructor stores would raise TypeError.
- BootInstaller.Installer.Start: carries the same requirement as InstallExtlinux, when it dispatches to extlinux.
- The `except FileNotfoundError` on the sgdisk `show` call is not modelled. The misspelt name would raise NameError only if the call itself raised, and `call(..., shell=True)` does not raise for a missing program. The result of the show command is ignored, as in the source.
- Facts of the code that the model keeps:
  - `set default=` is written with the configured version string, not an index;
  - only GRUB 2 configuration text is produced;
  - `grub.cfg` is rewritten in place, not atomically;
  - the header is written before the kernel list is read.

## Findings

| source | as written | input that shows it | evidently intended | confidence | as-written member | corrected member |
|---|---|---|---|---|---|---|
| libs/Manager.py:87 | `search` builds its message by adding the int index `i` to a str | any name present in the lists | print the index and return it | high, not executed | BootManager.Manager.Search | BootManager.Manager.IndexOf |
| libs/Manager.py:20 | `set_kernel_list` calls `self.convert_to_list(self)`, one argument too many for `convert_to_list(self)` | any kernel list | convert the configured dict after storing the list | high, not executed | BootManager.Manager.SetKernelList | BootManager.Manager.SetKernelListIntended |
| libs/Tools.py:73-84 | the loop reads `splitResults[i+1]` after finding `UUID` or `PARTUUID` in the last piece | the value `UUID`, which has no `=`, raises IndexError | a value without `=` is returned unchanged, as the comment at lines 81-82 says | high, not executed | CliTools.Tools.MapIdentifierToDrive | CliTools.Tools.MapIdentifierToDriveIntended |

Because of the second finding, `set_kernel_list` never fills the name list. So in the code shown, `search` after `set_kernel_list` can only return -1 (`BootManager.SearchAfterSetKernelList`), and the first finding cannot be reached that way.
