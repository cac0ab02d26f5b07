/** Bootloader installation of `libs/Installer.py`.

    The Installer picks GRUB 2 or extlinux from two flags, then runs a fixed
    sequence of external commands, stopping at the first failure. The commands
    themselves are not modelled: an `Env` record gives the result each one would
    have, and every install returns the list of commands it issued. */
module BootInstaller {
  import opened Outcomes

  // ---------------------------------------------------------------------------
  // Program locations (`libs/Variables.py`)

  const Grub2Install: string := "/usr/sbin/grub2-install"
  const ExtlinuxProgram: string := "/sbin/extlinux"
  const SgdiskProgram: string := "/usr/sbin/sgdisk"
  const GptFirmware: string := "/usr/share/syslinux/gptmbr.bin"
  const MbrFirmware: string := "/usr/share/syslinux/mbr.bin"
  const Libutil: string := "/usr/share/syslinux/libutil.c32"

  /** `var.el_ui`: the menu module named in the configuration, under the syslinux directory. */
  function MenuUi(elUi: string): string {
    "/usr/share/syslinux/" + elUi
  }

  // ---------------------------------------------------------------------------
  // Commands, their results, and how an install ends

  /** A value Python lets `drive_number` hold: the constructor stores an int, a setter anything. */
  datatype PyValue = PyInt(i: int) | PyStr(s: string)

  /** `subprocess.call`: the exit status, or FileNotFoundError when the program is absent. */
  datatype CallResult = Returned(code: int) | NotFound

  /** The external actions an install performs, in the order it performs them. */
  datatype Command =
    | RunGrub2Install(drive: string)
    | MakeDirs(path: string)
    | RunExtlinuxInstall(path: string)
    | CopyFile(source: string, dir: string)
    | SetBiosBootable(drive: string, partition: string)   // sgdisk --attributes=N:set:2
    | ShowAttributes(drive: string, partition: string)    // sgdisk --attributes=N:show
    | WriteFirmware(firmware: string, drive: string)      // dd bs=440 count=1

  /** What the system answers to each command and file test. */
  datatype Env = Env(
    grub2Install: CallResult,
    pathExists: bool,           // os.path.exists(path) before anything is done
    pathCreated: bool,          // os.path.exists(path) after os.makedirs(path)
    extlinuxInstall: CallResult,
    files: set<string>,         // paths for which os.path.isfile holds
    copied: set<string>,        // sources whose copy shows up in the target directory
    setBootable: int,           // exit status of the sgdisk set command
    dd: int)                    // exit status of the dd command

  /** Why `tools.die` ended the run. */
  datatype Reason =
    | BothBootloaders
    | NoGrubDrive | GrubFailed | GrubMissing
    | CannotCreateDirectory | ExtlinuxMissing | ExtlinuxFailed
    | CopyFailed(file: string) | FileMissing(file: string)
    | BiosFlagFailed | FirmwareWriteFailed | UnknownFirmware

  datatype InstallResult = Done | Skipped | Died(reason: Reason)

  /** How an install ends, with the commands it issued. */
  datatype Run = Run(result: InstallResult, trace: seq<Command>)

  /** `first`, then `next` unless `first` died. */
  function Then(first: Run, next: Run): Run {
    if first.result.Died? then first else Run(next.result, first.trace + next.trace)
  }

  // ---------------------------------------------------------------------------
  // Which bootloader

  datatype BootChoice = Install(bootloader: string) | NoInstall | BothRequested

  /** `get_boot_install`: both flags is fatal, one flag names its bootloader, none gives None. */
  function GetBootInstall(grub2: bool, extlinux: bool): (c: BootChoice)
    ensures c == BothRequested <==> grub2 && extlinux
    ensures c == Install("grub2") <==> grub2 && !extlinux
    ensures c == Install("extlinux") <==> extlinux && !grub2
    ensures c == NoInstall <==> !grub2 && !extlinux
  {
    if grub2 && extlinux then BothRequested
    else if grub2 then Install("grub2")
    else if extlinux then Install("extlinux")
    else NoInstall
  }

  // ---------------------------------------------------------------------------
  // The install sequences, as functions of the environment

  /** `install_grub2`. */
  function Grub2Run(drive: string, env: Env): Run {
    if drive == "" then Run(Died(NoGrubDrive), [])
    else
      var t := [RunGrub2Install(drive)];
      match env.grub2Install
      case NotFound => Run(Died(GrubMissing), t)
      case Returned(c) => if c == 0 then Run(Done, t) else Run(Died(GrubFailed), t)
  }

  /** Make the extlinux directory when it is missing. */
  function DirectoryRun(path: string, env: Env): Run {
    if env.pathExists then Run(Done, [])
    else if env.pathCreated then Run(Done, [MakeDirs(path)])
    else Run(Died(CannotCreateDirectory), [MakeDirs(path)])
  }

  /** `extlinux --install path`. */
  function ExtlinuxInstallRun(path: string, env: Env): Run {
    var t := [RunExtlinuxInstall(path)];
    match env.extlinuxInstall
    case NotFound => Run(Died(ExtlinuxMissing), t)
    case Returned(c) => if c == 0 then Run(Done, t) else Run(Died(ExtlinuxFailed), t)
  }

  /** Copy `files[i..]` into `path`, stopping at the first file that is missing or not copied. */
  function CopyRun(files: seq<string>, i: nat, path: string, env: Env): Run
    requires i <= |files|
    decreases |files| - i
  {
    if i == |files| then Run(Done, [])
    else if files[i] !in env.files then Run(Died(FileMissing(files[i])), [])
    else if files[i] !in env.copied then Run(Died(CopyFailed(files[i])), [CopyFile(files[i], path)])
    else Then(Run(Done, [CopyFile(files[i], path)]), CopyRun(files, i + 1, path, env))
  }

  /** On a GPT disk, set the legacy-BIOS-bootable attribute and show it. */
  function BiosFlagRun(drive: string, driveType: string, number: PyValue, env: Env): Run
    requires driveType == "gpt" ==> number.PyStr?
  {
    if driveType != "gpt" then Run(Done, [])
    else if env.setBootable != 0 then Run(Died(BiosFlagFailed), [SetBiosBootable(drive, number.s)])
    else Run(Done, [SetBiosBootable(drive, number.s), ShowAttributes(drive, number.s)])
  }

  /** The firmware for a partition-table layout: GPT and MBR have their own, any other is unknown. */
  function FirmwareFor(driveType: string): Option<string> {
    if driveType == "gpt" then Some(GptFirmware)
    else if driveType == "msdos" then Some(MbrFirmware)
    else None
  }

  /** Write the firmware to the drive when the firmware file exists. */
  function FirmwareRun(drive: string, driveType: string, env: Env): Run {
    match FirmwareFor(driveType)
    case None => Run(Died(UnknownFirmware), [])
    case Some(firm) =>
      if firm !in env.files then Run(Done, [])
      else if env.dd != 0 then Run(Died(FirmwareWriteFailed), [WriteFirmware(firm, drive)])
      else Run(Done, [WriteFirmware(firm, drive)])
  }

  /** `install_extlinux`: the five stages in order, stopping at the first that dies. */
  function ExtlinuxRun(path: string, drive: string, driveType: string, number: PyValue, ui: string, env: Env): Run
    requires driveType == "gpt" ==> number.PyStr?
  {
    Then(DirectoryRun(path, env),
    Then(ExtlinuxInstallRun(path, env),
    Then(CopyRun([MenuUi(ui), Libutil], 0, path, env),
    Then(BiosFlagRun(drive, driveType, number, env),
         FirmwareRun(drive, driveType, env)))))
  }

  // ---------------------------------------------------------------------------
  // What the install sequences promise

  predicate WritesFirmware(trace: seq<Command>) {
    exists k :: 0 <= k < |trace| && trace[k].WriteFirmware?
  }

  predicate SetsBiosFlag(trace: seq<Command>) {
    exists k :: 0 <= k < |trace| && trace[k].SetBiosBootable?
  }

  lemma ThenAssociative(a: Run, b: Run, c: Run)
    ensures Then(Then(a, b), c) == Then(a, Then(b, c))
  {
  }

  /** A command of a sequenced run comes from the first part, or from the second
      part once the first did not die. */
  lemma ThenMember(first: Run, next: Run, c: Command)
    requires c in Then(first, next).trace
    ensures c in first.trace || (!first.result.Died? && c in next.trace)
  {
  }

  /** Copying issues nothing but copies. */
  lemma {:induction false} CopyRunOnlyCopies(files: seq<string>, i: nat, path: string, env: Env)
    requires i <= |files|
    ensures forall c :: c in CopyRun(files, i, path, env).trace ==> c.CopyFile?
    ensures CopyRun(files, i, path, env).result == Done
            || (&& CopyRun(files, i, path, env).result.Died?
                && (CopyRun(files, i, path, env).result.reason.FileMissing?
                    || CopyRun(files, i, path, env).result.reason.CopyFailed?))
    decreases |files| - i
  {
    if i < |files| && files[i] in env.files && files[i] in env.copied {
      CopyRunOnlyCopies(files, i + 1, path, env);
    }
  }

  /** A GRUB 2 install without a drive dies before running anything; otherwise it
      runs grub2-install once and succeeds exactly when that returns 0. */
  lemma Grub2Properties(drive: string, env: Env)
    ensures drive == "" ==> Grub2Run(drive, env) == Run(Died(NoGrubDrive), [])
    ensures drive != "" ==> Grub2Run(drive, env).trace == [RunGrub2Install(drive)]
    ensures Grub2Run(drive, env).result == Done <==> drive != "" && env.grub2Install == Returned(0)
  {
  }

  /** Only the firmware of the drive's layout is ever written, only to the drive,
      only when the file exists; on GPT only after the bootable flag was set. */
  lemma {:induction false} FirmwareMatchesLayout(path: string, drive: string, driveType: string,
                                                 number: PyValue, ui: string, env: Env)
    requires driveType == "gpt" ==> number.PyStr?
    ensures forall c :: c in ExtlinuxRun(path, drive, driveType, number, ui, env).trace && c.WriteFirmware? ==>
              && FirmwareFor(driveType) == Some(c.firmware)
              && c.drive == drive
              && c.firmware in env.files
              && (driveType == "gpt" ==> env.setBootable == 0)
  {
    var dir, inst := DirectoryRun(path, env), ExtlinuxInstallRun(path, env);
    var copy := CopyRun([MenuUi(ui), Libutil], 0, path, env);
    var flag, firm := BiosFlagRun(drive, driveType, number, env), FirmwareRun(drive, driveType, env);
    CopyRunOnlyCopies([MenuUi(ui), Libutil], 0, path, env);
    forall c | c in ExtlinuxRun(path, drive, driveType, number, ui, env).trace && c.WriteFirmware?
      ensures FirmwareFor(driveType) == Some(c.firmware) && c.drive == drive && c.firmware in env.files
      ensures driveType == "gpt" ==> env.setBootable == 0
    {
      ThenMember(dir, Then(inst, Then(copy, Then(flag, firm))), c);
      ThenMember(inst, Then(copy, Then(flag, firm)), c);
      ThenMember(copy, Then(flag, firm), c);
      ThenMember(flag, firm, c);
      assert c in firm.trace;
    }
  }

  /** A layout other than gpt or msdos is fatal, and then neither the bootable flag
      nor any firmware is written. */
  lemma {:induction false} UnknownLayoutIsFatal(path: string, drive: string, driveType: string,
                                                number: PyValue, ui: string, env: Env)
    requires driveType != "gpt" && driveType != "msdos"
    ensures ExtlinuxRun(path, drive, driveType, number, ui, env).result.Died?
    ensures !WritesFirmware(ExtlinuxRun(path, drive, driveType, number, ui, env).trace)
    ensures !SetsBiosFlag(ExtlinuxRun(path, drive, driveType, number, ui, env).trace)
  {
    var files := [MenuUi(ui), Libutil];
    CopyRunOnlyCopies(files, 0, path, env);
    var run := ExtlinuxRun(path, drive, driveType, number, ui, env);
    forall k | 0 <= k < |run.trace| ensures !run.trace[k].WriteFirmware? && !run.trace[k].SetBiosBootable? {
      assert run.trace[k] in run.trace;
    }
  }

  /** On GPT, a failed bootable-flag toggle is fatal and no firmware is written. */
  lemma {:induction false} GptFlagFailureWritesNoFirmware(path: string, drive: string, number: PyValue,
                                                          ui: string, env: Env)
    requires number.PyStr?
    requires env.setBootable != 0
    ensures ExtlinuxRun(path, drive, "gpt", number, ui, env).result.Died?
    ensures !WritesFirmware(ExtlinuxRun(path, drive, "gpt", number, ui, env).trace)
  {
    var files := [MenuUi(ui), Libutil];
    CopyRunOnlyCopies(files, 0, path, env);
    var run := ExtlinuxRun(path, drive, "gpt", number, ui, env);
    forall k | 0 <= k < |run.trace| ensures !run.trace[k].WriteFirmware? {
      assert run.trace[k] in run.trace;
    }
  }

  /** A known layout whose firmware file is missing writes nothing and is not an error. */
  lemma {:induction false} MissingFirmwareIsSilent(path: string, drive: string, driveType: string,
                                                   number: PyValue, ui: string, env: Env)
    requires driveType == "gpt" ==> number.PyStr?
    requires FirmwareFor(driveType).Some? && FirmwareFor(driveType).value !in env.files
    ensures !WritesFirmware(ExtlinuxRun(path, drive, driveType, number, ui, env).trace)
    ensures ExtlinuxRun(path, drive, driveType, number, ui, env).result.Died? ==>
              ExtlinuxRun(path, drive, driveType, number, ui, env).result.reason !in {FirmwareWriteFailed, UnknownFirmware}
  {
    var files := [MenuUi(ui), Libutil];
    CopyRunOnlyCopies(files, 0, path, env);
    var run := ExtlinuxRun(path, drive, driveType, number, ui, env);
    forall k | 0 <= k < |run.trace| ensures !run.trace[k].WriteFirmware? {
      assert run.trace[k] in run.trace;
    }
  }

  /** An extlinux install that completes had a known layout, a working extlinux,
      both menu files, and on GPT a successful bootable-flag toggle. */
  lemma {:induction false} ExtlinuxDoneMeans(path: string, drive: string, driveType: string,
                                             number: PyValue, ui: string, env: Env)
    requires driveType == "gpt" ==> number.PyStr?
    requires ExtlinuxRun(path, drive, driveType, number, ui, env).result == Done
    ensures driveType == "gpt" || driveType == "msdos"
    ensures env.extlinuxInstall == Returned(0)
    ensures MenuUi(ui) in env.files && MenuUi(ui) in env.copied
    ensures Libutil in env.files && Libutil in env.copied
    ensures driveType == "gpt" ==> env.setBootable == 0
  {
    var files := [MenuUi(ui), Libutil];
    var copy := CopyRun(files, 0, path, env);
    CopyRunOnlyCopies(files, 0, path, env);
    assert copy.result == Done;
    assert files[0] in env.files && files[0] in env.copied;
    CopyRunOnlyCopies(files, 1, path, env);
    assert files[1] in env.files && files[1] in env.copied;
  }

  // ---------------------------------------------------------------------------
  // The Installer object

  class Installer {
    var grub2: bool                  // tools.is_grub2()
    var extlinux: bool               // tools.is_extlinux()
    var bootloader: Option<string>   // "grub2", "extlinux" or None
    var drive: string
    var path: string                 // tools.get_el_path()
    const elUi: string               // the configured extlinux menu module (config.el_ui)
    var driveNumber: PyValue
    var driveType: string

    /** The object as `__init__` leaves it once `get_boot_install` has chosen. */
    constructor(drive: string, grub2: bool, extlinux: bool, bootloader: Option<string>, path: string, elUi: string)
      ensures this.drive == drive && this.grub2 == grub2 && this.extlinux == extlinux
      ensures this.bootloader == bootloader && this.path == path && this.elUi == elUi
      ensures driveNumber == PyInt(-1) && driveType == "none"
    {
      this.grub2 := grub2;
      this.extlinux := extlinux;
      this.bootloader := bootloader;
      this.drive := drive;
      this.path := path;
      this.elUi := elUi;
      driveNumber := PyInt(-1);
      driveType := "none";
    }

    /** `__init__`: both flags die; otherwise a new Installer with partition number -1
        and layout "none", holding the chosen bootloader. */
    static method Create(drive: string, grub2: bool, extlinux: bool, path: string, elUi: string)
      returns (inst: Option<Installer>, died: Option<Reason>)
      ensures grub2 && extlinux ==> inst == None && died == Some(BothBootloaders)
      ensures !(grub2 && extlinux) ==> died == None && inst.Some?
      ensures inst.Some? ==>
                && fresh(inst.value)
                && inst.value.drive == drive && inst.value.path == path && inst.value.elUi == elUi
                && inst.value.driveNumber == PyInt(-1) && inst.value.driveType == "none"
                && inst.value.bootloader == (if grub2 then Some("grub2") else if extlinux then Some("extlinux") else None)
    {
      match GetBootInstall(grub2, extlinux)
      case BothRequested =>
        return None, Some(BothBootloaders);
      case Install(b) =>
        var i := new Installer(drive, grub2, extlinux, Some(b), path, elUi);
        return Some(i), None;
      case NoInstall =>
        var i := new Installer(drive, grub2, extlinux, None, path, elUi);
        return Some(i), None;
    }

    function GetDriveNumber(): PyValue reads this { driveNumber }
    function GetDriveType(): string reads this { driveType }
    function GetBootloader(): Option<string> reads this { bootloader }

    /** `set_drive_number`: only the partition number changes, and the getter returns it. */
    method SetDriveNumber(number: PyValue)
      modifies this`driveNumber
      ensures GetDriveNumber() == number
    {
      driveNumber := number;
    }

    /** `set_drive_type`: only the layout changes, and the getter returns it. */
    method SetDriveType(driveType: string)
      modifies this`driveType
      ensures GetDriveType() == driveType
    {
      this.driveType := driveType;
    }

    /** `set_bootloader`: only the bootloader changes, and the getter returns it. */
    method SetBootloader(bootloader: string)
      modifies this`bootloader
      ensures GetBootloader() == Some(bootloader)
    {
      this.bootloader := Some(bootloader);
    }

    /** `start`: "grub2" installs GRUB 2, "extlinux" installs extlinux, anything
        else warns and runs nothing. */
    method Start(env: Env) returns (result: InstallResult, trace: seq<Command>)
      requires bootloader == Some("extlinux") && driveType == "gpt" ==> driveNumber.PyStr?
      ensures bootloader == Some("grub2") ==> Run(result, trace) == Grub2Run(drive, env)
      ensures bootloader == Some("extlinux") ==>
                Run(result, trace) == ExtlinuxRun(path, drive, driveType, driveNumber, elUi, env)
      ensures bootloader != Some("grub2") && bootloader != Some("extlinux") ==> result == Skipped && trace == []
    {
      if bootloader == Some("grub2") {
        result, trace := InstallGrub2(env);
      } else if bootloader == Some("extlinux") {
        result, trace := InstallExtlinux(env);
      } else {
        result, trace := Skipped, [];
      }
    }

    /** `install_grub2`. */
    method InstallGrub2(env: Env) returns (result: InstallResult, trace: seq<Command>)
      ensures Run(result, trace) == Grub2Run(drive, env)
    {
      if drive == "" {
        return Died(NoGrubDrive), [];
      }
      trace := [RunGrub2Install(drive)];
      match env.grub2Install
      case NotFound =>
        result := Died(GrubMissing);
      case Returned(code) =>
        result := if code == 0 then Done else Died(GrubFailed);
    }

    /** The copy loop of `install_extlinux`: each file must exist and must show up
        in the extlinux directory after the copy. */
    method CopyFiles(elFiles: seq<string>, env: Env) returns (result: InstallResult, trace: seq<Command>)
      ensures Run(result, trace) == CopyRun(elFiles, 0, path, env)
    {
      trace := [];
      var i := 0;
      while i < |elFiles|
        invariant 0 <= i <= |elFiles|
        invariant CopyRun(elFiles, 0, path, env) == Then(Run(Done, trace), CopyRun(elFiles, i, path, env))
      {
        if elFiles[i] in env.files {
          trace := trace + [CopyFile(elFiles[i], path)];
          if elFiles[i] !in env.copied {
            return Died(CopyFailed(elFiles[i])), trace;
          }
        } else {
          assert trace + [] == trace;
          return Died(FileMissing(elFiles[i])), trace;
        }
        i := i + 1;
      }
      assert trace + [] == trace;
      result := Done;
    }

    /** `install_extlinux`, step by step. */
    method InstallExtlinux(env: Env) returns (result: InstallResult, trace: seq<Command>)
      requires driveType == "gpt" ==> driveNumber.PyStr?
      ensures Run(result, trace) == ExtlinuxRun(path, drive, driveType, driveNumber, elUi, env)
    {
      trace := [];
      // Make the directory to install extlinux in
      if !env.pathExists {
        trace := trace + [MakeDirs(path)];
        if !env.pathCreated {
          return Died(CannotCreateDirectory), trace;
        }
      }
      // Install extlinux to the directory
      trace := trace + [RunExtlinuxInstall(path)];
      match env.extlinuxInstall
      case NotFound =>
        return Died(ExtlinuxMissing), trace;
      case Returned(code) =>
        if code != 0 {
          return Died(ExtlinuxFailed), trace;
        }
      ghost var beforeCopies := trace;
      assert Then(DirectoryRun(path, env), ExtlinuxInstallRun(path, env)) == Run(Done, beforeCopies);
      // Copy the menu module and libutil.c32
      var copyResult, copied := CopyFiles([MenuUi(elUi), Libutil], env);
      trace := trace + copied;
      if copyResult.Died? {
        return copyResult, trace;
      }
      ghost var whole := ExtlinuxRun(path, drive, driveType, driveNumber, elUi, env);
      ghost var rest := Then(BiosFlagRun(drive, driveType, driveNumber, env), FirmwareRun(drive, driveType, env));
      ThenAssociative(DirectoryRun(path, env), ExtlinuxInstallRun(path, env),
                      Then(CopyRun([MenuUi(elUi), Libutil], 0, path, env), rest));
      ThenAssociative(Run(Done, beforeCopies), CopyRun([MenuUi(elUi), Libutil], 0, path, env), rest);
      assert whole == Then(Run(Done, trace), rest);
      // GPT: toggle the legacy BIOS bootable flag
      var firm := "";
      if driveType == "gpt" {
        firm := GptFirmware;
        trace := trace + [SetBiosBootable(drive, driveNumber.s)];
        if env.setBootable == 0 {
          trace := trace + [ShowAttributes(drive, driveNumber.s)];
        } else {
          return Died(BiosFlagFailed), trace;
        }
      } else if driveType == "msdos" {
        firm := MbrFirmware;
      }
      assert whole == Then(Run(Done, trace), FirmwareRun(drive, driveType, env));
      // Write the firmware to the drive
      if driveType == "gpt" || driveType == "msdos" {
        if firm in env.files {
          trace := trace + [WriteFirmware(firm, drive)];
          if env.dd != 0 {
            return Died(FirmwareWriteFailed), trace;
          }
        }
      } else {
        return Died(UnknownFirmware), trace;
      }
      result := Done;
    }
  }
}
