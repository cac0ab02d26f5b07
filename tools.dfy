/** Argument scanning, identifier mapping and colouring of `libs/Tools.py`.

    `Tools` keeps two class-level fields, `_outputFile` and `_force`, that
    `ProcessArguments` sets while it scans the command line from left to right.
    The running user (the output of `whoami`) and the UUID/PARTUUID lookup
    (the output of `blkid | grep | cut`) are inputs. */
module CliTools {
  import opened Outcomes
  import opened PyText

  // ---------------------------------------------------------------------------
  // Flags

  predicate IsOutputFlag(a: string) { a == "-o" || a == "--output" }
  predicate IsForceFlag(a: string) { a == "-f" || a == "--force" }
  predicate IsHelpFlag(a: string) { a == "-h" || a == "--help" }

  /** One of the six strings the program recognises as a flag. */
  predicate IsOption(a: string) { IsOutputFlag(a) || IsForceFlag(a) || IsHelpFlag(a) }

  /** `Tools._options`: one row per flag, short form then long form. */
  const Options: seq<seq<string>> := [["-o", "--output"], ["-f", "--force"], ["-h", "--help"]]

  // ---------------------------------------------------------------------------
  // The argument scan, one argument at a time

  /** The two class-level fields the scan can set. */
  datatype ArgState = ArgState(outputFile: string, force: int)

  /** Where the scan stands: still going, or ended by `quit(code)`. */
  datatype Scan = Running(state: ArgState) | Halted(code: int, state: ArgState)

  /** Argument `i` names an output file: `-o`/`--output` followed by a non-flag. */
  predicate SetsOutput(args: seq<string>, i: int)
    requires 0 <= i < |args|
  {
    IsOutputFlag(args[i]) && i + 1 < |args| && !IsOption(args[i + 1])
  }

  /** Argument `i` ends the run: a help flag (usage, then `quit()`), or an
      output flag with nothing after it (`Fail`, that is `quit(1)`). */
  predicate StopsAt(args: seq<string>, i: int)
    requires 0 <= i < |args|
  {
    IsHelpFlag(args[i]) || (IsOutputFlag(args[i]) && i + 1 == |args|)
  }

  /** The effect of the loop body on argument `i`. */
  function Step(args: seq<string>, i: int, st: ArgState): Scan
    requires 0 <= i < |args|
  {
    if IsOutputFlag(args[i]) then
      if i + 1 < |args| then
        if !IsOption(args[i + 1]) then Running(st.(outputFile := args[i + 1])) else Running(st)
      else Halted(1, st)
    else if IsForceFlag(args[i]) then Running(st.(force := 1))
    else if IsHelpFlag(args[i]) then Halted(0, st)
    else Running(st)
  }

  /** The scan of the first `n` arguments, starting from the fields `st`. */
  function ScanPrefix(args: seq<string>, n: int, st: ArgState): Scan
    requires 0 <= n <= |args|
  {
    if n == 0 then Running(st)
    else match ScanPrefix(args, n - 1, st)
      case Running(s) => Step(args, n - 1, s)
      case Halted(c, s) => Halted(c, s)
  }

  /** The scan ends early exactly when some argument stops it, and then with the
      exit status of the first such argument: 0 for help, 1 for a dangling output flag. */
  lemma {:induction false} ScanHaltsAtFirstStop(args: seq<string>, n: int, st: ArgState)
    requires 0 <= n <= |args|
    ensures ScanPrefix(args, n, st).Halted? <==> exists j :: 0 <= j < n && StopsAt(args, j)
    ensures ScanPrefix(args, n, st).Halted? ==>
              exists j :: 0 <= j < n && StopsAt(args, j)
                          && (forall k :: 0 <= k < j ==> !StopsAt(args, k))
                          && ScanPrefix(args, n, st).code == (if IsHelpFlag(args[j]) then 0 else 1)
  {
    if n > 0 {
      ScanHaltsAtFirstStop(args, n - 1, st);
      if ScanPrefix(args, n - 1, st).Running? {
        assert forall k :: 0 <= k < n - 1 ==> !StopsAt(args, k);
        if StopsAt(args, n - 1) {
          assert ScanPrefix(args, n, st).Halted?;
          assert ScanPrefix(args, n, st).code == (if IsHelpFlag(args[n - 1]) then 0 else 1);
        } else {
          assert ScanPrefix(args, n, st).Running?;
          assert forall k :: 0 <= k < n ==> !StopsAt(args, k);
        }
      }
    }
  }

  /** Once the scan has stopped, later arguments change nothing. */
  lemma {:induction false} ScanHaltedStays(args: seq<string>, i: int, n: int, st: ArgState)
    requires 0 <= i <= n <= |args|
    requires ScanPrefix(args, i, st).Halted?
    ensures ScanPrefix(args, n, st) == ScanPrefix(args, i, st)
  {
    if n > i {
      ScanHaltedStays(args, i, n - 1, st);
    }
  }

  /** Of several output flags with a value, the last one wins; output flags
      followed by a flag change nothing. */
  lemma {:induction false} ScanLastOutputWins(args: seq<string>, n: int, st: ArgState)
    requires 0 <= n <= |args|
    requires ScanPrefix(args, n, st).Running?
    ensures (forall j :: 0 <= j < n ==> !SetsOutput(args, j)) ==>
              ScanPrefix(args, n, st).state.outputFile == st.outputFile
    ensures forall j :: 0 <= j < n && SetsOutput(args, j) && (forall k :: j < k < n ==> !SetsOutput(args, k)) ==>
              ScanPrefix(args, n, st).state.outputFile == args[j + 1]
  {
    if n > 0 {
      var before := ScanPrefix(args, n - 1, st);
      assert before.Running?;
      ScanLastOutputWins(args, n - 1, st);
      var now := ScanPrefix(args, n, st).state.outputFile;
      assert now == if SetsOutput(args, n - 1) then args[n] else before.state.outputFile;
      forall j | 0 <= j < n && SetsOutput(args, j) && (forall k :: j < k < n ==> !SetsOutput(args, k))
        ensures now == args[j + 1]
      {
        if j < n - 1 {
          assert !SetsOutput(args, n - 1);
          assert forall k :: j < k < n - 1 ==> !SetsOutput(args, k);
        }
      }
    }
  }

  /** `-f`/`--force` sets the force field to 1 and nothing sets it back. */
  lemma {:induction false} ScanForceSticky(args: seq<string>, n: int, st: ArgState)
    requires 0 <= n <= |args|
    requires ScanPrefix(args, n, st).Running?
    ensures ScanPrefix(args, n, st).state.force
            == if exists j :: 0 <= j < n && IsForceFlag(args[j]) then 1 else st.force
  {
    if n > 0 {
      ScanForceSticky(args, n - 1, st);
      assert IsForceFlag(args[n - 1]) ==> exists j :: 0 <= j < n && IsForceFlag(args[j]);
    }
  }

  // ---------------------------------------------------------------------------
  // Identifiers

  /** The two identifier kinds `MapIdentifierToDrive` looks for among the pieces. */
  predicate IsIdKind(t: string) { t == "UUID" || t == "PARTUUID" }

  /** The position of the first identifier kind among `parts`, or `|parts|` when there is none. */
  function FirstIdKind(parts: seq<string>): (j: nat)
    ensures j <= |parts|
    ensures forall k :: 0 <= k < j ==> !IsIdKind(parts[k])
    ensures j < |parts| ==> IsIdKind(parts[j])
  {
    if parts == [] then 0
    else if IsIdKind(parts[0]) then 0
    else 1 + FirstIdKind(parts[1..])
  }

  /** What the lookup of the token after the first identifier kind gives:
      the drive it finds, or `Fail` when it finds none. */
  function Resolve(parts: seq<string>, lookup: (string, string) -> string): Outcome<string>
  {
    var j := FirstIdKind(parts);
    if j == |parts| then Ok("")
    else if j + 1 == |parts| then Stop(Raised(IndexError))
    else if lookup(parts[j], parts[j + 1]) == "" then Stop(Exit(1))
    else Ok(lookup(parts[j], parts[j + 1]))
  }

  // ---------------------------------------------------------------------------
  // Colours

  predicate IsKnownColor(c: string) {
    c == "red" || c == "yellow" || c == "green" || c == "cyan" || c == "purple" || c == "none"
  }

  /** The escape that opens a colour. Python keeps the unknown escape `\e` as a
      backslash followed by `e`; `echo -e` turns it into ESC later. */
  function ColorStart(c: string): string
    requires IsKnownColor(c) && c != "none"
  {
    if c == "red" then "\\e[1;31m"
    else if c == "yellow" then "\\e[1;33m"
    else if c == "green" then "\\e[1;32m"
    else if c == "cyan" then "\\e[1;36m"
    else "\\e[1;34m"
  }

  const ColorEnd: string := "\\e[0;m"

  // ---------------------------------------------------------------------------
  // The Tools class

  class Tools {
    var force: int           // Tools._force
    var outputFile: string   // Tools._outputFile

    constructor()
      ensures force == 0 && outputFile == ""
    {
      force, outputFile := 0, "";
    }

    function State(): ArgState
      reads this
    {
      ArgState(outputFile, force)
    }

    /** `IsFlag`: 0 when `p` is in the option table, -1 otherwise. */
    static method IsFlag(p: string) returns (r: int)
      ensures r == 0 || r == -1
      ensures r == 0 <==> IsOption(p)
    {
      var i := 0;
      while i < |Options|
        invariant 0 <= i <= |Options|
        invariant forall a, b :: 0 <= a < i && 0 <= b < |Options[a]| ==> Options[a][b] != p
      {
        var j := 0;
        while j < |Options[i]|
          invariant 0 <= j <= |Options[i]|
          invariant forall b :: 0 <= b < j ==> Options[i][b] != p
        {
          if Options[i][j] == p {
            return 0;
          }
          j := j + 1;
        }
        i := i + 1;
      }
      assert Options[0][0] != p && Options[0][1] != p;
      assert Options[1][0] != p && Options[1][1] != p;
      assert Options[2][0] != p && Options[2][1] != p;
      return -1;
    }

    /** `ProcessArguments`: a non-root user fails at once; otherwise the arguments
        are scanned left to right and the fields end as the scan leaves them. */
    method ProcessArguments(user: string, arguments: seq<string>) returns (r: Outcome<()>)
      modifies this
      ensures user != "root" ==> r == Stop(Exit(1)) && State() == old(State())
      ensures user == "root" ==>
                match ScanPrefix(arguments, |arguments|, old(State()))
                case Running(s) => r == Ok(()) && State() == s
                case Halted(c, s) => r == Stop(Exit(c)) && State() == s
    {
      if user != "root" {
        return Stop(Exit(1));
      }
      var i := 0;
      while i < |arguments|
        invariant 0 <= i <= |arguments|
        invariant ScanPrefix(arguments, i, old(State())) == Running(State())
      {
        if arguments[i] == "-o" || arguments[i] == "--output" {
          if i + 1 < |arguments| {
            var flag := IsFlag(arguments[i + 1]);
            if flag != 0 {
              outputFile := arguments[i + 1];
            }
          } else {
            ScanHaltedStays(arguments, i + 1, |arguments|, old(State()));
            return Stop(Exit(1));
          }
        } else if arguments[i] == "-f" || arguments[i] == "--force" {
          force := 1;
        } else if arguments[i] == "-h" || arguments[i] == "--help" {
          ScanHaltedStays(arguments, i + 1, |arguments|, old(State()));
          return Stop(Exit(0));
        }
        i := i + 1;
      }
      r := Ok(());
    }

    /** `GetDriveFromIdentifier`: `found` is the stripped output of the blkid query. */
    static method GetDriveFromIdentifier(kind: string, value: string, lookup: (string, string) -> string)
      returns (r: Outcome<string>)
      ensures r.Ok? <==> lookup(kind, value) != ""
      ensures r.Ok? ==> r.value == lookup(kind, value)
      ensures !r.Ok? ==> r == Stop(Exit(1))
    {
      var results := lookup(kind, value);
      if results != "" {
        return Ok(results);
      }
      return Stop(Exit(1));
    }

    /** `MapIdentifierToDrive` as written. A value without `=` is returned as it is,
        except the bare words `UUID` and `PARTUUID`, whose missing token raises.
        A value with `=` goes to the lookup of the token after the first
        `UUID`/`PARTUUID` piece, and yields "" when there is no such piece. */
    static method MapIdentifierToDrive(value: string, lookup: (string, string) -> string)
      returns (r: Outcome<string>)
      ensures '=' !in value && !IsIdKind(value) ==> r == Ok(value)
      ensures IsIdKind(value) ==> r == Stop(Raised(IndexError))
      ensures '=' in value ==> r == Resolve(Split(value, '='), lookup)
    {
      var splitResults := Split(value, '=');
      var targetDrive := "";
      var i := 0;
      while i < |splitResults|
        invariant 0 <= i <= |splitResults|
        invariant forall k :: 0 <= k < i ==> !IsIdKind(splitResults[k])
      {
        if splitResults[i] == "UUID" || splitResults[i] == "PARTUUID" {
          if i + 1 >= |splitResults| {
            if '=' !in value {
              SplitNoSeparator(value, '=');
            }
            return Stop(Raised(IndexError));
          }
          assert FirstIdKind(splitResults) == i;
          if '=' !in value {
            SplitNoSeparator(value, '=');
          }
          targetDrive :- GetDriveFromIdentifier(splitResults[i], splitResults[i + 1], lookup);
          break;
        }
        i := i + 1;
      }
      ConcatSplitIsIdentity(value, '=');
      if '=' !in value {
        SplitNoSeparator(value, '=');
      }
      if value == Concat(splitResults) {
        targetDrive := value;
      }
      r := Ok(targetDrive);
    }

    /** `MapIdentifierToDrive` as its comment intends: a value without `=` is a
        device path and is returned as it is; values with `=` as above. */
    static method MapIdentifierToDriveIntended(value: string, lookup: (string, string) -> string)
      returns (r: Outcome<string>)
      ensures '=' !in value ==> r == Ok(value)
      ensures '=' in value ==> r == Resolve(Split(value, '='), lookup)
    {
      var splitResults := Split(value, '=');
      ConcatSplitIsIdentity(value, '=');
      if value == Concat(splitResults) {
        return Ok(value);
      }
      var targetDrive := "";
      var i := 0;
      while i < |splitResults|
        invariant 0 <= i <= |splitResults|
        invariant forall k :: 0 <= k < i ==> !IsIdKind(splitResults[k])
      {
        if splitResults[i] == "UUID" || splitResults[i] == "PARTUUID" {
          if i + 1 >= |splitResults| {
            return Stop(Raised(IndexError));
          }
          assert FirstIdKind(splitResults) == i;
          targetDrive :- GetDriveFromIdentifier(splitResults[i], splitResults[i + 1], lookup);
          break;
        }
        i := i + 1;
      }
      r := Ok(targetDrive);
    }

    /** `Colorize`: "none" leaves the message alone; a colour wraps it between its
        opening escape and the reset escape, so the message can be read back. */
    static function Colorize(color: string, message: string): (r: string)
      requires IsKnownColor(color)
      ensures color == "none" ==> r == message
      ensures color != "none" ==>
                |r| == |message| + 14 && r[..8] == ColorStart(color)
                && r[8..|r| - 6] == message && r[|r| - 6..] == ColorEnd
    {
      if color == "none" then message else ColorStart(color) + message + ColorEnd
    }

    /** `IsOutputSet`: 1 exactly when an output file was given, else 0. */
    function IsOutputSet(): (r: int)
      reads this
      ensures r == 0 || r == 1
      ensures r == 1 <==> outputFile != ""
    {
      if outputFile != "" then 1 else 0
    }

    /** `GetOutputFile`: the output path as the scan left it. */
    function GetOutputFile(): (path: string)
      reads this
      ensures path == outputFile
    {
      outputFile
    }

    /** `IsForceSet`: the force field as the scan left it. */
    function IsForceSet(): (f: int)
      reads this
      ensures f == force
    {
      force
    }
  }
}
