/** Kernel discovery of `libs/Scanner.py`.

    `find_kernels` lists the kernel directory and adds every stripped line of
    the listing to a set held by the Scanner class itself, so every Scanner
    shares it and it only ever grows. The listing (the output of `ls`) is an
    input here. */
module KernelScanner {
  import opened PyText

  /** The set of stripped lines of a listing. */
  function StrippedLines(lines: seq<string>): (s: set<string>)
    ensures forall i :: 0 <= i < |lines| ==> Strip(lines[i]) in s
    ensures forall x :: x in s ==> exists i :: 0 <= i < |lines| && Strip(lines[i]) == x
  {
    if lines == [] then {}
    else StrippedLines(lines[..|lines| - 1]) + {Strip(lines[|lines| - 1])}
  }

  /** Lines that strip to the same name collapse: there are never more kernels than lines. */
  lemma {:induction false} StrippedLinesAtMostLines(lines: seq<string>)
    ensures |StrippedLines(lines)| <= |lines|
  {
    if lines != [] {
      StrippedLinesAtMostLines(lines[..|lines| - 1]);
    }
  }

  /** A listing read twice over yields the same names as read once. */
  lemma StrippedLinesRepeated(lines: seq<string>)
    ensures StrippedLines(lines + lines) == StrippedLines(lines)
  {
    var both := lines + lines;
    forall x | x in StrippedLines(both) ensures x in StrippedLines(lines) {
      var i :| 0 <= i < |both| && Strip(both[i]) == x;
      if i >= |lines| {
        assert both[i] == lines[i - |lines|];
      }
    }
    forall x | x in StrippedLines(lines) ensures x in StrippedLines(both) {
      var i :| 0 <= i < |lines| && Strip(lines[i]) == x;
      assert both[i] == lines[i];
    }
  }

  /** The class attribute `Scanner.__kernels`: one set, shared by every Scanner. */
  class KernelPool {
    var members: set<string>

    constructor()
      ensures members == {}
    {
      members := {};
    }
  }

  class Scanner {
    const pool: KernelPool

    /** A new Scanner sees the class-level set; it does not get a set of its own. */
    constructor(pool: KernelPool)
      ensures this.pool == pool
    {
      this.pool := pool;
    }

    /** `find_kernels`: every stripped line of the listing joins the shared set and
        nothing leaves it; an empty listing changes nothing. */
    method FindKernels(listing: seq<string>)
      modifies pool
      ensures pool.members == old(pool.members) + StrippedLines(listing)
    {
      if |listing| > 0 {
        var i := 0;
        while i < |listing|
          invariant 0 <= i <= |listing|
          invariant pool.members == old(pool.members) + StrippedLines(listing[..i])
        {
          pool.members := pool.members + {Strip(listing[i])};
          assert listing[..i + 1][..i] == listing[..i];
          i := i + 1;
        }
        assert listing[..|listing|] == listing;
      }
    }

    /** `get_kernels`: the shared set itself. */
    function GetKernels(): (ks: set<string>)
      reads pool
      ensures ks == pool.members
    {
      pool.members
    }
  }

  /** Scanners built on the class attribute see each other's discoveries: what one
      Scanner finds, any other Scanner on the same set reports, on top of what was there. */
  method ScannersShareKernels(finder: Scanner, other: Scanner, listing: seq<string>)
    requires finder.pool == other.pool
    modifies finder.pool
    ensures other.GetKernels() == old(other.GetKernels()) + StrippedLines(listing)
  {
    finder.FindKernels(listing);
  }
}
