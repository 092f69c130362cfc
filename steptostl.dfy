/**
 * The STEP to STL converter script: the checks and the choice of output
 * path in its main routine, with the OpenCASCADE reader, mesher and writer
 * reduced to the status each reports.
 *
 * Paths are texts in the form pathlib prints them (no trailing slash, no
 * doubled separator, no `.` component other than the path `.` itself), so
 * `str(Path(p)) == p`; the slash is the separator.
 */
module StepToStl {
  import opened Common

  /** The position of the last `c` in `s`, or -1. */
  function LastIndex(s: string, c: char): (i: int)
    ensures -1 <= i < |s|
    ensures i >= 0 ==> s[i] == c
    ensures forall j :: i < j < |s| ==> s[j] != c
  {
    if |s| == 0 then -1
    else if s[|s| - 1] == c then |s| - 1
    else LastIndex(s[..|s| - 1], c)
  }

  lemma {:induction false} LastIndexAppend(a: string, b: string, c: char)
    requires c in b
    ensures LastIndex(a + b, c) == |a| + LastIndex(b, c)
    decreases |b|
  {
    if b[|b| - 1] != c {
      var b' := b[..|b| - 1];
      assert c in b' by {
        var k :| 0 <= k < |b| && b[k] == c;
        assert b'[k] == c;
      }
      assert (a + b)[..|a + b| - 1] == a + b';
      LastIndexAppend(a, b', c);
    }
  }

  /** Where the last component of `p` starts: after the last separator (past the end for `.`). */
  function NameStart(p: string): (k: nat)
    ensures k <= |p|
    ensures 0 < k ==> p[k - 1] == '/' || p == "."
  {
    if p == "." then 1 else LastIndex(p, '/') + 1
  }

  /** `Path(p).name`: the last component, empty for `.` and for the root. */
  function Name(p: string): (n: string)
    ensures '/' !in n
  {
    if p == "." then "" else p[NameStart(p)..]
  }

  /** The path up to its last component, separator included. */
  function Parent(p: string): string
  {
    p[..NameStart(p)]
  }

  /** `Path(p).suffix`: from the last dot of the name, unless that dot opens or ends it. */
  function Suffix(name: string): (s: string)
    ensures |s| <= |name| && s == name[|name| - |s|..]
    ensures s != "" ==> |s| < |name| && s[0] == '.' && '.' !in s[1..]
  {
    var i := LastIndex(name, '.');
    if 0 < i < |name| - 1 then name[i..] else ""
  }

  /** `Path(p).stem`: the name without its suffix. */
  function Stem(name: string): string
  {
    name[..|name| - |Suffix(name)|]
  }

  function LowerChar(c: char): char
  {
    if 'A' <= c <= 'Z' then (c as int + 32) as char else c
  }

  /**
   * `s.lower()` as far as the suffix test can see: no character outside
   * ASCII lowers to one of the letters of `.step` or `.stp`.
   */
  function Lower(s: string): (r: string)
    ensures |r| == |s| && forall i :: 0 <= i < |s| ==> r[i] == LowerChar(s[i])
  {
    if |s| == 0 then "" else [LowerChar(s[0])] + Lower(s[1..])
  }

  /** The suffixes taken for STEP files, in any case. */
  predicate IsStepSuffix(suffix: string)
  {
    Lower(suffix) == ".step" || Lower(suffix) == ".stp"
  }

  /** The exceptions the script can end with. */
  datatype StlError = RuntimeError(message: string) | ValueError(message: string)

  /** `Path(p).with_suffix(".stl")`: the last suffix replaced, or `.stl` appended; a path with no name raises ValueError with the path's `repr`. */
  function WithStlSuffix(p: string): (r: Result<string, StlError>)
    ensures r.Err? <==> Name(p) == ""
    ensures r.Err? ==> r.error == ValueError("PosixPath('" + p + "') has an empty name")
  {
    var name := Name(p);
    if name == "" then Err(ValueError("PosixPath('" + p + "') has an empty name"))
    else Ok(Parent(p) + (Stem(name) + ".stl"))
  }

  lemma StemNonEmpty(name: string)
    requires name != ""
    ensures Stem(name) != ""
  {
  }

  /** The last `c` is at `k` when `k` holds one and nothing after it does. */
  lemma LastIndexAt(s: string, c: char, k: int)
    requires 0 <= k < |s| && s[k] == c
    requires forall j :: k < j < |s| ==> s[j] != c
    ensures LastIndex(s, c) == k
  {
  }

  /** The name of a path whose last separator is at the end of `dir` is what follows. */
  lemma NameAfter(dir: string, leaf: string)
    requires dir == "" || dir[|dir| - 1] == '/'
    requires '/' !in leaf && leaf != "."
    ensures NameStart(dir + leaf) == |dir| && Name(dir + leaf) == leaf && Parent(dir + leaf) == dir
  {
    var p := dir + leaf;
    assert forall j :: |dir| <= j < |p| ==> p[j] == leaf[j - |dir|];
    if dir != "" {
      LastIndexAt(p, '/', |dir| - 1);
    }
    assert p[|dir|..] == leaf;
  }

  lemma ParentEndsInSep(p: string)
    requires p != "."
    ensures Parent(p) == "" || Parent(p)[|Parent(p)| - 1] == '/'
  {
  }

  /** A name made of a non-empty stem and `.stl` has that stem and that suffix. */
  lemma StlLeaf(stem: string)
    requires stem != ""
    ensures Suffix(stem + ".stl") == ".stl" && Stem(stem + ".stl") == stem
  {
    var leaf := stem + ".stl";
    LastIndexAt(leaf, '.', |stem|);
    assert leaf[|stem|..] == ".stl";
    assert leaf[..|leaf| - 4] == stem;
  }

  /** A path other than `.` is its parent followed by its name. */
  lemma ParentName(p: string)
    requires p != "."
    ensures p == Parent(p) + Name(p)
  {
  }

  /** Replacing the last `|suffix|` characters of `p == dir + name` by `ext`, as sequences. */
  lemma Regroup(p: string, dir: string, name: string, stem: string, suffix: string, ext: string)
    requires p == dir + name && |suffix| <= |name| && stem == name[..|name| - |suffix|]
    ensures suffix == "" ==> dir + (stem + ext) == p + ext
    ensures dir + (stem + ext) == p[..|p| - |suffix|] + ext
  {
    assert dir + stem == p[..|p| - |suffix|];
  }

  /**
   * The default output keeps the directory and the stem of the input and
   * has the suffix `.stl`.
   */
  lemma WithStlSuffixParts(p: string)
    requires Name(p) != ""
    ensures var r := WithStlSuffix(p).value;
            Parent(r) == Parent(p) && Stem(Name(r)) == Stem(Name(p)) && Suffix(Name(r)) == ".stl"
  {
    var name := Name(p);
    var stem := Stem(name);
    var dir := Parent(p);
    var leaf := stem + ".stl";
    StemNonEmpty(name);
    ParentEndsInSep(p);
    assert '/' !in leaf by { assert stem == name[..|stem|]; }
    assert |leaf| == |stem| + 4;
    assert leaf != ".";
    NameAfter(dir, leaf);
    StlLeaf(stem);
  }

  /** The input's last suffix is replaced by `.stl`, or `.stl` is appended when it has none. */
  lemma WithStlSuffixReplaces(p: string)
    requires Name(p) != ""
    ensures Suffix(Name(p)) == "" ==> WithStlSuffix(p) == Ok(p + ".stl")
    ensures WithStlSuffix(p) == Ok(p[..|p| - |Suffix(Name(p))|] + ".stl")
  {
    var name := Name(p);
    ParentName(p);
    Regroup(p, Parent(p), name, Stem(name), Suffix(name), ".stl");
  }

  // ---------------------------------------------------------------------
  // The conversion.
  // ---------------------------------------------------------------------

  /** What `ReadFile` reports. */
  datatype ReadStatus = RetVoid | RetDone | RetError | RetFail | RetStop

  /** How a run ends: an exit status, an uncaught exception, or the STL written. */
  datatype Ending = Exit(code: int, message: string) | Raised(error: StlError) | Converted(output: string)

  /** What a run prints on standard error before it goes on, and how it ends. */
  datatype Conversion = Conversion(warning: Option<string>, ending: Ending)

  /** The output path: an output argument that is not empty, else the input with the suffix `.stl`. */
  function OutputPath(input: string, output: Option<string>): (r: Result<string, StlError>)
    ensures output.Some? && output.value != "" ==> r == Ok(output.value)
    ensures output.None? || output.value == "" ==> r == WithStlSuffix(input)
  {
    if output.Some? && output.value != "" then Ok(output.value) else WithStlSuffix(input)
  }

  /** `read_step`: anything but a completed read raises. */
  function ReadStep(filepath: string, status: ReadStatus): Option<StlError>
  {
    if status != RetDone then Some(RuntimeError("Impossibile leggere il file STEP: " + filepath)) else None
  }

  /** `write_stl`: a mesh that is not done, or a writer that fails, raises. */
  function WriteStl(filepath: string, meshDone: bool, written: bool): Option<StlError>
  {
    if !meshDone then Some(RuntimeError("Errore durante la generazione della mesh."))
    else if !written then Some(RuntimeError("Impossibile scrivere il file STL: " + filepath))
    else None
  }

  /**
   * `main`, given whether the input exists, what the reader reports, whether
   * meshing completes and whether the writer succeeds.
   */
  function Convert(input: string, output: Option<string>, inputExists: bool,
                   status: ReadStatus, meshDone: bool, written: bool): (c: Conversion)
    ensures !inputExists ==> c == Conversion(None, Exit(1, "Errore: il file '" + input + "' non esiste."))
    ensures inputExists ==> (c.warning.None? <==> IsStepSuffix(Suffix(Name(input))))
    ensures c.ending.Converted? <==>
              inputExists && OutputPath(input, output).Ok? && status == RetDone && meshDone && written
    ensures c.ending.Converted? ==> c.ending.output == OutputPath(input, output).value
    ensures inputExists && OutputPath(input, output).Err? ==> c.ending == Raised(OutputPath(input, output).error)
    ensures inputExists && !IsStepSuffix(Suffix(Name(input))) ==>
              c.warning == Some("Attenzione: il file '" + Name(input) + "' non ha estensione .step/.stp.")
    ensures inputExists && OutputPath(input, output).Ok? && status != RetDone ==>
              c.ending == Raised(RuntimeError("Impossibile leggere il file STEP: " + input))
    ensures inputExists && OutputPath(input, output).Ok? && status == RetDone && !meshDone ==>
              c.ending == Raised(RuntimeError("Errore durante la generazione della mesh."))
    ensures inputExists && OutputPath(input, output).Ok? && status == RetDone && meshDone && !written ==>
              c.ending == Raised(RuntimeError("Impossibile scrivere il file STL: " + OutputPath(input, output).value))
  {
    if !inputExists then Conversion(None, Exit(1, "Errore: il file '" + input + "' non esiste."))
    else
      var name := Name(input);
      var warning :=
        if IsStepSuffix(Suffix(name)) then None
        else Some("Attenzione: il file '" + name + "' non ha estensione .step/.stp.");
      match OutputPath(input, output)
      case Err(e) => Conversion(warning, Raised(e))
      case Ok(out) =>
        match ReadStep(input, status)
        case Some(e) => Conversion(warning, Raised(e))
        case None =>
          match WriteStl(out, meshDone, written)
          case Some(e) => Conversion(warning, Raised(e))
          case None => Conversion(warning, Converted(out))
  }

  /** A missing input ends the run before the reader or the writer is consulted. */
  lemma MissingInputFirst(input: string, output: Option<string>,
                          s1: ReadStatus, m1: bool, w1: bool, s2: ReadStatus, m2: bool, w2: bool)
    ensures Convert(input, output, false, s1, m1, w1) == Convert(input, output, false, s2, m2, w2)
    ensures Convert(input, output, false, s1, m1, w1).ending.Exit?
  {
  }

  /** The suffix test ignores case. */
  lemma StepSuffixCase()
    ensures IsStepSuffix(".STEP") && IsStepSuffix(".Stp") && IsStepSuffix(".step")
    ensures !IsStepSuffix(".stl") && !IsStepSuffix("")
  {
    assert Lower(".STEP") == ".step";
    assert Lower(".Stp") == ".stp";
    assert Lower(".stl")[2] == 't';
  }

  /** Only the last suffix is replaced. */
  lemma LastSuffixReplaced()
    ensures WithStlSuffix("archive.tar.gz") == Ok("archive.tar.stl")
  {
    var p := "archive.tar.gz";
    LastIndexAt(p, '.', 11);
    assert LastIndex(p, '/') == -1;
    assert Name(p) == p;
    assert Suffix(p) == ".gz";
    WithStlSuffixReplaces(p);
    assert p[..|p| - 3] == "archive.tar";
    assert "archive.tar" + ".stl" == "archive.tar.stl";
  }

  /** A name that starts with its only dot has no suffix, so `.stl` is appended. */
  lemma HiddenNameAppended()
    ensures WithStlSuffix(".step") == Ok(".step.stl")
  {
    var p := ".step";
    LastIndexAt(p, '.', 0);
    assert LastIndex(p, '/') == -1;
    assert Name(p) == p;
    assert Suffix(p) == "";
    WithStlSuffixReplaces(p);
    assert p + ".stl" == ".step.stl";
  }
}
