/** The pure part of the relay's `Compile.compile` (Server/Server.py): deciding whether a
    synchronised file is a C program to build, deriving the binary's folder name from its
    relative path, and assembling the gcc argument list. Running gcc is not modelled. */
module Compile {
  import opened Lists

  const LIBRARY_FLAG: string := "-lwallaby"
  const BINARY_FILE: string := "/botball_user_program"

  /** Python's `s.endswith(suffix)`. */
  predicate EndsWith(s: string, suffix: string) {
    |suffix| <= |s| && s[|s| - |suffix|..] == suffix
  }

  /** `"-".join(relpath.split("/"))`: the relative path with its folders flattened into one name. */
  function DashedName(relpath: string): (name: string)
    ensures '/' !in name
  {
    JoinAvoids(Split(relpath, '/'), "-", '/');
    Join(Split(relpath, '/'), "-")
  }

  /** Every character of `s`, with each '/' replaced by '-': the reference definition of `DashedName`. */
  function SlashesToDashes(s: string): (r: string)
    ensures |r| == |s|
    ensures forall i :: 0 <= i < |s| ==> r[i] == if s[i] == '/' then '-' else s[i]
  {
    if s == [] then [] else [if s[0] == '/' then '-' else s[0]] + SlashesToDashes(s[1..])
  }

  /** Splitting on '/' and joining with '-' replaces each slash by a dash and changes nothing else. */
  lemma {:induction false} DashedNameReplacesSlashes(s: string)
    ensures DashedName(s) == SlashesToDashes(s)
  {
    if s != [] {
      DashedNameReplacesSlashes(s[1..]);
      var rest := Split(s[1..], '/');
      if s[0] == '/' {
        assert Split(s, '/') == [[]] + rest;
        assert Join([[]] + rest, "-") == [] + "-" + Join(rest, "-");
      } else {
        var parts := [[s[0]] + rest[0]] + rest[1..];
        assert Split(s, '/') == parts;
        if |rest| == 1 {
          assert Join(parts, "-") == [s[0]] + rest[0];
        } else {
          assert parts[1..] == rest[1..];
          assert Join(parts, "-") == [s[0]] + rest[0] + "-" + Join(rest[1..], "-");
          assert Join(rest, "-") == rest[0] + "-" + Join(rest[1..], "-");
        }
      }
    }
  }

  /** Python's `s.rstrip(chars)`: remove every trailing character that belongs to `chars`. */
  function RStrip(s: string, chars: set<char>): (r: string)
    ensures r <= s
    ensures r == [] || r[|r| - 1] !in chars
    ensures forall i :: |r| <= i < |s| ==> s[i] in chars
  {
    if s == [] || s[|s| - 1] !in chars then s else RStrip(s[..|s| - 1], chars)
  }

  /** The three properties above determine `rstrip`'s result: it is the longest prefix
      whose removed tail consists of stripped characters only. */
  lemma RStripUnique(s: string, chars: set<char>, p: string)
    requires p <= s
    requires p == [] || p[|p| - 1] !in chars
    requires forall i :: |p| <= i < |s| ==> s[i] in chars
    ensures p == RStrip(s, chars)
  {
  }

  /** A name without slashes is already flat. */
  lemma NoSlashIsFlat(s: string)
    requires '/' !in s
    ensures DashedName(s) == s
  {
    DashedNameReplacesSlashes(s);
  }

  /** The binary's folder name as Server/Server.py:50 computes it: `rstrip(".c")` strips every
      trailing '.' and 'c', not the extension ".c". */
  function BinaryNameAsWritten(relpath: string): (name: string)
    ensures name <= DashedName(relpath)
    ensures name == [] || name[|name| - 1] !in {'.', 'c'}
  {
    RStrip(DashedName(relpath), {'.', 'c'})
  }

  /** The name intended: the flattened path without its ".c" extension. */
  function BinaryName(relpath: string): (name: string)
    requires EndsWith(relpath, ".c")
    ensures name + ".c" == DashedName(relpath)
  {
    DashedNameReplacesSlashes(relpath);
    var d := DashedName(relpath);
    assert d[|d| - 2..] == ".c";
    d[..|d| - 2]
  }

  /** Two sources share a binary folder only when their flattened paths coincide. */
  lemma BinaryNameCollisions(a: string, b: string)
    requires EndsWith(a, ".c") && EndsWith(b, ".c")
    requires BinaryName(a) == BinaryName(b)
    ensures DashedName(a) == DashedName(b)
  {
  }

  /** As written, a stem ending in 'c' loses that 'c' as well: the sources `stem + "c.c"` and
      `stem + ".c"` are both built into the folder `stem`, where the intended names differ. */
  lemma AsWrittenStripsStem(stem: string)
    requires '/' !in stem
    requires stem != [] && stem[|stem| - 1] !in {'.', 'c'}
    ensures BinaryNameAsWritten(stem + "c.c") == stem
    ensures BinaryNameAsWritten(stem + ".c") == stem
    ensures BinaryName(stem + "c.c") == stem + "c" != stem == BinaryName(stem + ".c")
  {
    NoSlashIsFlat(stem + "c.c");
    NoSlashIsFlat(stem + ".c");
    RStripUnique(stem + "c.c", {'.', 'c'}, stem);
    RStripUnique(stem + ".c", {'.', 'c'}, stem);
    assert (stem + "c") + ".c" == stem + "c.c";
    assert |stem + "c"| != |stem|;
  }

  /** The instance "music.c" / "musi.c": both are built into "musi". */
  lemma MusicCollidesWithMusi()
    ensures BinaryNameAsWritten("music.c") == BinaryNameAsWritten("musi.c") == "musi"
    ensures BinaryName("music.c") == "music" && BinaryName("musi.c") == "musi"
  {
    var stem := "musi";
    assert '/' !in stem && stem[|stem| - 1] == 'i';
    assert stem + "c.c" == "music.c" && stem + ".c" == "musi.c";
    AsWrittenStripsStem(stem);
  }

  /** The gcc argument list of Server/Server.py:55, without "-lwallaby" when the controller
      library is missing (Server/Server.py:56-57). */
  function Command(sourcePath: string, fullPath: string, sourceFile: string, libraryAvailable: bool): (cmd: seq<string>)
    ensures libraryAvailable ==>
      cmd == ["gcc", "-pipe", "-O0", LIBRARY_FLAG, "-I" + sourcePath, "-o", fullPath + BINARY_FILE, sourceFile]
    ensures !libraryAvailable ==>
      cmd == ["gcc", "-pipe", "-O0", "-I" + sourcePath, "-o", fullPath + BINARY_FILE, sourceFile]
    ensures EndsWith(sourceFile, ".c") ==> (LIBRARY_FLAG in cmd <==> libraryAvailable)
  {
    var full := ["gcc", "-pipe", "-O0", LIBRARY_FLAG, "-I" + sourcePath, "-o", fullPath + BINARY_FILE, sourceFile];
    if libraryAvailable then full
    else
      DropFlag(full, "-I" + sourcePath, fullPath + BINARY_FILE, sourceFile);
      FlagNotRepeated(sourcePath, fullPath, sourceFile);
      RemoveFirst(full, LIBRARY_FLAG)
  }

  /** No other argument of the list can be "-lwallaby" once the source file ends in ".c". */
  lemma FlagNotRepeated(sourcePath: string, fullPath: string, sourceFile: string)
    ensures LIBRARY_FLAG !in ["gcc", "-pipe", "-O0", "-o"]
    ensures "-I" + sourcePath != LIBRARY_FLAG
    ensures fullPath + BINARY_FILE != LIBRARY_FLAG
    ensures EndsWith(sourceFile, ".c") ==> sourceFile != LIBRARY_FLAG
  {
    assert LIBRARY_FLAG[1] == 'l' && LIBRARY_FLAG[8] == 'y';
    assert ("-I" + sourcePath)[1] == 'I';
    var f := fullPath + BINARY_FILE;
    assert f[|f| - 1] == 'm';
    assert EndsWith(sourceFile, ".c") ==> sourceFile[|sourceFile| - 1] == 'c';
  }

  /** `del command[command.index("-lwallaby")]` cuts out the fourth argument. */
  lemma DropFlag(full: seq<string>, includeFlag: string, output: string, sourceFile: string)
    requires full == ["gcc", "-pipe", "-O0", LIBRARY_FLAG, includeFlag, "-o", output, sourceFile]
    ensures RemoveFirst(full, LIBRARY_FLAG) == ["gcc", "-pipe", "-O0", includeFlag, "-o", output, sourceFile]
  {
    FlagAtThree(full, includeFlag, output, sourceFile);
    SliceOutThree(full, includeFlag, output, sourceFile);
  }

  lemma SliceOutThree(full: seq<string>, includeFlag: string, output: string, sourceFile: string)
    requires full == ["gcc", "-pipe", "-O0", LIBRARY_FLAG, includeFlag, "-o", output, sourceFile]
    ensures full[..3] + full[4..] == ["gcc", "-pipe", "-O0", includeFlag, "-o", output, sourceFile]
  {
  }

  lemma FlagAtThree(full: seq<string>, includeFlag: string, output: string, sourceFile: string)
    requires full == ["gcc", "-pipe", "-O0", LIBRARY_FLAG, includeFlag, "-o", output, sourceFile]
    ensures RemoveFirst(full, LIBRARY_FLAG) == full[..3] + full[4..]
  {
    assert LIBRARY_FLAG !in full[..3];
    RemoveFirstAt(full, LIBRARY_FLAG, 3);
  }

  datatype Build = Build(name: string, directory: string, command: seq<string>)

  /** `Compile.compile` (Server/Server.py:48-57) up to starting gcc, building into the folder
      of the intended name `BinaryName`; the code's `rstrip(".c")` name is `BinaryNameAsWritten`,
      and `AsWrittenStripsStem` shows where the two differ. `hasMain` is the result of the
      regular-expression scan `is_valid_c_program`, which is an input here. */
  function PlanBuild(sourcePath: string, binaryPath: string, path: string, relpath: string,
                     hasMain: bool, libraryAvailable: bool): (b: Option<Build>)
    ensures b.Some? <==> EndsWith(relpath, ".c") && hasMain
    ensures b.Some? ==> b.value.name + ".c" == DashedName(relpath)
    ensures b.Some? ==> b.value.directory == binaryPath + b.value.name
    ensures b.Some? ==> (LIBRARY_FLAG in b.value.command <==> libraryAvailable)
  {
    if EndsWith(relpath, ".c") && hasMain then
      var name := BinaryName(relpath);
      assert EndsWith(path + relpath, ".c") by {
        assert (path + relpath)[|path + relpath| - 2..] == relpath[|relpath| - 2..];
      }
      Some(Build(name, binaryPath + name, Command(sourcePath, binaryPath + name, path + relpath, libraryAvailable)))
    else None
  }
}
