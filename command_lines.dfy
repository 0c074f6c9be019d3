/** What both batch tools read from a parsed command line, and the model name
    they derive from the input path. */
module CommandLines {

  /** A parsed command line: each option given, with the values that followed
      it. */
  datatype CommandLine = CommandLine(options: map<string, seq<string>>)

  predicate HasOption(cl: CommandLine, name: string)
  {
    name in cl.options
  }

  /** getOptionValue(name, default): the first value of the option, or the
      default when the option is absent or has no value. */
  function OptionValue(cl: CommandLine, name: string, default: string): (r: string)
    ensures name in cl.options && cl.options[name] != [] ==> r == cl.options[name][0]
    ensures name !in cl.options || cl.options[name] == [] ==> r == default
  {
    if name in cl.options && cl.options[name] != [] then cl.options[name][0] else default
  }

  /** getOptionValues(name) for an option that is present. */
  function OptionValues(cl: CommandLine, name: string): seq<string>
    requires HasOption(cl, name)
  {
    cl.options[name]
  }

  /** String.lastIndexOf for one character: -1 when absent. */
  function LastIndexOf(s: string, c: char): (r: int)
    ensures -1 <= r < |s|
    ensures r == -1 <==> c !in s
    ensures r >= 0 ==> s[r] == c && c !in s[r + 1..]
  {
    if s == [] then -1
    else if s[|s| - 1] == c then |s| - 1
    else (assert s[..|s| - 1] + [s[|s| - 1]] == s; LastIndexOf(s[..|s| - 1], c))
  }

  /** File.getName: what follows the last '/'. */
  function BaseName(file: string): (r: string)
    ensures '/' !in r
  {
    file[LastIndexOf(file, '/') + 1..]
  }

  /** getModelNameFromFile: the base name, without its last extension when it
      is not empty and contains a '.'. */
  function ModelName(file: string): (r: string)
  {
    var name := BaseName(file);
    if |name| > 0 then
      var lastIndex := LastIndexOf(name, '.');
      if lastIndex != -1 then name[..lastIndex] else name
    else name
  }

  // ---------------------------------------------------------------------
  // Properties

  /** A directory prefix is the empty text or one that ends with '/'. */
  predicate IsDirectory(dir: string)
  {
    dir == [] || dir[|dir| - 1] == '/'
  }

  lemma BaseNameAfterDirectory(dir: string, name: string)
    requires IsDirectory(dir) && '/' !in name
    ensures BaseName(dir + name) == name
  {
    var s := dir + name;
    if name == [] {
      if dir != [] {
        assert s[|s| - 1] == '/';
      }
    } else {
      assert s[|dir|..] == name;
    }
  }

  /** The last occurrence of `c` is the one before a tail without it. */
  lemma {:induction false} LastIndexBeforeTail(x: string, c: char, y: string)
    requires c !in y
    ensures LastIndexOf(x + [c] + y, c) == |x|
    ensures c == '.' ==> LastIndexOf(x + "." + y, c) == |x|
    decreases |y|
  {
    var s := x + [c] + y;
    if y != [] {
      var y' := y[..|y| - 1];
      assert s[..|s| - 1] == x + [c] + y';
      assert s[|s| - 1] == y[|y| - 1];
      LastIndexBeforeTail(x, c, y');
    }
  }

  /** Only the last extension is cut, and only the directories are dropped:
      "dir/base.ext" names the model "base", whatever dots `base` holds. */
  lemma ModelNameCutsLastExtension(dir: string, base: string, ext: string)
    requires IsDirectory(dir) && '/' !in base && '/' !in ext && '.' !in ext
    ensures ModelName(dir + base + "." + ext) == base
  {
    BaseNameWithExtension(dir, base, ext);
    LastIndexBeforeTail(base, '.', ext);
    ModelNameBeforeDot(dir + base + "." + ext, base, ext);
  }

  lemma BaseNameWithExtension(dir: string, base: string, ext: string)
    requires IsDirectory(dir) && '/' !in base && '/' !in ext
    ensures BaseName(dir + base + "." + ext) == base + "." + ext
  {
    var name := base + "." + ext;
    assert '/' !in name;
    BaseNameAfterDirectory(dir, name);
    assert dir + base + "." + ext == dir + name;
  }

  lemma ModelNameBeforeDot(file: string, base: string, ext: string)
    requires BaseName(file) == base + "." + ext && LastIndexOf(base + "." + ext, '.') == |base|
    ensures ModelName(file) == base
  {
    assert (base + "." + ext)[..|base|] == base;
  }

  /** A base name without a dot is the model name as it stands. */
  lemma ModelNameWithoutExtension(dir: string, base: string)
    requires IsDirectory(dir) && '/' !in base && '.' !in base
    ensures ModelName(dir + base) == base
  {
    BaseNameAfterDirectory(dir, base);
  }

  /** The model name never contains '/', and it is a prefix of the base
      name. */
  lemma ModelNameOfBaseName(file: string)
    ensures '/' !in ModelName(file)
    ensures |ModelName(file)| <= |BaseName(file)|
    ensures ModelName(file) == BaseName(file)[..|ModelName(file)|]
  {
    var name := BaseName(file);
    var r := ModelName(file);
    assert r == name[..|r|];
    assert forall i :: 0 <= i < |r| ==> r[i] == name[i];
  }
}
