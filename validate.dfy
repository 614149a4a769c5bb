/** The pre-deploy checks on a functions source directory: that the directory
    exists, that every function name is acceptable, and that the directory
    holds an entry point. Each check either returns or throws an error with a
    message; the file system is given as the set of paths that exist. */
module FunctionsValidate {
  import opened Common

  /** What a check does: return normally, or throw an error carrying `message`. */
  datatype Outcome = Pass | Throw(message: string)

  /** `path.sep` on POSIX; `path.join` of a directory and a plain file name. */
  const Sep := "/"

  function PathJoin(dir: string, name: string): string {
    dir + Sep + name
  }

  /** Two files of one directory have the same path only when they have the same name. */
  lemma PathJoinInjective(dir: string, a: string, b: string)
    requires PathJoin(dir, a) == PathJoin(dir, b)
    ensures a == b
  {
    var n := |dir + Sep|;
    assert a == PathJoin(dir, a)[n..];
    assert b == PathJoin(dir, b)[n..];
  }

  // ---------------------------------------------------------------------------
  // functionsDirectoryExists

  /** Where the project's source directory `sourceDirName` lies, seen from `cwd`. */
  function ResolveProjectPath(cwd: string, sourceDirName: string): string {
    PathJoin(cwd, sourceDirName)
  }

  function MissingDirectoryMessage(sourceDirName: string): string {
    "could not deploy functions because the \"" + sourceDirName + "\" " +
    "directory was not found. Please create it or specify a different source directory in firebase.json"
  }

  /** Passes exactly when the resolved source directory is among the existing directories. */
  function FunctionsDirectoryExists(cwd: string, sourceDirName: string, directories: set<string>): (r: Outcome)
    ensures r.Pass? <==> ResolveProjectPath(cwd, sourceDirName) in directories
    ensures r.Throw? ==> r.message == MissingDirectoryMessage(sourceDirName)
  {
    if ResolveProjectPath(cwd, sourceDirName) !in directories then
      Throw(MissingDirectoryMessage(sourceDirName))
    else
      Pass
  }

  // ---------------------------------------------------------------------------
  // functionNamesAreValid

  predicate IsAsciiLetter(c: char) {
    'a' <= c <= 'z' || 'A' <= c <= 'Z'
  }

  /** The class `[a-zA-Z0-9_-]`. */
  predicate IsNameChar(c: char) {
    IsAsciiLetter(c) || IsDigit(c) || c == '_' || c == '-'
  }

  /** The regular expression `^[a-z][a-zA-Z0-9_-]{1,62}$` with the `i` flag, as
      a matcher: one character of the first class (under case-insensitive
      matching `[a-z]` admits both cases of an ASCII letter and, without the `u`
      flag, nothing outside ASCII), then between 1 and 62 characters of the
      second class, then the end of the input. */
  predicate NamePatternTest(name: string) {
    |name| > 0 && IsAsciiLetter(name[0]) && RepeatToEnd(name[1..], 1, 62)
  }

  /** `[a-zA-Z0-9_-]{lo,hi}$`: the whole of `s` is between `lo` and `hi` characters of the class. */
  predicate RepeatToEnd(s: string, lo: nat, hi: nat)
    decreases |s|
  {
    if |s| == 0 then lo == 0
    else hi > 0 && IsNameChar(s[0]) && RepeatToEnd(s[1..], if lo > 0 then lo - 1 else 0, hi - 1)
  }

  lemma {:induction false} RepeatToEndMeaning(s: string, lo: nat, hi: nat)
    ensures RepeatToEnd(s, lo, hi) <==> lo <= |s| <= hi && forall i :: 0 <= i < |s| ==> IsNameChar(s[i])
    decreases |s|
  {
    if |s| > 0 && hi > 0 {
      RepeatToEndMeaning(s[1..], if lo > 0 then lo - 1 else 0, hi - 1);
      if forall i :: 0 <= i < |s| ==> IsNameChar(s[i]) {
        assert forall i :: 0 <= i < |s[1..]| ==> IsNameChar(s[1..][i]) by {
          forall i | 0 <= i < |s[1..]| ensures IsNameChar(s[1..][i]) {
            assert s[1..][i] == s[i + 1];
          }
        }
      }
      if IsNameChar(s[0]) && forall i :: 0 <= i < |s[1..]| ==> IsNameChar(s[1..][i]) {
        forall i | 0 <= i < |s| ensures IsNameChar(s[i]) {
          if i > 0 { assert s[i] == s[1..][i - 1]; }
        }
      }
    }
  }

  /** A name the pattern admits in plain terms: an ASCII letter followed by 1 to 62
      letters, digits, underscores or dashes, so 2 to 63 characters in all. */
  predicate IsWellFormedName(name: string) {
    2 <= |name| <= 63 && IsAsciiLetter(name[0]) && forall i :: 1 <= i < |name| ==> IsNameChar(name[i])
  }

  lemma NamePatternTestMeaning(name: string)
    ensures NamePatternTest(name) <==> IsWellFormedName(name)
  {
    if |name| > 0 {
      var rest := name[1..];
      RepeatToEndMeaning(rest, 1, 62);
      assert forall i :: 1 <= i < |name| ==> name[i] == rest[i - 1];
    }
  }

  /** The predicate whose keys `_.reject` drops: a key starting with "." or matching the pattern. */
  predicate IsAcceptedKey(key: string) {
    StartsWith(key, ".") || NamePatternTest(key)
  }

  /** A key is accepted iff it starts with "." or is well formed; an accepted key
      that does not start with "." has 2 to 63 characters. */
  lemma AcceptedKeyMeaning(key: string)
    ensures IsAcceptedKey(key) <==> StartsWith(key, ".") || IsWellFormedName(key)
    ensures IsAcceptedKey(key) && !StartsWith(key, ".") ==> 2 <= |key| <= 63
  {
    NamePatternTestMeaning(key);
  }

  /** `_.reject(keys, accepted)`: the keys that are not accepted, in their order. */
  function InvalidNames(keys: seq<string>): (r: seq<string>)
    ensures |r| <= |keys|
    ensures forall n :: n in r ==> n in keys && !IsAcceptedKey(n)
    ensures forall k :: k in keys && !IsAcceptedKey(k) ==> k in r
  {
    if |keys| == 0 then []
    else (if IsAcceptedKey(keys[0]) then [] else [keys[0]]) + InvalidNames(keys[1..])
  }

  /** Rejection keeps order: the invalid names of a concatenation are those of
      the first part followed by those of the second. */
  lemma {:induction false} InvalidNamesAppend(a: seq<string>, b: seq<string>)
    ensures InvalidNames(a + b) == InvalidNames(a) + InvalidNames(b)
    decreases |a|
  {
    if |a| > 0 {
      assert (a + b)[0] == a[0];
      assert (a + b)[1..] == a[1..] + b;
      InvalidNamesAppend(a[1..], b);
    } else {
      assert a + b == b;
    }
  }

  /** When no key is accepted, every key is reported, in order. */
  lemma {:induction false} InvalidNamesAllRejected(keys: seq<string>)
    requires forall i :: 0 <= i < |keys| ==> !IsAcceptedKey(keys[i])
    ensures InvalidNames(keys) == keys
    decreases |keys|
  {
    if |keys| > 0 {
      InvalidNamesAllRejected(keys[1..]);
    }
  }

  /** The value handed to `functionNamesAreValid`: an array of names, or an
      object whose own enumerable keys are `keys`, in enumeration order. */
  datatype Argument = ArrayValue(elements: seq<string>) | ObjectValue(keys: seq<string>)

  /** The keys of an array: the index strings "0", "1", ... */
  function IndexKeys(n: nat): (r: seq<string>)
    ensures |r| == n
    ensures forall i :: 0 <= i < n ==> r[i] == NatToString(i)
  {
    if n == 0 then [] else IndexKeys(n - 1) + [NatToString(n - 1)]
  }

  /** `_.keys(functionNames)`. */
  function Keys(arg: Argument): (r: seq<string>)
    ensures arg.ArrayValue? ==>
      |r| == |arg.elements| && forall i :: 0 <= i < |r| ==> r[i] == NatToString(i)
    ensures arg.ObjectValue? ==> r == arg.keys
  {
    match arg
    case ArrayValue(elements) => IndexKeys(|elements|)
    case ObjectValue(keys) => keys
  }

  const InvalidNamesSuffix := " function name(s) must be a valid subdomain (lowercase letters, numbers and dashes)"

  /** Throws iff some key is not accepted; the message lists exactly the invalid
      keys, in order, separated by ", ". */
  function FunctionNamesAreValid(functionNames: Argument): (r: Outcome)
    ensures r.Pass? <==> forall k :: k in Keys(functionNames) ==> IsAcceptedKey(k)
    ensures r.Throw? ==> r.message == JoinWith(InvalidNames(Keys(functionNames)), ", ") + InvalidNamesSuffix
  {
    var invalidNames := InvalidNames(Keys(functionNames));
    if |invalidNames| != 0 then
      assert invalidNames[0] in invalidNames;
      Throw(JoinWith(invalidNames, ", ") + InvalidNamesSuffix)
    else
      assert forall k :: k in Keys(functionNames) ==> IsAcceptedKey(k);
      Pass
  }

  /** An index string starts with a digit, so it is never accepted. */
  lemma IndexKeyRejected(i: nat)
    ensures !IsAcceptedKey(NatToString(i))
  {
    var s := NatToString(i);
    assert IsDigit(s[0]);
    assert s[..1] == [s[0]];
  }

  /** Every index string of an array is rejected, so all of them are reported, in order. */
  lemma IndexKeysAllInvalid(n: nat)
    ensures InvalidNames(IndexKeys(n)) == IndexKeys(n)
  {
    var keys := IndexKeys(n);
    forall i | 0 <= i < |keys| ensures !IsAcceptedKey(keys[i]) {
      IndexKeyRejected(i);
    }
    InvalidNamesAllRejected(keys);
  }

  /** An array argument is validated by its indices: any non-empty array is
      rejected, and the message lists every index. */
  lemma ArrayArgumentRejected(elements: seq<string>)
    ensures FunctionNamesAreValid(ArrayValue(elements)).Pass? <==> |elements| == 0
    ensures |elements| > 0 ==>
      FunctionNamesAreValid(ArrayValue(elements)) == Throw(JoinWith(IndexKeys(|elements|), ", ") + InvalidNamesSuffix)
  {
    var keys := IndexKeys(|elements|);
    IndexKeysAllInvalid(|elements|);
    if |elements| > 0 {
      IndexKeyRejected(0);
      assert keys[0] in keys;
    }
  }

  // ---------------------------------------------------------------------------
  // packageJsonIsValid

  /** What loading an existing package.json yields: the value of its `main`
      field (None when the field is absent or holds a falsy non-string value),
      or the message of the error the loader throws. */
  datatype PackageJson = Parsed(main: Option<string>) | LoadFailed(reason: string)

  /** `path.relative(projectDir, file)` for a file below `projectDir`; any other file is kept as given. */
  function RelativePath(projectDir: string, file: string): string {
    var base := projectDir + Sep;
    if StartsWith(file, base) then file[|base|..] else file
  }

  /** `data.main || "index.js"`. */
  function EntryFileName(main: Option<string>): string {
    if main.Some? && main.value != "" then main.value else "index.js"
  }

  function MissingEntryMessage(projectDir: string, entryFile: string): string {
    RelativePath(projectDir, entryFile) + " does not exist, can't deploy Firebase Functions"
  }

  function ReadErrorPrefix(sourceDirName: string): string {
    "There was an error reading " + sourceDirName + Sep + "package.json:\n\n "
  }

  function NoPackageMessage(sourceDirName: string): string {
    "No npm package found in functions source directory. Please run 'npm init' inside " + sourceDirName
  }

  /** The body of the `try` block: load package.json and look for its entry file. */
  function CheckEntryFile(sourceDir: string, projectDir: string, files: set<string>, packageJson: PackageJson): (r: Outcome)
    ensures r.Pass? <==> packageJson.Parsed? && PathJoin(sourceDir, EntryFileName(packageJson.main)) in files
  {
    match packageJson
    case LoadFailed(reason) => Throw(reason)
    case Parsed(main) =>
      var indexJsFile := PathJoin(sourceDir, EntryFileName(main));
      if indexJsFile !in files then Throw(MissingEntryMessage(projectDir, indexJsFile)) else Pass
  }

  /** With package.json present, everything the `try` block throws is caught and
      thrown again under the "There was an error reading" message. Without it,
      a legacy function.js is accepted instead. */
  function PackageJsonIsValid(sourceDirName: string, sourceDir: string, projectDir: string,
                              files: set<string>, packageJson: PackageJson): (r: Outcome)
    ensures PathJoin(sourceDir, "package.json") in files ==>
      (r.Pass? <==> packageJson.Parsed? && PathJoin(sourceDir, EntryFileName(packageJson.main)) in files)
    ensures PathJoin(sourceDir, "package.json") in files && r.Throw? ==>
      StartsWith(r.message, ReadErrorPrefix(sourceDirName))
    ensures PathJoin(sourceDir, "package.json") !in files ==>
      (r.Pass? <==> PathJoin(sourceDir, "function.js") in files) &&
      (r.Throw? ==> r.message == NoPackageMessage(sourceDirName))
  {
    var packageJsonFile := PathJoin(sourceDir, "package.json");
    if packageJsonFile in files then
      match CheckEntryFile(sourceDir, projectDir, files, packageJson)
      case Pass => Pass
      case Throw(inner) =>
        var msg := ReadErrorPrefix(sourceDirName) + inner;
        assert msg[..|ReadErrorPrefix(sourceDirName)|] == ReadErrorPrefix(sourceDirName);
        Throw(msg)
    else if PathJoin(sourceDir, "function.js") !in files then
      Throw(NoPackageMessage(sourceDirName))
    else
      Pass
  }

  /** The entry file is `main` when it is a non-empty string and index.js otherwise. */
  lemma EntryFileChoice(sourceDirName: string, sourceDir: string, projectDir: string,
                        files: set<string>, main: Option<string>)
    requires PathJoin(sourceDir, "package.json") in files
    ensures main.Some? && main.value != "" ==>
      (PackageJsonIsValid(sourceDirName, sourceDir, projectDir, files, Parsed(main)).Pass? <==>
         PathJoin(sourceDir, main.value) in files)
    ensures main.None? || main == Some("") ==>
      (PackageJsonIsValid(sourceDirName, sourceDir, projectDir, files, Parsed(main)).Pass? <==>
         PathJoin(sourceDir, "index.js") in files)
  {
  }

  /** A missing entry file is not reported as such: its message is wrapped in the
      package.json read error. */
  lemma MissingEntryFileIsWrapped(sourceDirName: string, sourceDir: string, projectDir: string,
                                  files: set<string>, main: Option<string>)
    requires PathJoin(sourceDir, "package.json") in files
    requires PathJoin(sourceDir, EntryFileName(main)) !in files
    ensures PackageJsonIsValid(sourceDirName, sourceDir, projectDir, files, Parsed(main))
      == Throw(ReadErrorPrefix(sourceDirName) + MissingEntryMessage(projectDir, PathJoin(sourceDir, EntryFileName(main))))
  {
  }

  /** A load error is wrapped the same way, with the loader's message inside. */
  lemma LoadErrorIsWrapped(sourceDirName: string, sourceDir: string, projectDir: string,
                           files: set<string>, reason: string)
    requires PathJoin(sourceDir, "package.json") in files
    ensures PackageJsonIsValid(sourceDirName, sourceDir, projectDir, files, LoadFailed(reason))
      == Throw(ReadErrorPrefix(sourceDirName) + reason)
  {
  }

  /** With package.json present, function.js is not looked at (unless it is the
      declared entry file itself). */
  lemma FunctionJsIgnoredWithPackageJson(sourceDirName: string, sourceDir: string, projectDir: string,
                                         files: set<string>, packageJson: PackageJson)
    requires PathJoin(sourceDir, "package.json") in files
    requires packageJson.Parsed? ==> EntryFileName(packageJson.main) != "function.js"
    ensures PackageJsonIsValid(sourceDirName, sourceDir, projectDir, files + {PathJoin(sourceDir, "function.js")}, packageJson)
         == PackageJsonIsValid(sourceDirName, sourceDir, projectDir, files - {PathJoin(sourceDir, "function.js")}, packageJson)
  {
    var functionJs := PathJoin(sourceDir, "function.js");
    if PathJoin(sourceDir, "package.json") == functionJs {
      PathJoinInjective(sourceDir, "package.json", "function.js");
    }
    if packageJson.Parsed? {
      var entry := PathJoin(sourceDir, EntryFileName(packageJson.main));
      if entry == functionJs {
        PathJoinInjective(sourceDir, EntryFileName(packageJson.main), "function.js");
      }
    }
  }
}
