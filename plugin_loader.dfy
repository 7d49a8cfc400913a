/**
 * The plugin loader (pumpkin-plugins/src/plugin_loader.rs): a list of loaded
 * plugins, grown by loading shared libraries from a directory. The dynamic
 * linker is a parameter that maps a path to the library it opens (or to
 * nothing when opening fails); a plugin is an abstract value that the
 * library's entry point returns. Directory entries are given by their file
 * names, in the order the directory listing yields them.
 */
module PluginLoading {
  import opened Wrappers

  /** The object a plugin's entry point returns; its behaviour is outside the model. */
  datatype Plugin = Plugin(name: string)

  /** An opened shared library: its `plugin_entry_point` symbol, when it exports one. */
  datatype Library = Library(entryPoint: Option<Plugin>)

  /** Why a load aborts: the library does not open, or it lacks the entry point. */
  datatype LoadError = LibraryLoadFailed(path: string) | MissingEntryPoint(path: string)

  /** The extensions of the files taken for plugins. */
  const PLUGIN_EXTENSIONS: set<string> := {"so", "dll", "dylib", "plugin"}

  /** The index of the last '.' in s, if any. */
  function LastDot(s: string): (r: Option<nat>)
    ensures r.Some? ==> r.value < |s| && s[r.value] == '.' && forall k :: r.value < k < |s| ==> s[k] != '.'
    ensures r.None? ==> forall k :: 0 <= k < |s| ==> s[k] != '.'
  {
    if s == [] then None
    else if s[|s| - 1] == '.' then Some(|s| - 1)
    else LastDot(s[..|s| - 1])
  }

  /**
   * Path::extension of a file name: the text after the last '.', except that
   * a name without a '.', a name whose only '.' is its first character (a
   * hidden file such as ".so") and ".." have none.
   */
  function Extension(fileName: string): (r: Option<string>)
  {
    if fileName == ".." then None
    else match LastDot(fileName)
      case None => None
      case Some(i) => if i == 0 then None else Some(fileName[i + 1..])
  }

  /** is_valid_plugin: the file has an extension, and it is one of the four, compared exactly. */
  function IsValidPlugin(fileName: string): bool
  {
    match Extension(fileName)
    case Some(ext) => ext in PLUGIN_EXTENSIONS
    case None => false
  }

  /**
   * A file is taken for a plugin exactly when some '.' after its first
   * character is the last '.' of the name and what follows it is one of the
   * allowed extensions.
   */
  lemma IsValidPluginIff(fileName: string)
    ensures IsValidPlugin(fileName) <==>
      exists i :: 0 < i < |fileName| && fileName[i] == '.' &&
        (forall k :: i < k < |fileName| ==> fileName[k] != '.') &&
        fileName[i + 1..] in PLUGIN_EXTENSIONS
  {
    if IsValidPlugin(fileName) {
      var i := LastDot(fileName).value;
      assert 0 < i < |fileName| && fileName[i] == '.';
    }
    if exists i :: 0 < i < |fileName| && fileName[i] == '.' &&
        (forall k :: i < k < |fileName| ==> fileName[k] != '.') &&
        fileName[i + 1..] in PLUGIN_EXTENSIONS
    {
      var i :| 0 < i < |fileName| && fileName[i] == '.' &&
        (forall k :: i < k < |fileName| ==> fileName[k] != '.') &&
        fileName[i + 1..] in PLUGIN_EXTENSIONS;
      var j := LastDot(fileName);
      assert j == Some(i);
      assert fileName != "..";
    }
  }

  /** The last '.' of a name is the one after which no '.' follows. */
  lemma {:induction false} LastDotAt(s: string, i: nat)
    requires i < |s| && s[i] == '.'
    requires forall k :: i < k < |s| ==> s[k] != '.'
    ensures LastDot(s) == Some(i)
    decreases |s|
  {
    if i < |s| - 1 {
      LastDotAt(s[..|s| - 1], i);
    }
  }

  /** A file name without any '.' has no extension and is never taken for a plugin. */
  lemma NoExtensionRejected(fileName: string)
    requires forall k :: 0 <= k < |fileName| ==> fileName[k] != '.'
    ensures Extension(fileName) == None && !IsValidPlugin(fileName)
  {
  }

  /** Every allowed extension after a non-empty stem is accepted ... */
  lemma AllowedExtensionsAccepted(stem: string)
    requires |stem| > 0
    ensures IsValidPlugin(stem + ".so") && IsValidPlugin(stem + ".dll")
    ensures IsValidPlugin(stem + ".dylib") && IsValidPlugin(stem + ".plugin")
  {
    WithExtension(stem, "so");
    assert stem + ".so" == stem + "." + "so";
    WithExtension(stem, "dll");
    assert stem + ".dll" == stem + "." + "dll";
    WithExtension(stem, "dylib");
    assert stem + ".dylib" == stem + "." + "dylib";
    WithExtension(stem, "plugin");
    assert stem + ".plugin" == stem + "." + "plugin";
  }

  /**
   * ... while the comparison is exact: other spellings of an extension, an
   * allowed extension that is not the last one, and a hidden file named
   * ".so" are rejected.
   */
  lemma OtherNamesRejected(stem: string)
    requires |stem| > 0
    ensures !IsValidPlugin(stem + ".SO") && !IsValidPlugin(stem + ".Dll")
    ensures !IsValidPlugin(stem + ".so.bak") && !IsValidPlugin(".so")
  {
    WithExtension(stem, "SO");
    assert stem + ".SO" == stem + "." + "SO";
    WithExtension(stem, "Dll");
    assert stem + ".Dll" == stem + "." + "Dll";
    WithExtension(stem + ".so", "bak");
    assert stem + ".so.bak" == (stem + ".so") + "." + "bak";
    LastDotAt(".so", 0);
  }

  /**
   * A non-empty stem followed by '.' and a dot-free extension has exactly that
   * extension; the one exception is "..", which has none.
   */
  lemma WithExtension(stem: string, ext: string)
    requires |stem| > 0 && (stem != "." || ext != "")
    requires forall k :: 0 <= k < |ext| ==> ext[k] != '.'
    ensures Extension(stem + "." + ext) == Some(ext)
  {
    var name := stem + "." + ext;
    LastDotAt(name, |stem|);
    assert name[|stem| + 1..] == ext;
    assert name[0] == stem[0];
    assert |stem| == 1 ==> stem == [stem[0]];
    assert name != "..";
  }

  /** The entries of a directory listing that are taken for plugins, in listing order. */
  function ValidEntries(entries: seq<string>): (v: seq<string>)
    ensures |v| <= |entries|
    ensures forall p :: p in v ==> p in entries && IsValidPlugin(p)
    ensures forall p :: p in entries && IsValidPlugin(p) ==> p in v
  {
    if entries == [] then []
    else (if IsValidPlugin(entries[0]) then [entries[0]] else []) + ValidEntries(entries[1..])
  }

  /** What load_plugin obtains for a path: open the library, look up its entry point, call it. */
  function Open(dlopen: string -> Option<Library>, path: string): (r: Result<Plugin, LoadError>)
    ensures r.Ok? <==> dlopen(path).Some? && dlopen(path).value.entryPoint.Some?
    ensures r.Ok? ==> r.value == dlopen(path).value.entryPoint.value
    ensures dlopen(path).None? ==> r == Err(LibraryLoadFailed(path))
    ensures dlopen(path).Some? && dlopen(path).value.entryPoint.None? ==> r == Err(MissingEntryPoint(path))
  {
    match dlopen(path)
    case None => Err(LibraryLoadFailed(path))
    case Some(lib) =>
      match lib.entryPoint
      case None => Err(MissingEntryPoint(path))
      case Some(plugin) => Ok(plugin)
  }

  /** The outcome of loading a directory: the plugins loaded, the paths tried, and the error that aborted it. */
  datatype DirectoryLoad = DirectoryLoad(loaded: seq<Plugin>, attempted: seq<string>, error: Option<LoadError>)

  /** load_plugins_from_directory over entries[from..]: load each valid entry in order, stop at the first failure. */
  function LoadDirectory(dlopen: string -> Option<Library>, entries: seq<string>, from: nat): (r: DirectoryLoad)
    requires from <= |entries|
    decreases |entries| - from
  {
    if from == |entries| then DirectoryLoad([], [], None)
    else
      var path := entries[from];
      if !IsValidPlugin(path) then LoadDirectory(dlopen, entries, from + 1)
      else match Open(dlopen, path)
        case Err(e) => DirectoryLoad([], [path], Some(e))
        case Ok(plugin) =>
          var rest := LoadDirectory(dlopen, entries, from + 1);
          DirectoryLoad([plugin] + rest.loaded, [path] + rest.attempted, rest.error)
  }

  /**
   * A directory load tries a prefix of the valid entries, in listing order
   * and skipping none, and each successful attempt loads the plugin its
   * library's entry point returns; when nothing fails it tries all the valid
   * entries, and when one fails it is the last one tried.
   */
  lemma {:induction false} LoadDirectoryAttempts(dlopen: string -> Option<Library>, entries: seq<string>, from: nat)
    requires from <= |entries|
    ensures var r := LoadDirectory(dlopen, entries, from);
      && (forall p :: p in r.attempted ==> IsValidPlugin(p))
      && r.attempted <= ValidEntries(entries[from..])
      && |r.loaded| <= |r.attempted|
      && (forall i :: 0 <= i < |r.loaded| ==> Open(dlopen, r.attempted[i]) == Ok(r.loaded[i]))
      && (r.error.None? ==> r.attempted == ValidEntries(entries[from..]) && |r.loaded| == |r.attempted|)
      && (r.error.Some? ==>
            |r.attempted| == |r.loaded| + 1 &&
            Open(dlopen, r.attempted[|r.attempted| - 1]) == Err(r.error.value))
    decreases |entries| - from
  {
    if from < |entries| {
      LoadDirectoryAttempts(dlopen, entries, from + 1);
      assert entries[from..] == [entries[from]] + entries[from + 1..];
      assert entries[from..][1..] == entries[from + 1..];
    } else {
      assert entries[from..] == [];
    }
  }

  /** An empty listing loads nothing and fails nothing. */
  lemma EmptyDirectoryLoadsNothing(dlopen: string -> Option<Library>)
    ensures LoadDirectory(dlopen, [], 0) == DirectoryLoad([], [], None)
  {
  }

  class PluginLoader {
    var plugins: seq<Plugin>

    /** new(): a loader with no plugins. */
    constructor ()
      ensures plugins == []
    {
      plugins := [];
    }

    /**
     * load_plugin: open the library, find its entry point and call it, run
     * the new plugin's on_load hook, then push it at the end of the list.
     * `initialized` is the plugins whose on_load hook ran. A failure aborts
     * (the source panics) and leaves the list as it was.
     */
    method LoadPlugin(path: string, dlopen: string -> Option<Library>)
      returns (outcome: Result<Plugin, LoadError>, initialized: seq<Plugin>)
      modifies this
      ensures outcome == Open(dlopen, path)
      ensures initialized == (if outcome.Ok? then [outcome.value] else [])
      ensures plugins == old(plugins) + initialized
    {
      initialized := [];
      var lib := dlopen(path);
      if lib.None? {
        outcome := Err(LibraryLoadFailed(path));
        return;
      }
      if lib.value.entryPoint.None? {
        outcome := Err(MissingEntryPoint(path));
        return;
      }
      var plugin := lib.value.entryPoint.value;
      initialized := [plugin];
      plugins := plugins + [plugin];
      outcome := Ok(plugin);
    }

    /**
     * load_plugins_from_directory over the listing `entries`: each entry
     * that is_valid_plugin accepts is loaded in listing order; the first
     * failure aborts. `attempted` is the paths handed to load_plugin.
     */
    method LoadPluginsFromDirectory(entries: seq<string>, dlopen: string -> Option<Library>)
      returns (error: Option<LoadError>, attempted: seq<string>, initialized: seq<Plugin>)
      modifies this
      ensures LoadDirectory(dlopen, entries, 0) == DirectoryLoad(initialized, attempted, error)
      ensures plugins == old(plugins) + initialized
    {
      error, attempted, initialized := None, [], [];
      ghost var whole := LoadDirectory(dlopen, entries, 0);
      for i := 0 to |entries|
        invariant plugins == old(plugins) + initialized
        invariant whole == Joined(initialized, attempted, LoadDirectory(dlopen, entries, i))
      {
        var path := entries[i];
        if IsValidPlugin(path) {
          var outcome, calls := LoadPlugin(path, dlopen);
          JoinedTwice(initialized, calls, attempted, [path], LoadDirectory(dlopen, entries, i + 1));
          initialized := initialized + calls;
          attempted := attempted + [path];
          if outcome.Err? {
            error := Some(outcome.error);
            assert initialized + [] == initialized && attempted + [] == attempted;
            return;
          }
        }
      }
      assert initialized + [] == initialized && attempted + [] == attempted;
    }

    /** get_plugins: the current list, read without change. */
    method GetPlugins() returns (r: seq<Plugin>)
      ensures r == plugins
    {
      r := plugins;
    }
  }

  /** A directory load with `loaded` and `attempted` done before it. */
  function Joined(loaded: seq<Plugin>, attempted: seq<string>, r: DirectoryLoad): DirectoryLoad
  {
    DirectoryLoad(loaded + r.loaded, attempted + r.attempted, r.error)
  }

  lemma JoinedTwice(l1: seq<Plugin>, l2: seq<Plugin>, a1: seq<string>, a2: seq<string>, r: DirectoryLoad)
    ensures Joined(l1, a1, Joined(l2, a2, r)) == Joined(l1 + l2, a1 + a2, r)
  {
    assert l1 + (l2 + r.loaded) == (l1 + l2) + r.loaded;
    assert a1 + (a2 + r.attempted) == (a1 + a2) + r.attempted;
  }

  /**
   * After a directory load that nothing aborted, the list has grown by
   * exactly one plugin per valid entry of the listing.
   */
  lemma DirectoryLoadCount(dlopen: string -> Option<Library>, entries: seq<string>)
    ensures var r := LoadDirectory(dlopen, entries, 0);
      r.error.None? ==> |r.loaded| == |ValidEntries(entries)|
  {
    LoadDirectoryAttempts(dlopen, entries, 0);
    assert entries[0..] == entries;
  }
}
