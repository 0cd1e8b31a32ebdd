/** Tool discovery in the controller script `optimization_toolboxV3.21.py`
    (`discover_tools`): the directory listing is a parameter. */
module ToolDiscovery {
  import opened Wrappers
  import opened Text

  /** A name `glob("*.py")` returns: it ends in `.py`, and since `*` never
      matches a leading dot, it is not hidden. */
  predicate IsPyFile(name: string) {
    EndsWith(name, ".py") && name[0] != '.'
  }

  /** A file that becomes a tool: not `__init__.py`, not starting with `_`. */
  predicate IsTool(name: string) {
    IsPyFile(name) && name != "__init__.py" && !StartsWith(name, "_")
  }

  /** `file_name[:-3]`: the name without its `.py`. */
  function ModuleName(fileName: string): (r: string)
    requires IsPyFile(fileName)
    ensures r + ".py" == fileName
  {
    fileName[..|fileName| - 3]
  }

  /** The files the glob yields, in listing order. */
  function PyFiles(entries: seq<string>): (r: seq<string>)
    ensures forall f :: f in r <==> f in entries && IsPyFile(f)
  {
    if |entries| == 0 then []
    else
      var f := entries[|entries| - 1];
      PyFiles(entries[..|entries| - 1]) + if IsPyFile(f) then [f] else []
  }

  /** The registry after the files have been looked at in order. */
  function Registry(files: seq<string>): (r: map<string, string>)
    requires forall f :: f in files ==> IsPyFile(f)
    ensures forall k :: k in r ==> r[k] == "tools." + k
  {
    if |files| == 0 then map[]
    else
      var f := files[|files| - 1];
      var prior := Registry(files[..|files| - 1]);
      if IsTool(f) then prior[ModuleName(f) := "tools." + ModuleName(f)] else prior
  }

  /** A module is registered exactly when one of its files is a tool. */
  lemma {:induction false} RegistryKeys(files: seq<string>)
    requires forall f :: f in files ==> IsPyFile(f)
    ensures forall k :: k in Registry(files) <==> exists f :: f in files && IsTool(f) && ModuleName(f) == k
  {
    if |files| > 0 {
      var init := files[..|files| - 1];
      var f := files[|files| - 1];
      assert files == init + [f];
      RegistryKeys(init);
    }
  }

  /** `discover_tools`: an empty registry when `tools/` is missing; otherwise
      each tool file's module name mapped to its `tools.` module path.
      `entries` lists the directory. */
  method DiscoverTools(dirExists: bool, entries: seq<string>) returns (toolRegistry: map<string, string>)
    ensures !dirExists ==> toolRegistry == map[]
    ensures dirExists ==> toolRegistry == Registry(PyFiles(entries))
  {
    toolRegistry := map[];
    if !dirExists {
      return;
    }
    var pythonFiles := PyFiles(entries);
    var i := 0;
    while i < |pythonFiles|
      invariant 0 <= i <= |pythonFiles|
      invariant toolRegistry == Registry(pythonFiles[..i])
    {
      assert pythonFiles[..i + 1][..i] == pythonFiles[..i];
      var fileName := pythonFiles[i];
      if fileName == "__init__.py" || StartsWith(fileName, "_") {
        i := i + 1;
        continue;
      }
      var moduleName := ModuleName(fileName);
      toolRegistry := toolRegistry[moduleName := "tools." + moduleName];
      i := i + 1;
    }
    assert pythonFiles[..i] == pythonFiles;
  }

  /** Every registered name is the non-empty, non-private stem of a listed
      `.py` file, and its path is `tools.` followed by the name. */
  lemma DiscoveredTools(entries: seq<string>)
    ensures forall k :: k in Registry(PyFiles(entries)) <==>
      exists f :: f in entries && IsTool(f) && ModuleName(f) == k
    ensures forall k :: k in Registry(PyFiles(entries)) ==>
      k != "" && k[0] != '_' && k + ".py" in entries && Registry(PyFiles(entries))[k] == "tools." + k
  {
    RegistryKeys(PyFiles(entries));
    forall k | k in Registry(PyFiles(entries))
      ensures k != "" && k[0] != '_' && k + ".py" in entries
    {
      var f :| f in entries && IsTool(f) && ModuleName(f) == k;
      assert IsTool(f);
      assert IsPyFile(f);
      assert EndsWith(f, ".py");
      assert f[|f| - 3..] == ".py";
      assert f[..1] != "_";
      assert k[0] == f[0];
    }
  }
}
