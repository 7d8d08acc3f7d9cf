/** Where the project goes and what it is called, derived from the one
    command-line argument and the working directory. `path.resolve` and
    `path.basename` are not modelled: they are parameters, so every
    property below holds for all path semantics. */
module ProjectSetup {
  import opened JsObjects

  /** The name the manifest gets: the base name of the working directory
      when the argument resolves to it, the argument as typed otherwise. */
  function DeriveName(cwd: string, projectPath: string, arg: string, basename: string -> string): (name: string)
    ensures projectPath == cwd ==> name == basename(cwd)
    ensures projectPath != cwd ==> name == arg
  {
    if projectPath == cwd then basename(cwd) else arg
  }

  /** The process-wide record of the resolved paths; every field starts
      out `null`. */
  class ProjectConfig {
    var projectPath: Option<string>
    var projectName: Option<string>
    var cwd: Option<string>

    constructor ()
      ensures projectPath == None && projectName == None && cwd == None
    {
      projectPath, projectName, cwd := None, None, None;
    }

    /** `resolveProjectDirectory(arg)`: `processCwd` is `process.cwd()`,
        `resolve` is `path.resolve` on its argument list. */
    method ResolveProjectDirectory(arg: string, processCwd: string, resolve: seq<string> -> string, basename: string -> string)
      modifies this
      ensures cwd == Some(resolve([processCwd]))
      ensures projectPath == Some(resolve([cwd.value, arg]))
      ensures projectName == Some(DeriveName(cwd.value, projectPath.value, arg, basename))
      ensures projectPath.value == cwd.value ==> projectName == Some(basename(cwd.value))
      ensures projectPath.value != cwd.value ==> projectName == Some(arg)
    {
      var resolvedCwd := resolve([processCwd]);
      var path := resolve([resolvedCwd, arg]);
      var name := arg;
      if path == resolvedCwd {
        name := basename(resolvedCwd);
      }
      cwd := Some(resolvedCwd);
      projectPath := Some(path);
      projectName := Some(name);
    }
  }
}
