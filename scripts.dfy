/** The `scripts` table written into the generated manifest. */
module Scripts {
  import opened JsObjects

  const ClearDistThen: string := "yarn clear-dist && "
  const WebpackBuild: string := "npx webpack --mode "

  /** The compile command for a build mode. */
  function BuildCmd(webpack: bool, mode: string): (cmd: string)
    ensures webpack ==> WebpackBuild <= cmd && cmd[|WebpackBuild|..] == mode
    ensures !webpack ==> cmd == "npx tsc"
  {
    if webpack then WebpackBuild + mode else "npx tsc"
  }

  /** Only the bundler distinguishes build modes. */
  lemma BuildCmdModes(webpack: bool, mode1: string, mode2: string)
    ensures BuildCmd(webpack, mode1) == BuildCmd(webpack, mode2) <==> !webpack || mode1 == mode2
  {
    if webpack && BuildCmd(webpack, mode1) == BuildCmd(webpack, mode2) {
      assert mode1 == BuildCmd(webpack, mode1)[|WebpackBuild|..];
    }
  }

  const ScriptNames: seq<string> := ["test", "clear-dist", "build:prod", "build:dev", "build"]

  /** The script table, in the order it is written. */
  function Table(webpack: bool): (t: Props<Json>)
    ensures Keys(t) == ScriptNames && Wf(t)
    ensures Get(t, "test") == Some(JString("npx jest"))
    ensures Get(t, "clear-dist") == Some(JString("rm -rf dist/"))
    ensures Get(t, "build:prod") == Some(JString(ClearDistThen + BuildCmd(webpack, "production")))
    ensures Get(t, "build:dev") == Some(JString(ClearDistThen + BuildCmd(webpack, "development")))
    ensures Get(t, "build") == Some(JString("yarn build:dev"))
  {
    var t := [
      ("test", JString("npx jest")),
      ("clear-dist", JString("rm -rf dist/")),
      ("build:prod", JString(ClearDistThen + BuildCmd(webpack, "production"))),
      ("build:dev", JString(ClearDistThen + BuildCmd(webpack, "development"))),
      ("build", JString("yarn build:dev"))
    ];
    assert Keys(t) == ScriptNames;
    GetAt(t, 0); GetAt(t, 1); GetAt(t, 2); GetAt(t, 3); GetAt(t, 4);
    t
  }

  /** The text of a script, if the table has it as a string. */
  function Script(t: Props<Json>, name: string): Option<string>
  {
    var v := Get(t, name);
    if v.Some? && v.value.JString? then Some(v.value.s) else None
  }

  /** Both builds first clear `dist/`; `build` runs the development
      build; and the production and development builds differ exactly when
      the bundler was chosen. */
  lemma TableBuilds(webpack: bool)
    ensures Script(Table(webpack), "build:prod").Some? && ClearDistThen <= Script(Table(webpack), "build:prod").value
    ensures Script(Table(webpack), "build:dev").Some? && ClearDistThen <= Script(Table(webpack), "build:dev").value
    ensures Script(Table(webpack), "build") == Some("yarn build:dev")
    ensures Script(Table(webpack), "build:prod") != Script(Table(webpack), "build:dev") <==> webpack
    ensures webpack ==>
      && Script(Table(webpack), "build:prod") == Some(ClearDistThen + (WebpackBuild + "production"))
      && Script(Table(webpack), "build:dev") == Some(ClearDistThen + (WebpackBuild + "development"))
    ensures !webpack ==>
      && Script(Table(webpack), "build:prod") == Some(ClearDistThen + "npx tsc")
      && Script(Table(webpack), "build:dev") == Some(ClearDistThen + "npx tsc")
  {
    var t := Table(webpack);
    var prod, dev := BuildCmd(webpack, "production"), BuildCmd(webpack, "development");
    assert Script(t, "build:prod") == Some(ClearDistThen + prod);
    assert Script(t, "build:dev") == Some(ClearDistThen + dev);
    BuildCmdModes(webpack, "production", "development");
    if webpack {
      assert ClearDistThen + prod != ClearDistThen + dev by {
        assert (ClearDistThen + prod)[|ClearDistThen|..] == prod;
        assert (ClearDistThen + dev)[|ClearDistThen|..] == dev;
      }
    }
  }
}
