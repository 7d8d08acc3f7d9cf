/** The answers of the three confirm prompts. */
module UserChoices {

  /** `jest`: install the test framework; `webpack`: bundle with the
      bundler; `git`: initialise a repository. */
  datatype Config = Config(jest: bool, webpack: bool, git: bool)
}

/** Which development dependencies are installed, and the package-manager
    command that installs them. */
module Installer {
  import opened UserChoices
  import JsObjects

  const JestPackages: seq<string> := ["ts-jest", "jest"]
  const WebpackPackages: seq<string> := ["ts-loader", "webpack", "webpack-cli"]
  const CompilerPackages: seq<string> := ["tsc"]

  /** The development dependencies handed to one batched `yarn add`. */
  function PackagesToInstall(c: Config): (pkgs: seq<string>)
    ensures |pkgs| == 1 + (if c.jest then 2 else 0) + (if c.webpack then 3 else 1)
    ensures pkgs[0] == "typescript"
    ensures c.jest <==> |pkgs| >= 3 && pkgs[1..3] == JestPackages
    ensures c.webpack ==> pkgs[|pkgs| - 3..] == WebpackPackages
    ensures !c.webpack ==> pkgs[|pkgs| - 1..] == CompilerPackages
    ensures pkgs[1 + (if c.jest then 2 else 0)..] == if c.webpack then WebpackPackages else CompilerPackages
    ensures ("ts-jest" in pkgs <==> c.jest) && ("jest" in pkgs <==> c.jest)
    ensures ("webpack" in pkgs <==> c.webpack) && ("tsc" in pkgs <==> !c.webpack)
    ensures !("tsc" in pkgs && "webpack" in pkgs)
    ensures JsObjects.Distinct(pkgs)
  {
    var pkgs := ["typescript"]
      + (if c.jest then JestPackages else [])
      + (if c.webpack then WebpackPackages else CompilerPackages);
    assert !c.jest && c.webpack ==> pkgs[1] == "ts-loader" && |"ts-loader"| != |"ts-jest"|;
    pkgs
  }

  /** The two choices that shape the dependency list, read back from the
      list itself. */
  function ChoicesOf(pkgs: seq<string>): (bool, bool)
  {
    ("jest" in pkgs, "webpack" in pkgs)
  }

  /** The list determines the test-framework and bundler choices, so two
      configurations install the same list exactly when they agree on both. */
  lemma ChoicesRecovered(c: Config, d: Config)
    ensures ChoicesOf(PackagesToInstall(c)) == (c.jest, c.webpack)
    ensures PackagesToInstall(c) == PackagesToInstall(d) <==> c.jest == d.jest && c.webpack == d.webpack
  {
    if PackagesToInstall(c) == PackagesToInstall(d) {
      assert ChoicesOf(PackagesToInstall(c)) == ChoicesOf(PackagesToInstall(d));
    }
  }

  /** The options object of `installYarnPackages`; an absent flag is false. */
  datatype InstallOptions = InstallOptions(silent: bool, saveDev: bool)

  /** A subprocess run in the project root: program, argument vector, and
      whether its standard output is piped to the terminal. */
  datatype Command = Command(program: string, args: seq<string>, pipe: bool)

  /** The argument vector `yarn add [-D] packages...`. When `saveDev` is
      false the second argument is the empty string, not omitted. */
  function InstallArgs(packages: seq<string>, saveDev: bool): (args: seq<string>)
    ensures |args| == |packages| + 2
    ensures args[0] == "add"
    ensures args[1] == if saveDev then "-D" else ""
    ensures args[2..] == packages
  {
    ["add", if saveDev then "-D" else ""] + packages
  }

  /** The packages an install argument vector names. */
  function PackagesOf(args: seq<string>): seq<string>
  {
    if |args| < 2 then [] else args[2..]
  }

  lemma InstallArgsRoundTrip(packages: seq<string>, saveDev: bool)
    ensures PackagesOf(InstallArgs(packages, saveDev)) == packages
    ensures InstallArgs(packages, saveDev)[1] == "-D" <==> saveDev
  {
  }

  function InstallYarnPackages(packages: seq<string>, opts: InstallOptions): (cmd: Command)
    ensures cmd.program == "yarn"
    ensures PackagesOf(cmd.args) == packages && |cmd.args| == |packages| + 2
    ensures cmd.args[..2] == ["add", if opts.saveDev then "-D" else ""]
    ensures cmd.pipe <==> !opts.silent
  {
    Command("yarn", InstallArgs(packages, opts.saveDev), !opts.silent)
  }

  /** The single install call of project creation: every chosen package as
      a development dependency, output piped. */
  function DevDependencyInstall(c: Config): (cmd: Command)
    ensures cmd == Command("yarn", ["add", "-D"] + PackagesToInstall(c), true)
    ensures |cmd.args| == 3 + (if c.jest then 2 else 0) + (if c.webpack then 3 else 1)
  {
    InstallYarnPackages(PackagesToInstall(c), InstallOptions(false, true))
  }
}
