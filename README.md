# create-typescript-project: a verified model of its decision rules

`create-typescript-project` scaffolds a new TypeScript package. It resolves
the target directory and the package name from its one argument. It asks
three yes/no questions (Jest? Webpack? git?), installs the chosen development
dependencies with a single `yarn add`, and rewrites `package.json` into a
canonical shape. Nearly all of the program is filesystem and subprocess
plumbing. This project models the pure rules inside that plumbing and proves
what they guarantee:

- `installer.dfy` (modules `UserChoices`, `Installer`): which packages are
  installed, and the `yarn add` argument vector.
- `scripts.dfy` (module `Scripts`): the build command and the five-entry
  `scripts` table.
- `js_objects.dfy` (module `JsObjects`): JSON values; objects as
  insertion-ordered string-keyed maps; property write (`o[k] = v`) and
  `Object.assign` with JavaScript's key-order rules. `PlainObject` is a
  mutable object whose methods perform these updates in place.
- `manifest.dfy` (module `Manifest`): the `modifyPackageJson` callback. It
  first writes fields into the parsed manifest object in place. It then
  `Object.assign`s that object onto a fresh object whose eight canonical keys
  are seeded with `null`. The pure function `Normalize` specifies the result;
  the method `NormalizeManifest` performs the same steps on `PlainObject`s.
- `project_setup.dfy` (module `ProjectSetup`): `resolveProjectDirectory`,
  which writes the three fields of the `ProjectConfig` singleton.
  `path.resolve` and `path.basename` are function parameters, so the
  properties hold whatever those functions do.

The model follows the code in three places that are easy to misread:

- Manifest keys outside the canonical eight are kept. They come after the
  canonical block, in their original order. They are not dropped.
- When the argument does not resolve to the working directory, the project
  name is the argument exactly as typed. It is not the base name of the
  resolved path.
- `build` is the command `yarn build:dev`. It runs the development build; it
  is not a copy of the `build:dev` command text.

Three further points about the code and the model:

- With `saveDev` false, `installYarnPackages` passes an empty-string argument
  to yarn rather than leaving it out. The only call site passes
  `saveDev: true`.
- The callback reads `ProjectConfig.projectName` and the Webpack answer from
  enclosing scope. In the model they are the parameters `projectName` and
  `webpack` of `NormalizeManifest` and `Normalize`. Nothing ties them to a
  `ProjectConfig` object or to a `UserChoices.Config` value.
- `modifyPackageJson` uses `callback(json) || json`. The callback always
  returns an object, so the fallback is never taken, and the callback's
  result is the manifest that gets written.

## Model

| member | source | states |
|---|---|---|
| Installer.PackagesToInstall | create-typescript-project/src/index.js:98-102 | The list starts with `typescript`. `ts-jest, jest` come right after it exactly when Jest is chosen. It ends with `ts-loader, webpack, webpack-cli` with Webpack and with exactly `tsc` without it. Its length is 1 + (2 if Jest) + (3 if Webpack, else 1). `tsc` and `webpack` never both appear, and no package appears twice. |
| Installer.ChoicesRecovered | create-typescript-project/src/index.js:98-102 | The Jest and Webpack choices can be read back from the installed list. Two configurations install the same list exactly when they agree on both choices. |
| Installer.InstallArgs | create-typescript-project/src/index.js:74-75 | The vector is `add`, then `-D` if `saveDev` else the empty string, then the packages in their original order. Its length is the number of packages plus 2. |
| Installer.InstallArgsRoundTrip | create-typescript-project/src/index.js:74-75 | The packages can be recovered from the argument vector. The second argument is `-D` exactly when `saveDev` is set. |
| Installer.InstallYarnPackages | create-typescript-project/src/index.js:74-76 | Builds the `yarn` command with that argument vector. Output is piped exactly when `silent` is not set. |
| Installer.DevDependencyInstall | create-typescript-project/src/index.js:98-103 | Project creation makes one call, `yarn add -D` followed by every chosen package, with output piped. |
| Scripts.BuildCmd | create-typescript-project/src/index.js:111 | With Webpack the command is `npx webpack --mode ` followed by the mode. Without Webpack it is `npx tsc` for every mode. |
| Scripts.BuildCmdModes | create-typescript-project/src/index.js:111 | Two modes give the same build command exactly when Webpack is off or the two modes are equal. |
| Scripts.Table | create-typescript-project/src/index.js:112-118 | The table has exactly the keys `test, clear-dist, build:prod, build:dev, build`, in that order and without repeats. It also gives the value of each of these keys. |
| Scripts.TableBuilds | create-typescript-project/src/index.js:111-118 | `build:prod` and `build:dev` both start with `yarn clear-dist && `. `build` is `yarn build:dev`. With Webpack the builds run `npx webpack --mode ` followed by `production` or `development`; without it both run `npx tsc`. The two builds differ exactly when Webpack is chosen. |
| JsObjects.Get | create-typescript-project/src/index.js:126 | A property read finds a value exactly when the key is present. |
| JsObjects.Set | create-typescript-project/src/index.js:112-126 | After `o[k] = v`, reading `k` gives `v` and every other key reads as before. |
| JsObjects.SetKeys | create-typescript-project/src/index.js:112-126 | A write keeps an existing key in its position and appends a new key at the end, so no key ever appears twice. |
| JsObjects.Assign | create-typescript-project/src/index.js:127-136 | After `Object.assign(target, source)`, a key of the source reads as in the source and any other key reads as in the target. |
| JsObjects.AssignKeys | create-typescript-project/src/index.js:127-136 | `Object.assign` keeps the target's keys in place. It appends the source keys the target lacks, in source order, and never repeats a key. |
| JsObjects.NewKeysOfDistinct | create-typescript-project/src/index.js:127-136 | For a source without repeated keys, the appended keys are exactly the source keys missing from the target, in source order. |
| JsObjects.Extensionality | create-typescript-project/src/index.js:127-136 | Two objects with the same keys in the same order and the same values are equal. |
| JsObjects.PlainObject.Write | create-typescript-project/src/index.js:112-126 | An in-place property write. The object's new properties are `Set` of its old ones. |
| JsObjects.PlainObject.AssignFrom | create-typescript-project/src/index.js:127-136 | An in-place `Object.assign` that copies one property at a time. The object's new properties are `Assign` of its old ones and the source. |
| JsObjects.PlainObject.constructor | create-typescript-project/src/index.js:127-135 | A new object holds exactly the given properties, which must not repeat a key. `NewSeeded` uses it for the object literal with the eight `null` fields. |
| JsObjects.PlainObject.Read | create-typescript-project/src/index.js:126 | Reading `json.devDependencies` gives `Get` of the current properties, `undefined` (`None`) when the key is absent, and changes nothing. |
| Manifest.Spread | create-typescript-project/src/index.js:126 | `{...v}` copies an object's properties in order. It gives no properties for `undefined`, `null`, booleans and numbers, and for strings and arrays one property per element. |
| Manifest.SpreadIndexed | create-typescript-project/src/index.js:126 | The properties spread from a string or an array are keyed by the decimal index and hold the element, a one-character string in the case of a string. |
| Manifest.WriteFields | create-typescript-project/src/index.js:112-125 | The five fixed writes, in source order: `scripts`, `main`, `types`, `name`, `author`. Specified by `FiveWrites` (each written key reads its value, every other key reads as before) and `FiveWritesKeys` (no repeated keys, non-canonical keys unchanged). |
| Manifest.CopyDevDependencies | create-typescript-project/src/index.js:126 | `json.devDependencies = {...json.devDependencies}`: the key is set to a fresh object holding the spread of its old value. Read back through `PrepareGet`. |
| Manifest.Prepare | create-typescript-project/src/index.js:112-126 | The manifest after all of the callback's writes. Specified by `PrepareGet` (each written key holds its `Expected` value, every other key its input value) and `PrepareKeys` (no repeated keys, non-canonical keys unchanged). |
| Manifest.Normalize | create-typescript-project/src/index.js:127-136 | The object the callback returns: `Object.assign` of the prepared manifest onto the seeded literal. Specified by `NormalizeKeys` (key order), `NormalizeValues` and `NormalizeFields` (values) and `NormalizeIdempotent`. |
| Manifest.NormalizeKeys | create-typescript-project/src/index.js:119-136 | The first eight keys of the result are `name, version, license, author, main, types, scripts, devDependencies`, in that order. All other input keys follow in their original relative order; none is dropped (the engine's special handling of a `__proto__` key is not modelled, see below). No key repeats. |
| Manifest.NormalizeValues | create-typescript-project/src/index.js:112-136 | Every key of the result holds the value that the key-by-key reference `Expected` gives. |
| Manifest.NormalizeFields | create-typescript-project/src/index.js:119-136 | `name` is the project name. `main` is `dist/index.js` and `types` is `dist/index.d.ts`. `author` is `{name: "xkcm", email: "xkcm16+npm@gmail.com"}`, and `scripts` is the script table, whatever the input held. `version` and `license` keep their input values, or are `null` if absent. An object `devDependencies` is kept, and an absent one becomes `{}`. Every other key keeps its input value. |
| Manifest.NormalizeIdempotent | create-typescript-project/src/index.js:110-137 | Normalising an already normalised manifest changes nothing. |
| Manifest.WriteManifestFields | create-typescript-project/src/index.js:112-126 | The callback's writes happen in place, in source order, and leave the parsed object equal to `Prepare` of its old properties, still without repeated keys. |
| Manifest.NewSeeded | create-typescript-project/src/index.js:127-135 | The `Object.assign` target is a fresh object holding exactly the eight canonical keys, in canonical order, each `null`. |
| Manifest.NormalizeManifest | create-typescript-project/src/index.js:110-137 | The callback first writes the fields into the parsed object, in source order, leaving it equal to `Prepare` of the input. It then returns a fresh object equal to `Normalize` of the input. |
| ProjectSetup.DeriveName | create-typescript-project/src/index.js:38 | The name is the working directory's base name when the path resolves to the working directory. Otherwise it is the argument, unchanged. |
| ProjectSetup.ProjectConfig.constructor | create-typescript-project/src/index.js:8-12 | All three fields start out `null`. |
| ProjectSetup.ProjectConfig.ResolveProjectDirectory | create-typescript-project/src/index.js:35-42 | `cwd` is set to `resolve(process.cwd())` and `projectPath` to `resolve(cwd, arg)`. `projectName` is set to `basename(cwd)` when those two are equal, and to the argument otherwise. |

## Left out

- Filesystem effects are not modelled: `mkdir`, `readFile`, `writeFile`, `existsSync`, the placeholder `src/index.ts`, the template and `.gitignore` writes. They are I/O with no logic beyond sequencing.
- Template loading (`loadTemplateFiles`) is not modelled. It only reads fixed files into a dictionary.
- Subprocesses are not modelled: `yarn init`, the git init/add/commit calls, and the stdout piping inside `execCwd`. The model builds the `yarn add` command value but does not run it.
- The `inquirer` prompts and `commander` argument parsing are foreign library calls. `UserChoices.Config` stands for their result.
- Node's real `path.resolve` and `path.basename` are not modelled. They are function parameters of `ResolveProjectDirectory`; `process.cwd()` is a string parameter.
- `JSON.parse` and `JSON.stringify(…, null, 2)` are not modelled. The manifest is an already parsed object, and a manifest whose top level is not an object is outside the model. Parsed objects are assumed to have distinct keys (`Wf`), which is what `JSON.parse` produces.
- JSON numbers are unbounded integers (`JNumber(int)`); floating point is not modelled. Numbers are only carried through.
- JavaScript enumerates integer-like keys (such as `"0"`) before all other keys. That engine rule is not modelled; every key is enumerated in insertion order.
- The async sequencing, error propagation and missing rollback of `createProject` and `cli` are orchestration of effects and are not modelled.
- JsObjects.Assign: a `__proto__` key is treated as an ordinary key. `JSON.parse` makes such a key an own property, but `Object.assign` writes it through the `Object.prototype.__proto__` setter, so the program's result has no `__proto__` key while the model appends one after the canonical block. Prototypes and accessors are not modelled.
- Manifest.NormalizeKeys: for the same reason this lemma's "every other key is kept" does not hold for a `__proto__` key in the program.
- Manifest.Spread: a string is spread one Unicode scalar value per property, because a Dafny `string` is a sequence of scalar values. JavaScript spreads one UTF-16 code unit per property, so a character outside the Basic Multilingual Plane gives two properties (its surrogate halves) in the program and one in the model. UTF-16 encoding is not modelled.
- Manifest.SpreadIndexed: for the same reason its string case matches JavaScript only for strings whose characters all lie in the Basic Multilingual Plane.
