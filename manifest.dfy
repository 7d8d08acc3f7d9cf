/** The rewrite applied to the package manifest after the dependencies are
    installed: fixed fields are overwritten, `devDependencies` is copied,
    and the result is `Object.assign`ed onto an object whose canonical keys
    are seeded with `null`, which fixes the order of those keys. */
module Manifest {
  import opened JsObjects
  import Scripts

  const Canonical: seq<string> :=
    ["name", "version", "license", "author", "main", "types", "scripts", "devDependencies"]

  /** Membership in `Canonical`, spelled out. */
  predicate IsCanonical(k: string)
  {
    k == "name" || k == "version" || k == "license" || k == "author"
    || k == "main" || k == "types" || k == "scripts" || k == "devDependencies"
  }

  /** The keys the callback writes before `Object.assign`. */
  predicate IsWritten(k: string)
  {
    k == "scripts" || k == "main" || k == "types" || k == "name" || k == "author" || k == "devDependencies"
  }

  lemma CanonicalMembership()
    ensures forall k :: k in Canonical <==> IsCanonical(k)
  {
  }

  /** The fresh target of `Object.assign`: every canonical key, `null`. */
  const Seed: Props<Json> := [
    ("name", JNull),
    ("version", JNull),
    ("license", JNull),
    ("author", JNull),
    ("main", JNull),
    ("types", JNull),
    ("scripts", JNull),
    ("devDependencies", JNull)
  ]

  const Author: Json := JObject([("name", JString("xkcm")), ("email", JString("xkcm16+npm@gmail.com"))])
  const MainPath: string := "dist/index.js"
  const TypesPath: string := "dist/index.d.ts"

  lemma SeedKeys()
    ensures Keys(Seed) == Canonical && Wf(Seed)
  {
  }

  lemma SeedGet(k: string)
    ensures Get(Seed, k) == if IsCanonical(k) then Some(JNull) else None
  {
    SeedKeys();
    CanonicalMembership();
  }

  function Digit(d: nat): char
    requires d < 10
  {
    "0123456789"[d]
  }

  /** The decimal numeral of `n`: the property key of index `n`. */
  function DecimalString(n: nat): (s: string)
    ensures |s| >= 1
  {
    if n < 10 then [Digit(n)] else DecimalString(n / 10) + [Digit(n % 10)]
  }

  /** The object spread `{...v}` of a property value (`None` is
      `undefined`). An object's own properties are copied in their order;
      a string or an array yields its elements under the keys "0", "1", …;
      `undefined`, `null`, booleans and numbers yield no properties. */
  function Spread(v: Option<Json>): (r: Props<Json>)
    ensures v.Some? && v.value.JObject? ==> r == v.value.members
    ensures v.None? || v.value.JNull? || v.value.JBool? || v.value.JNumber? ==> r == []
    ensures v.Some? && v.value.JString? ==> |r| == |v.value.s|
    ensures v.Some? && v.value.JArray? ==> |r| == |v.value.items|
  {
    if v.None? then []
    else
      match v.value
      case JObject(members) => members
      case JString(s) => seq(|s|, i requires 0 <= i < |s| => (DecimalString(i), JString([s[i]])))
      case JArray(items) => seq(|items|, i requires 0 <= i < |items| => (DecimalString(i), items[i]))
      case _ => []
  }

  /** Spreading a string or an array gives one property per element, keyed
      by the element's decimal index, in index order. */
  lemma SpreadIndexed(v: Json)
    ensures v.JString? ==> forall i :: 0 <= i < |v.s| ==>
      Spread(Some(v))[i] == (DecimalString(i), JString([v.s[i]]))
    ensures v.JArray? ==> forall i :: 0 <= i < |v.items| ==>
      Spread(Some(v))[i] == (DecimalString(i), v.items[i])
  {
  }

  /** The callback's five writes of fixed values, in its order. */
  function WriteFields(m: Props<Json>, projectName: string, webpack: bool): Props<Json>
  {
    var withScripts := Set(m, "scripts", JObject(Scripts.Table(webpack)));
    var withMain := Set(withScripts, "main", JString(MainPath));
    var withTypes := Set(withMain, "types", JString(TypesPath));
    var withName := Set(withTypes, "name", JString(projectName));
    Set(withName, "author", Author)
  }

  /** `json.devDependencies = {...json.devDependencies}`. */
  function CopyDevDependencies(j: Props<Json>): Props<Json>
  {
    Set(j, "devDependencies", JObject(Spread(Get(j, "devDependencies"))))
  }

  /** The manifest after all of the callback's writes. */
  function Prepare(m: Props<Json>, projectName: string, webpack: bool): Props<Json>
  {
    CopyDevDependencies(WriteFields(m, projectName, webpack))
  }

  /** The manifest the callback returns. */
  function Normalize(m: Props<Json>, projectName: string, webpack: bool): Props<Json>
  {
    Assign(Seed, Prepare(m, projectName, webpack))
  }

  /** What the normalised manifest holds under each key, stated key by key. */
  function Expected(m: Props<Json>, projectName: string, webpack: bool, k: string): Option<Json>
  {
    if k == "name" then Some(JString(projectName))
    else if k == "author" then Some(Author)
    else if k == "main" then Some(JString(MainPath))
    else if k == "types" then Some(JString(TypesPath))
    else if k == "scripts" then Some(JObject(Scripts.Table(webpack)))
    else if k == "devDependencies" then Some(JObject(Spread(Get(m, k))))
    else if IsCanonical(k) then (if k in Keys(m) then Get(m, k) else Some(JNull))
    else Get(m, k)
  }

  /** A write under a canonical key leaves the non-canonical keys alone. */
  lemma OutsideSetCanonical(x: Props<Json>, k: string, v: Json)
    requires IsCanonical(k)
    ensures Outside(Keys(Set(x, k, v)), Canonical) == Outside(Keys(x), Canonical)
  {
    assert k in Canonical;
    SetKeys(x, k, v);
    if k !in Keys(x) {
      var ks := Keys(x) + [k];
      assert ks[..|ks| - 1] == Keys(x);
    }
  }

  /** Five writes under distinct keys, whatever the values written. */
  lemma FiveWrites(m: Props<Json>, v1: Json, v2: Json, v3: Json, v4: Json, v5: Json, k: string)
    ensures var w := Set(Set(Set(Set(Set(m, "scripts", v1), "main", v2), "types", v3), "name", v4), "author", v5);
      Get(w, k) ==
        if k == "scripts" then Some(v1)
        else if k == "main" then Some(v2)
        else if k == "types" then Some(v3)
        else if k == "name" then Some(v4)
        else if k == "author" then Some(v5)
        else Get(m, k)
  {
  }

  lemma FiveWritesKeys(m: Props<Json>, v1: Json, v2: Json, v3: Json, v4: Json, v5: Json)
    requires Wf(m)
    ensures var w := Set(Set(Set(Set(Set(m, "scripts", v1), "main", v2), "types", v3), "name", v4), "author", v5);
      && Wf(w)
      && Outside(Keys(w), Canonical) == Outside(Keys(m), Canonical)
  {
    var w1 := Set(m, "scripts", v1);
    var w2 := Set(w1, "main", v2);
    var w3 := Set(w2, "types", v3);
    var w4 := Set(w3, "name", v4);
    SetKeys(m, "scripts", v1);
    SetKeys(w1, "main", v2);
    SetKeys(w2, "types", v3);
    SetKeys(w3, "name", v4);
    SetKeys(w4, "author", v5);
    OutsideSetCanonical(m, "scripts", v1);
    OutsideSetCanonical(w1, "main", v2);
    OutsideSetCanonical(w2, "types", v3);
    OutsideSetCanonical(w3, "name", v4);
    OutsideSetCanonical(w4, "author", v5);
  }

  lemma PrepareKeys(m: Props<Json>, projectName: string, webpack: bool)
    requires Wf(m)
    ensures var p := Prepare(m, projectName, webpack);
      && Wf(p)
      && Outside(Keys(p), Canonical) == Outside(Keys(m), Canonical)
  {
    var w := WriteFields(m, projectName, webpack);
    FiveWritesKeys(m, JObject(Scripts.Table(webpack)), JString(MainPath), JString(TypesPath), JString(projectName), Author);
    var copy := JObject(Spread(Get(w, "devDependencies")));
    SetKeys(w, "devDependencies", copy);
    OutsideSetCanonical(w, "devDependencies", copy);
  }

  /** Reading back any key after the callback's writes. */
  lemma PrepareGet(m: Props<Json>, projectName: string, webpack: bool, k: string)
    ensures Get(Prepare(m, projectName, webpack), k) ==
      if IsWritten(k) then Expected(m, projectName, webpack, k) else Get(m, k)
  {
    var w := WriteFields(m, projectName, webpack);
    FiveWrites(m, JObject(Scripts.Table(webpack)), JString(MainPath), JString(TypesPath), JString(projectName), Author, k);
    FiveWrites(m, JObject(Scripts.Table(webpack)), JString(MainPath), JString(TypesPath), JString(projectName), Author, "devDependencies");
  }

  /** The first eight keys of the normalised manifest are the canonical
      ones in canonical order; every other key of the input follows, in
      its original relative order, and none is dropped. */
  lemma NormalizeKeys(m: Props<Json>, projectName: string, webpack: bool)
    requires Wf(m)
    ensures var r := Normalize(m, projectName, webpack);
      && Wf(r)
      && Keys(r) == Canonical + Outside(Keys(m), Canonical)
      && Keys(r)[..8] == Canonical
  {
    var p := Prepare(m, projectName, webpack);
    SeedKeys();
    PrepareKeys(m, projectName, webpack);
    AssignKeys(Seed, p);
    NewKeysOfDistinct(Canonical, Keys(p));
  }

  lemma NormalizeWf(m: Props<Json>, projectName: string, webpack: bool)
    requires Wf(m)
    ensures Wf(Normalize(m, projectName, webpack))
  {
    SeedKeys();
    AssignKeys(Seed, Prepare(m, projectName, webpack));
  }

  /** Key `k` of the normalised manifest holds what `Expected` says. */
  lemma NormalizeValueAt(m: Props<Json>, projectName: string, webpack: bool, k: string)
    requires Wf(m)
    ensures Get(Normalize(m, projectName, webpack), k) == Expected(m, projectName, webpack, k)
  {
    PrepareKeys(m, projectName, webpack);
    PrepareGet(m, projectName, webpack, k);
    OntoSeedAt(Prepare(m, projectName, webpack), m, projectName, webpack, k);
  }

  /** Copying onto `Seed` an object that holds the written values and
      otherwise agrees with `m` gives what `Expected` says. */
  lemma OntoSeedAt(p: Props<Json>, m: Props<Json>, projectName: string, webpack: bool, k: string)
    requires Wf(p)
    requires Get(p, k) == if IsWritten(k) then Expected(m, projectName, webpack, k) else Get(m, k)
    ensures Get(Assign(Seed, p), k) == Expected(m, projectName, webpack, k)
  {
    SeedGet(k);
  }

  /** Every key of the normalised manifest holds what `Expected` says. */
  lemma NormalizeValues(m: Props<Json>, projectName: string, webpack: bool)
    requires Wf(m)
    ensures forall k :: Get(Normalize(m, projectName, webpack), k) == Expected(m, projectName, webpack, k)
  {
    forall k ensures Get(Normalize(m, projectName, webpack), k) == Expected(m, projectName, webpack, k) {
      NormalizeValueAt(m, projectName, webpack, k);
    }
  }

  /** The fixed fields, whatever the input held; `version` and `license`
      kept or `null`; `devDependencies` kept or empty; every other key as
      in the input. */
  lemma NormalizeFields(m: Props<Json>, projectName: string, webpack: bool)
    requires Wf(m)
    ensures var r := Normalize(m, projectName, webpack);
      && Get(r, "name") == Some(JString(projectName))
      && Get(r, "main") == Some(JString("dist/index.js"))
      && Get(r, "types") == Some(JString("dist/index.d.ts"))
      && Get(r, "author") == Some(JObject([("name", JString("xkcm")), ("email", JString("xkcm16+npm@gmail.com"))]))
      && Get(r, "scripts") == Some(JObject(Scripts.Table(webpack)))
      && Get(r, "version") == (if "version" in Keys(m) then Get(m, "version") else Some(JNull))
      && Get(r, "license") == (if "license" in Keys(m) then Get(m, "license") else Some(JNull))
      && (Get(m, "devDependencies").Some? && Get(m, "devDependencies").value.JObject? ==>
            Get(r, "devDependencies") == Get(m, "devDependencies"))
      && (Get(m, "devDependencies").None? ==> Get(r, "devDependencies") == Some(JObject([])))
      && (forall k :: k !in Canonical ==> Get(r, k) == Get(m, k))
  {
    NormalizeValueAt(m, projectName, webpack, "name");
    NormalizeValueAt(m, projectName, webpack, "main");
    NormalizeValueAt(m, projectName, webpack, "types");
    NormalizeValueAt(m, projectName, webpack, "author");
    NormalizeValueAt(m, projectName, webpack, "scripts");
    NormalizeValueAt(m, projectName, webpack, "version");
    NormalizeValueAt(m, projectName, webpack, "license");
    NormalizeValueAt(m, projectName, webpack, "devDependencies");
    forall k | k !in Canonical ensures Get(Normalize(m, projectName, webpack), k) == Get(m, k) {
      CanonicalMembership();
      NormalizeValueAt(m, projectName, webpack, k);
    }
  }

  /** An object that holds what `Expected` says for `m` is mapped by
      `Expected` to the same values again. */
  lemma ExpectedStable(m: Props<Json>, once: Props<Json>, projectName: string, webpack: bool, k: string)
    requires forall j :: Get(once, j) == Expected(m, projectName, webpack, j)
    ensures Expected(once, projectName, webpack, k) == Expected(m, projectName, webpack, k)
  {
    if k == "devDependencies" {
      assert Get(once, k) == Some(JObject(Spread(Get(m, k))));
    } else if IsCanonical(k) && !IsWritten(k) {
      assert Get(once, k).Some?;
    }
  }

  lemma NormalizeTwiceAt(m: Props<Json>, projectName: string, webpack: bool, k: string)
    requires Wf(m)
    ensures var once := Normalize(m, projectName, webpack);
      Get(Normalize(once, projectName, webpack), k) == Get(once, k)
  {
    var once := Normalize(m, projectName, webpack);
    NormalizeWf(m, projectName, webpack);
    NormalizeValues(m, projectName, webpack);
    NormalizeValueAt(once, projectName, webpack, k);
    ExpectedStable(m, once, projectName, webpack, k);
  }

  lemma NormalizeTwiceKeys(m: Props<Json>, projectName: string, webpack: bool)
    requires Wf(m)
    ensures var once := Normalize(m, projectName, webpack);
      Keys(Normalize(once, projectName, webpack)) == Keys(once)
  {
    var once := Normalize(m, projectName, webpack);
    NormalizeKeys(m, projectName, webpack);
    NormalizeKeys(once, projectName, webpack);
    var rest := Outside(Keys(m), Canonical);
    DropExcludedPrefix(Canonical, rest, Canonical);
    OutsideIdempotent(Keys(m), Canonical);
  }

  /** Normalising a normalised manifest again changes nothing. */
  lemma NormalizeIdempotent(m: Props<Json>, projectName: string, webpack: bool)
    requires Wf(m)
    ensures Normalize(Normalize(m, projectName, webpack), projectName, webpack) == Normalize(m, projectName, webpack)
  {
    var once := Normalize(m, projectName, webpack);
    var twice := Normalize(once, projectName, webpack);
    NormalizeWf(m, projectName, webpack);
    NormalizeWf(once, projectName, webpack);
    NormalizeTwiceKeys(m, projectName, webpack);
    forall k ensures Get(twice, k) == Get(once, k) {
      NormalizeTwiceAt(m, projectName, webpack, k);
    }
    Extensionality(twice, once);
  }

  /** The callback's writes into the parsed manifest object, in place. */
  method WriteManifestFields(json: PlainObject, projectName: string, webpack: bool)
    requires json.Valid()
    modifies json
    ensures json.Valid() && json.props == Prepare(old(json.props), projectName, webpack)
  {
    json.Write("scripts", JObject(Scripts.Table(webpack)));
    json.Write("main", JString(MainPath));
    json.Write("types", JString(TypesPath));
    json.Write("name", JString(projectName));
    json.Write("author", Author);
    var devDependencies := json.Read("devDependencies");
    json.Write("devDependencies", JObject(Spread(devDependencies)));
  }

  /** A fresh object holding every canonical key, each `null`. */
  method NewSeeded() returns (o: PlainObject)
    ensures fresh(o) && o.Valid() && o.props == Seed
  {
    SeedKeys();
    o := new PlainObject(Seed);
  }

  /** The manifest callback on the parsed manifest object: writes the
      fixed fields into `json` in place, then copies it onto a fresh object
      seeded with the canonical keys and returns that object. */
  method NormalizeManifest(json: PlainObject, projectName: string, webpack: bool) returns (result: PlainObject)
    requires json.Valid()
    modifies json
    ensures json.Valid() && json.props == Prepare(old(json.props), projectName, webpack)
    ensures fresh(result) && result.Valid()
    ensures result.props == Normalize(old(json.props), projectName, webpack)
  {
    WriteManifestFields(json, projectName, webpack);
    var prepared := json.props;
    result := NewSeeded();
    result.AssignFrom(prepared);
    assert result.props == Assign(Seed, prepared);
  }
}
